/** Failure-carrying values shared by the whole model. Every `unwrap()` panic and
    every `std::process::exit(1)` of the program becomes a `Failure` returned to the
    caller, so that the failure paths can be stated and proved. */
module Results {

  datatype Option<T> = None | Some(value: T) {
    function GetOr(default: T): T {
      match this
      case Some(v) => v
      case None => default
    }
  }

  /** Why the process stops. Panics and explicit exits are both non-zero exits. */
  datatype Failure =
    // confy could not load or store the "monzo-cli" record
    | ConfigLoadFailed
    | ConfigStoreFailed
      // reading the client id / secret from standard input failed
    | ReadClientIdFailed
    | ReadClientSecretFailed
      // the redirect listener and the callback it receives
    | BindFailed
    | NoConnection
    | ReadRequestFailed
    | NoRequestTarget
    | BadRedirectUrl
    | NoCode
    | ReplyFailed
      // the authorization-code exchange
    | AuthorisingFailed
    | NoRefreshToken
      // the session check: 403, "allow access in your Monzo app"
    | AllowAccess
      // the session check: any other error, "Please run `monzo auth`"
    | RunAuth
      // the subcommand match meets a name it does not know
    | UnrecognisedSubcommand

  datatype Result<T> = Ok(value: T) | Err(error: Failure)

  /** A step that produces nothing but may fail. */
  datatype Outcome = Pass | Fail(error: Failure)
}
