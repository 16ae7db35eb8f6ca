# monzo-cli, modelled in Dafny

A model of the command-line client for the Monzo banking API (BreD1810/monzo-cli) and proofs about it.

**What is modelled.**

- The OAuth2 credential lifecycle (RFC 6749):
  - the persisted credential record (`OauthInfo`);
  - filling in a missing client id or secret from standard input;
  - the authorization-code grant, received on a local redirect listener;
  - the session check, which refreshes the tokens at most once and classifies every other failure as fatal.
- How the redirect callback is read:
  - the request-target is the second whitespace-separated token of the request-line (section 3 of RFC 9112);
  - `http://localhost` is put in front of it;
  - the code is the first `code` pair of the query.
- The fixed `200 OK` reply, whose `content-length` is the body length in bytes (section 8.6 of RFC 9110).
- The presentation rules:
  - sort codes formatted as `xx-xx-rest`;
  - deleted pots filtered out and the remaining pots counted;
  - transactions printed newest first.
- The mapping from a clap subcommand match to `Parameters`.

**How the model is built.**

- Every panic and every `std::process::exit(1)` becomes a `Failure` value.
- Everything the program gets from outside is an input of the operations:
  - the `accounts()` probe;
  - the refresh and code-exchange responses;
  - whether confy can load or store;
  - the lines read from standard input;
  - the results of `listener.accept()`;
  - whether the write to the browser succeeds.
- `Url::parse` followed by `query_pairs()` is a function parameter. It returns the decoded (key, value) pairs, or `None` when the URL does not parse.
- Currency formatting is two function parameters:
  - `known`, which stands for `iso::find`;
  - `show`, which stands for the `Display` of `Money::from_minor`.
- State the source changes in place is a `class` with `modifies` clauses:
  - the confy file is `Auth.Store`;
  - the mutable `cfg` record is `Auth.Config`;
  - the API client with its own credentials is `Auth.Client`. Its ghost counter `refreshCalls` counts refresh exchanges.
- Pure logic uses functions over sequences. Each method is tied to a specification function of its inputs and old state, and the properties are proved about those functions.

**Files.**

- `results.dfy`: `Option`, `Result`, `Outcome` and the failure causes.
- `text.dfy`: the pieces of Rust's string library the program relies on:
  - `char::is_whitespace`;
  - `trim_end`;
  - the decimal `Display` of a length;
  - `str::len` in UTF-8 bytes.
- `auth.dfy`: `src/auth.rs`.
- `printing.dfy`: `src/lib.rs`.
- `cli.dfy`: `src/cli.rs`.

**Behaviour worth knowing.**

- `get_authed_client` probes once. On `AuthExpired` it refreshes once, saves, and returns the client without repeating the probe (src/auth.rs:78-98). `Auth.SessionCheck` models this.
- Nothing checks that a stored record has all four fields filled. `do_oauth` stores whatever the token endpoint returned together with the client identity, and an empty entered line leaves the client id empty.
- `print_account_info` slices the sort code by bytes. A sort code can be printed exactly when bytes 2 and 4 fall on character boundaries, so non-ASCII sort codes are split by their UTF-8 bytes, not their characters.

## Model

| member | source | states |
|---|---|---|
| Auth.Store.Load | src/auth.rs:52-62 | `get_config` returns the stored record, or the default record when none is stored; a load error is the `ConfigLoadFailed` exit |
| Auth.Store.Save | src/auth.rs:40-50 | `save_config` makes the record what the next load returns; a store error is the `ConfigStoreFailed` exit and leaves the file as it was |
| Auth.FilledIdentity | src/auth.rs:27-33 | The client id or secret is replaced only when the stored field is empty, by the entered line after `trim_end`; non-empty stored fields and both tokens pass through; a failed read of a prompted line is an exit, with the id prompt first |
| Auth.Config.FillClientIdentity | src/auth.rs:25-33 | The two in-place `is_empty` tests with their prompts leave `cfg` equal to `FilledIdentity` of the loaded record, or fail with its failure |
| Auth.Classify | src/auth.rs:79-96 | A successful probe proceeds; exactly `AuthExpired` triggers a refresh; exactly `Client(403)` is the allow-access exit; all other errors are the run-auth exit |
| Auth.Client.RefreshAuth | src/auth.rs:102 | One refresh exchange: on success the client holds the new token pair and keeps its client identity; on failure nothing changes |
| Auth.RefreshClient | src/auth.rs:101-115 | A successful refresh sets the two token fields of `cfg` to the client's new values, leaves the client id and secret unchanged, and saves `cfg`; a failed refresh saves nothing and is the run-auth exit |
| Auth.SessionCheck | src/auth.rs:78-96 | A refresh happens exactly when the probe reports `AuthExpired`, and at most once; a successful probe leaves the credentials untouched; 403 and other errors are fatal without a refresh; a record is persisted only when the refresh succeeds and the store accepts it; the client identity is never changed |
| Auth.GetAuthedClient | src/auth.rs:70-99 | The client returned is new, holds the credentials `SessionCheck` yields, and has made one refresh exchange if a refresh happened and none otherwise; the store holds exactly what `SessionCheck` persisted |
| Auth.ReadLine | src/auth.rs:157-158 | `read_line` takes the data up to and including the first line feed, or all of it when there is none |
| Auth.ReadLineOf | src/auth.rs:157-158 | A line terminated by a line feed is read exactly, whatever follows it on the connection |
| Auth.Fields | src/auth.rs:160 | `split_whitespace` yields non-empty tokens that contain no Unicode whitespace |
| Auth.FieldsOfJoin | src/auth.rs:160 | Splitting space-separated tokens followed by trailing whitespace gives the tokens back |
| Auth.RequestTarget | src/auth.rs:160 | `nth(1)` finds a target exactly when the line has at least two tokens; the target is non-empty and contains no whitespace |
| Auth.RequestTargetOfRequestLine | src/auth.rs:160 | On a request-line `method SP target SP version` followed by its terminator, the target found is the request-target |
| Auth.FirstValue | src/auth.rs:163-172 | `find` gives nothing exactly when no pair has the key; otherwise the value of the first pair with that key |
| Auth.FirstValueIgnoresOtherKeys | src/auth.rs:163-172 | Removing every pair of another key does not change the code found |
| Auth.CodeIgnoresState | src/auth.rs:146 | The CSRF `state` is discarded: the code found does not depend on any `state` pair |
| Auth.CallbackQuery | src/auth.rs:157-161 | A failed read, a line with fewer than two tokens and a URL that does not parse are the three failures; otherwise the pairs are those of `http://localhost` followed by the request-target |
| Auth.CallbackCode | src/auth.rs:163-172 | A missing `code` is a failure exactly when no pair has the key `code`; otherwise the code is the value of the first `code` pair |
| Auth.ResponseFraming | src/auth.rs:175-180 | `Response` (the `format!` of the reply): reading the reply back gives a declared `content-length` equal to the body's length in bytes, and the body that was written |
| Auth.MessageLength | src/auth.rs:175-178 | `message.len()` is 23 |
| Auth.ReplyText | src/auth.rs:175-181 | The reply is exactly the status line, `content-length: 23`, an empty line and the message |
| Auth.HandleConnection | src/auth.rs:171-202 | A callback that yielded no code fails with its own cause, with no reply and no exchange; the code exchanged is the callback's, and only after the reply was written; a token result without a refresh token fails; a new record has the input's client id and secret and the response's tokens |
| Auth.FirstAccepted | src/auth.rs:151-152 | The connection handled is the first accept that succeeds; earlier failed accepts are skipped |
| Auth.DoOauth | src/auth.rs:150-204 | A failed bind fails; otherwise the result is that of handling the callback code of the first accepted connection |
| Auth.Authorize | src/auth.rs:64-68 | `auth` loads, fills in the client identity, runs the grant and saves its record; each failure is the exit of the step that failed, and a failure stores nothing |
| Auth.ScenarioTrim | src/auth.rs:124 | A line entered as `C` followed by its line feed trims to `C` |
| Text.TrimEnd | src/auth.rs:124 | `trim_end` leaves a prefix of the line that does not end in whitespace, and drops only whitespace |
| Text.TrimEndOfTerminated | src/auth.rs:124 | Text that does not end in whitespace, followed by a terminator, trims back to the text |
| Text.ValueOfDecimal | src/auth.rs:176-178 | The decimal text written for a length reads back as that length |
| Text.Utf8Length | src/auth.rs:178 | `str::len` counts UTF-8 bytes: between one and four per character |
| Printing.SortCodeSplit | src/lib.rs:30-35 | `SortCode` (the three slices): the printed sort code is the sort code's characters in order, with a dash after its first two bytes and another after its next two bytes |
| Text.CharIndex | src/lib.rs:32-34 | A byte offset names a character position exactly when some prefix of the string takes exactly that many bytes; otherwise slicing there panics |
| Printing.FormatSortCode | src/lib.rs:30-35 | The sort-code line has a value exactly when bytes 2 and 4 are character boundaries, and that value is `SortCode` |
| Printing.AsciiSortCode | src/lib.rs:30-35 | On an ASCII sort code, slicing succeeds exactly when it has at least four characters, and splits it after its second and fourth characters |
| Printing.WideFirstSortCode | src/lib.rs:30-35 | `é1234` prints as `é-12-34` |
| Printing.ThreeWideSortCode | src/lib.rs:30-35 | `ééé` prints as `é-é-é` |
| Printing.SplitCharSortCode | src/lib.rs:30-35 | `1é34` panics, because byte 2 falls inside `é` |
| Printing.AccountLinesInOrder | src/lib.rs:24-37 | `AccountLines` (`print_account_info`): when every sort code can be sliced, each account prints its number line and then its sort-code line, in input order, and nothing else is printed |
| Printing.AccountLinesSortCodePanics | src/lib.rs:29-35 | `AccountLines`: at the first sort code whose byte 2 or 4 is not a character boundary, it panics after the earlier accounts' lines and this account's number line |
| Printing.RenderStops | src/lib.rs:69-70 | `Render`, the shared `for_each` shape of `PotLines` and `TransactionLines`: an unknown currency panics before any line of its block, after the complete blocks of the items before it |
| Printing.OpenPots | src/lib.rs:40 | A pot is kept exactly when it is in the input and not deleted |
| Printing.OpenPotsAppend | src/lib.rs:40 | The filter keeps the input's relative order |
| Printing.OpenPotsCount | src/lib.rs:88-92 | The number of pots kept equals the number of positions holding a pot that is not deleted |
| Printing.PotLinesPrinted | src/lib.rs:39-45 | `PotLines` (`print_pots`): with known currencies there is one line per pot that is not deleted, in input order, naming that pot and its balance |
| Printing.Reversed | src/lib.rs:69 | `rev()` puts input item `len - 1 - i` at position `i` |
| Printing.TransactionsNewestFirst | src/lib.rs:68-81 | `TransactionLines` (`print_transactions`), built from `TransactionBlock`: with known currencies, output block `k` is input transaction `len - 1 - k`, and every six-line block ends with a blank line |
| Printing.SummaryLines | src/lib.rs:83-93 | `print_summary`: an unknown balance currency panics before anything is printed; otherwise three lines are printed, the last being the count of pots that are not deleted |
| Cli.FromName | src/cli.rs:22-34 | A name stands for a subcommand only if it is that subcommand's declared name |
| Cli.Select | src/cli.rs:38-65 | `info` and `transactions` map to their subcommand with no option; `pot` with its flag maps to `Pot` with `List`; `pot` without it and no subcommand map to `(None, None)`; any other name is the unrecognised-subcommand panic; an option is present exactly for `Pot` |
| Cli.PotListAsWritten | src/cli.rs:43-55 | `ParseAsWritten` (`parse` as written): the matches clap returns for `monzo pot --list` map to `(None, None)` |
| Cli.PotListUnreachableAsWritten | src/cli.rs:43-55 | `ParseAsWritten`: no match the declared `App` lets through selects `Pot` |
| Cli.ParseDeclared | src/cli.rs:19-65 | `Parse` (`parse` with the flag read from the `pot` subcommand's matches): every match clap lets through maps to its own subcommand's parameters, and none reaches the panic or the `pot`-without-flag branch |

## Left out

- Network calls are inputs, not modelled. These are the `monzo::Client` methods, the `oauth2` code exchange and refresh (`request_async`, `refresh_auth`) and `async_http_client`. Their results are parameters (`ProbeResult`, `RefreshResponse`, `TokenResponse`).
- Socket I/O is not modelled:
  - `TcpListener::bind`, `accept`, and the stream's reads and writes are represented only by their success or failure, plus the data of the first line;
  - the endless accept loop is modelled over a finite sequence of accept results.
- Auth.DoOauth: when every supplied accept fails, the source keeps waiting, and the model reports `NoConnection` instead.
- confy internals are not modelled, including the path of the configuration file and the creation of a default file on first load. A failed store is modelled as leaving the file unchanged.
- Standard input is the entered line, or `None` for a read error. The prompts' text is not modelled.
- `authorize_url` and the random CSRF token are not modelled, because they live inside the `oauth2` crate. That the token is never compared with the callback is stated by `Auth.CodeIgnoresState`.
- `Url::parse` and form-urlencoded decoding are abstracted as a parameter that yields decoded pairs.
- Money formatting (`rusty_money`, `iso::find`) is abstracted as the `known` and `show` parameters. Dates (`chrono`) are an already formatted string.
- Literal standard-error text is not modelled. Only the failure causes are kept: `AllowAccess` for the 403 message; `RunAuth` for "run `monzo auth`".
- `src/main.rs` is not part of this model. It is async orchestration over network calls, which uses `accounts[0]` and a fixed 7-day window.
- `get_access_token` is not part of this model: it reads an environment variable.
- `get_transactions` is not part of this model. It matches a `CommandOptions::Since` that `src/cli.rs` does not define, and it reads the clock.
- clap's parsing of the argument vector is not modelled. `Cli.Declared` describes the matches the declared `App` can return (clap 2 keeps a subcommand's arguments in that subcommand's own matches), and `Cli.IsPresent` follows clap 2's `ArgMatches::is_present`.

## Findings

| source | as written | input that shows it | evidently intended | confidence | as-written member | corrected member |
|---|---|---|---|---|---|---|
| src/cli.rs:44 | The `pot-list` flag is looked up on the top-level matches. clap keeps it in the `pot` subcommand's matches, so the lookup is false whenever the subcommand is `pot`. | `monzo pot --list` gives `(None, None)`, so the summary is printed instead of the pots. | The flag is read from `matches.subcommand_matches("pot")`, so that `monzo pot --list` gives `(Some(Pot), Some(List))` | medium: depends on clap 2's `ArgMatches`, which is not part of this model; not executed | Cli.PotListAsWritten | Cli.ParseDeclared |
