/** The OAuth2 credential lifecycle of the command-line client: the persisted
    credential record, filling in the client identity, the session check with its
    single refresh, and the authorization-code grant (section 4.1 of RFC 6749)
    received on a local redirect listener.

    Remote results (the `accounts()` probe, the refresh exchange, the code
    exchange), confy's load and store and the standard-input prompts are inputs
    of the operations; `Url::parse` with its query decoder is a function
    parameter giving the decoded (key, value) pairs of a URL, or `None` when the
    URL does not parse. */
module Auth {
  import opened Results
  import opened Text

  // ---------------------------------------------------------------------
  // The credential record and its persistence
  // ---------------------------------------------------------------------

  /** `OauthInfo`: the record confy persists under the name "monzo-cli". */
  datatype OauthInfo = OauthInfo(
    accessToken: string,
    clientId: string,
    clientSecret: string,
    refreshToken: string)

  /** `OauthInfo::default()`, what confy yields when nothing is stored yet. */
  const Empty := OauthInfo("", "", "", "")

  /** The token fields replaced, the client identity kept. */
  function WithTokens(info: OauthInfo, accessToken: string, refreshToken: string): OauthInfo {
    info.(accessToken := accessToken, refreshToken := refreshToken)
  }

  predicate SameClient(a: OauthInfo, b: OauthInfo) {
    a.clientId == b.clientId && a.clientSecret == b.clientSecret
  }

  /** The confy configuration file. `readable` and `accepted` say whether the
      file system lets `confy::load` and `confy::store` succeed. */
  class Store {
    var file: Option<OauthInfo>

    constructor (file: Option<OauthInfo>)
      ensures this.file == file
    {
      this.file := file;
    }

    function Stored(): OauthInfo
      reads this
    {
      file.GetOr(Empty)
    }

    /** `get_config`: a load error ends the process. */
    method Load(readable: bool) returns (r: Result<OauthInfo>)
      ensures readable ==> r == Ok(Stored())
      ensures !readable ==> r == Err(ConfigLoadFailed)
    {
      if readable {
        r := Ok(Stored());
      } else {
        r := Err(ConfigLoadFailed);
      }
    }

    /** `save_config`: a store error ends the process and stores nothing; a
        successful store is what the next load returns. */
    method Save(info: OauthInfo, accepted: bool) returns (o: Outcome)
      modifies this
      ensures accepted ==> o == Pass && file == Some(info) && Stored() == info
      ensures !accepted ==> o == Fail(ConfigStoreFailed) && file == old(file)
    {
      if accepted {
        file := Some(info);
        o := Pass;
      } else {
        o := Fail(ConfigStoreFailed);
      }
    }
  }

  // ---------------------------------------------------------------------
  // OauthInfo::new: asking for a missing client identity
  // ---------------------------------------------------------------------

  /** What `OauthInfo::new` makes of the loaded record before the grant. An
      entered line is `None` when reading standard input failed; the value used
      is the line with `trim_end` applied. */
  function FilledIdentity(stored: OauthInfo, idLine: Option<string>, secretLine: Option<string>)
    : (r: Result<OauthInfo>)
    ensures r.Err? <==> (stored.clientId == "" && idLine.None?)
                        || (stored.clientSecret == "" && secretLine.None?)
    ensures r.Err? ==> r.error == if stored.clientId == "" && idLine.None?
                                  then ReadClientIdFailed else ReadClientSecretFailed
    ensures r.Ok? ==> r.value.accessToken == stored.accessToken
                      && r.value.refreshToken == stored.refreshToken
    ensures r.Ok? && stored.clientId != "" ==> r.value.clientId == stored.clientId
    ensures r.Ok? && stored.clientSecret != "" ==> r.value.clientSecret == stored.clientSecret
    ensures r.Ok? && stored.clientId == "" ==> idLine.Some? && r.value.clientId == TrimEnd(idLine.value)
    ensures r.Ok? && stored.clientSecret == "" ==>
              secretLine.Some? && r.value.clientSecret == TrimEnd(secretLine.value)
  {
    if stored.clientId == "" && idLine.None? then Err(ReadClientIdFailed)
    else if stored.clientSecret == "" && secretLine.None? then Err(ReadClientSecretFailed)
    else
      var id := if stored.clientId == "" then TrimEnd(idLine.value) else stored.clientId;
      var secret := if stored.clientSecret == "" then TrimEnd(secretLine.value) else stored.clientSecret;
      Ok(stored.(clientId := id, clientSecret := secret))
  }

  /** A stored, non-empty field is never asked for: what the operator would
      enter for it makes no difference. */
  lemma PromptOnlyWhenEmpty(stored: OauthInfo, id1: Option<string>, id2: Option<string>,
                            secret1: Option<string>, secret2: Option<string>)
    ensures stored.clientId != "" ==>
              FilledIdentity(stored, id1, secret1) == FilledIdentity(stored, id2, secret1)
    ensures stored.clientSecret != "" ==>
              FilledIdentity(stored, id1, secret1) == FilledIdentity(stored, id1, secret2)
  {
  }

  /** The mutable `cfg` binding of `OauthInfo::new` and `get_authed_client`. */
  class Config {
    var accessToken: string
    var clientId: string
    var clientSecret: string
    var refreshToken: string

    constructor (info: OauthInfo)
      ensures Value() == info
    {
      accessToken := info.accessToken;
      clientId := info.clientId;
      clientSecret := info.clientSecret;
      refreshToken := info.refreshToken;
    }

    function Value(): OauthInfo
      reads this
    {
      OauthInfo(accessToken, clientId, clientSecret, refreshToken)
    }

    /** The two `is_empty` tests of `OauthInfo::new`, each followed by a prompt. */
    method FillClientIdentity(idLine: Option<string>, secretLine: Option<string>) returns (o: Outcome)
      modifies this
      ensures var f := FilledIdentity(old(Value()), idLine, secretLine);
              && (o.Pass? <==> f.Ok?)
              && (f.Err? ==> o == Fail(f.error))
              && (f.Ok? ==> Value() == f.value)
    {
      if clientId == "" {
        if idLine.None? {
          return Fail(ReadClientIdFailed);
        }
        clientId := TrimEnd(idLine.value);
      }
      if clientSecret == "" {
        if secretLine.None? {
          return Fail(ReadClientSecretFailed);
        }
        clientSecret := TrimEnd(secretLine.value);
      }
      o := Pass;
    }
  }

  // ---------------------------------------------------------------------
  // get_authed_client and refresh_client
  // ---------------------------------------------------------------------

  /** The result of the `accounts()` probe. */
  datatype ProbeResult = ProbeOk | AuthExpired | ClientError(status: int) | OtherError

  /** The result of `refresh_auth()` at the token endpoint. */
  datatype RefreshResponse = Refreshed(accessToken: string, refreshToken: string) | RefreshFailed

  datatype Verdict = Proceed | RefreshOnce | FatalAllowAccess | FatalRunAuth

  /** The match on the probe result. */
  function Classify(probe: ProbeResult): (v: Verdict)
    ensures v == Proceed <==> probe == ProbeOk
    ensures v == RefreshOnce <==> probe == AuthExpired
    ensures v == FatalAllowAccess <==> probe == ClientError(403)
  {
    match probe
    case ProbeOk => Proceed
    case AuthExpired => RefreshOnce
    case ClientError(status) => if status == 403 then FatalAllowAccess else FatalRunAuth
    case OtherError => FatalRunAuth
  }

  /** `Client<Refreshable>`: the API handle with its own copy of the credentials.
      `refreshCalls` counts the refresh exchanges it has made. */
  class Client {
    var accessToken: string
    var clientId: string
    var clientSecret: string
    var refreshToken: string
    ghost var refreshCalls: nat

    constructor (info: OauthInfo)
      ensures Credentials() == info && refreshCalls == 0
    {
      accessToken := info.accessToken;
      clientId := info.clientId;
      clientSecret := info.clientSecret;
      refreshToken := info.refreshToken;
      refreshCalls := 0;
    }

    function Credentials(): OauthInfo
      reads this
    {
      OauthInfo(accessToken, clientId, clientSecret, refreshToken)
    }

    /** `refresh_auth`: on success the client holds the newly issued pair. */
    method RefreshAuth(response: RefreshResponse) returns (ok: bool)
      modifies this
      ensures ok <==> response.Refreshed?
      ensures ok ==> Credentials() == WithTokens(old(Credentials()), response.accessToken, response.refreshToken)
      ensures !ok ==> Credentials() == old(Credentials())
      ensures refreshCalls == old(refreshCalls) + 1
    {
      refreshCalls := refreshCalls + 1;
      if response.Refreshed? {
        accessToken := response.accessToken;
        refreshToken := response.refreshToken;
        ok := true;
      } else {
        ok := false;
      }
    }
  }

  /** `refresh_client`: one refresh; on success the two token fields of `cfg`
      take the client's new values and `cfg` is saved, on failure nothing is. */
  method RefreshClient(client: Client, cfg: Config, store: Store, response: RefreshResponse,
                       storeAccepts: bool) returns (o: Outcome)
    modifies client, cfg, store
    ensures client.refreshCalls == old(client.refreshCalls) + 1
    ensures response.RefreshFailed? ==>
              && o == Fail(RunAuth)
              && client.Credentials() == old(client.Credentials())
              && cfg.Value() == old(cfg.Value())
              && store.file == old(store.file)
    ensures response.Refreshed? ==>
              && client.Credentials() == WithTokens(old(client.Credentials()), response.accessToken, response.refreshToken)
              && cfg.Value() == WithTokens(old(cfg.Value()), response.accessToken, response.refreshToken)
              && (storeAccepts ==> o == Pass && store.file == Some(cfg.Value()))
              && (!storeAccepts ==> o == Fail(ConfigStoreFailed) && store.file == old(store.file))
  {
    var ok := client.RefreshAuth(response);
    if ok {
      cfg.accessToken := client.accessToken;
      cfg.refreshToken := client.refreshToken;
      o := store.Save(cfg.Value(), storeAccepts);
    } else {
      o := Fail(RunAuth);
    }
  }

  /** What one session check observably does: whether it refreshed, the record it
      persisted (if any) and the credentials of the client it hands back. */
  datatype SessionTrace = SessionTrace(refreshed: bool, saved: Option<OauthInfo>, outcome: Result<OauthInfo>)

  /** The session check of `get_authed_client` on the loaded record, the probe
      result, the refresh response and whether the store accepts a write. */
  function SessionCheck(loaded: Result<OauthInfo>, probe: ProbeResult, response: RefreshResponse,
                        storeAccepts: bool): (t: SessionTrace)
    ensures loaded.Err? ==> t == SessionTrace(false, None, Err(loaded.error))
    ensures t.refreshed <==> loaded.Ok? && probe == AuthExpired
    ensures loaded.Ok? && probe == ProbeOk ==> t == SessionTrace(false, None, Ok(loaded.value))
    ensures loaded.Ok? && probe == ClientError(403) ==> t.outcome == Err(AllowAccess) && t.saved.None?
    ensures loaded.Ok? && (probe.OtherError? || (probe.ClientError? && probe.status != 403)) ==>
              t.outcome == Err(RunAuth) && t.saved.None?
    ensures t.saved.Some? <==> t.refreshed && response.Refreshed? && storeAccepts
    ensures t.saved.Some? ==>
              t.saved.value == WithTokens(loaded.value, response.accessToken, response.refreshToken)
              && t.outcome == Ok(t.saved.value)
    ensures t.refreshed && response.RefreshFailed? ==> t.outcome == Err(RunAuth)
    ensures t.refreshed && response.Refreshed? && !storeAccepts ==> t.outcome == Err(ConfigStoreFailed)
    ensures t.outcome.Ok? ==> loaded.Ok? && SameClient(t.outcome.value, loaded.value)
  {
    if loaded.Err? then SessionTrace(false, None, Err(loaded.error))
    else
      match Classify(probe)
      case Proceed => SessionTrace(false, None, Ok(loaded.value))
      case RefreshOnce =>
        if response.RefreshFailed? then SessionTrace(true, None, Err(RunAuth))
        else if !storeAccepts then SessionTrace(true, None, Err(ConfigStoreFailed))
        else
          var info := WithTokens(loaded.value, response.accessToken, response.refreshToken);
          SessionTrace(true, Some(info), Ok(info))
      case FatalAllowAccess => SessionTrace(false, None, Err(AllowAccess))
      case FatalRunAuth => SessionTrace(false, None, Err(RunAuth))
  }

  /** `get_authed_client`: load, build the client, probe once, and refresh at
      most once. The probe is not repeated after a refresh. */
  method GetAuthedClient(store: Store, readable: bool, probe: ProbeResult, response: RefreshResponse,
                         storeAccepts: bool) returns (r: Result<Client>)
    modifies store
    ensures var t := SessionCheck(if readable then Ok(old(store.Stored())) else Err(ConfigLoadFailed),
                                  probe, response, storeAccepts);
            && (r.Ok? <==> t.outcome.Ok?)
            && (r.Err? ==> r.error == t.outcome.error)
            && (r.Ok? ==> fresh(r.value) && r.value.Credentials() == t.outcome.value
                          && r.value.refreshCalls == if t.refreshed then 1 else 0)
            && store.file == if t.saved.Some? then t.saved else old(store.file)
  {
    var loaded := store.Load(readable);
    if loaded.Err? {
      return Err(loaded.error);
    }
    var cfg := new Config(loaded.value);
    var client := new Client(cfg.Value());
    match Classify(probe)
    case Proceed =>
      r := Ok(client);
    case RefreshOnce =>
      var o := RefreshClient(client, cfg, store, response, storeAccepts);
      r := if o.Pass? then Ok(client) else Err(o.error);
    case FatalAllowAccess =>
      r := Err(AllowAccess);
    case FatalRunAuth =>
      r := Err(RunAuth);
  }

  // ---------------------------------------------------------------------
  // The redirect callback (section 4.1.2 of RFC 6749)
  // ---------------------------------------------------------------------

  /** `BufReader::read_line` into an empty buffer: everything up to and including
      the first line feed, or all of the data when there is none. */
  function ReadLine(data: string): (line: string)
    ensures line <= data
    ensures forall i :: 0 <= i < |line| - 1 ==> line[i] != '\n'
    ensures line == data || (line != [] && line[|line| - 1] == '\n')
  {
    if data == [] then []
    else if data[0] == '\n' then ['\n']
    else [data[0]] + ReadLine(data[1..])
  }

  lemma {:induction false} ReadLineOf(line: string, rest: string)
    requires forall i :: 0 <= i < |line| ==> line[i] != '\n'
    ensures ReadLine(line + "\n" + rest) == line + "\n"
  {
    if line != [] {
      assert (line + "\n" + rest)[1..] == line[1..] + "\n" + rest;
      ReadLineOf(line[1..], rest);
    } else {
      assert line + "\n" + rest == "\n" + rest;
    }
  }

  /** The longest prefix without whitespace. */
  function Word(s: string): (w: string)
    ensures w <= s && NoWhitespace(w)
    ensures |w| < |s| ==> IsWhitespace(s[|w|])
  {
    if s != [] && !IsWhitespace(s[0]) then [s[0]] + Word(s[1..]) else []
  }

  /** `str::split_whitespace`: the maximal runs of non-whitespace, in order. */
  function Fields(s: string): (fs: seq<string>)
    ensures forall i :: 0 <= i < |fs| ==> fs[i] != [] && NoWhitespace(fs[i])
    decreases |s|
  {
    if s == [] then []
    else if IsWhitespace(s[0]) then Fields(s[1..])
    else
      var w := Word(s);
      assert w != [] by { assert |w| < |s| ==> IsWhitespace(s[|w|]); }
      [w] + Fields(s[|w|..])
  }

  lemma {:induction false} WordOf(w: string, rest: string)
    requires NoWhitespace(w)
    requires rest == [] || IsWhitespace(rest[0])
    ensures Word(w + rest) == w
  {
    if w != [] {
      assert (w + rest)[1..] == w[1..] + rest;
      WordOf(w[1..], rest);
    } else {
      assert w + rest == rest;
    }
  }

  lemma {:induction false} FieldsAfterWhitespace(ws: string, s: string)
    requires AllWhitespace(ws)
    ensures Fields(ws + s) == Fields(s)
  {
    if ws != [] {
      assert (ws + s)[1..] == ws[1..] + s;
      FieldsAfterWhitespace(ws[1..], s);
    } else {
      assert ws + s == s;
    }
  }

  lemma {:induction false} FieldsOfWord(w: string, rest: string)
    requires w != [] && NoWhitespace(w)
    requires rest == [] || IsWhitespace(rest[0])
    ensures Fields(w + rest) == [w] + Fields(rest)
  {
    WordOf(w, rest);
    assert (w + rest)[|w|..] == rest;
  }

  /** The request-target of a request-line: the second whitespace-separated
      token (`split_whitespace().nth(1)`), if any. */
  function RequestTarget(line: string): (t: Option<string>)
    ensures t.None? <==> |Fields(line)| < 2
    ensures t.Some? ==> t.value != [] && NoWhitespace(t.value)
  {
    var fs := Fields(line);
    if |fs| < 2 then None else Some(fs[1])
  }

  /** Words separated by single spaces. */
  function Join(ws: seq<string>): string
    requires |ws| > 0
  {
    if |ws| == 1 then ws[0] else ws[0] + " " + Join(ws[1..])
  }

  lemma SpaceThen(s: string)
    ensures Fields(" " + s) == Fields(s)
  {
  }

  /** The first word, then a space, then the rest of the joined words. */
  lemma JoinCons(ws: seq<string>, eol: string)
    requires |ws| > 1
    ensures Join(ws) + eol == ws[0] + (" " + (Join(ws[1..]) + eol))
  {
  }

  lemma TailTokens(ws: seq<string>)
    requires |ws| > 1
    requires forall i :: 0 <= i < |ws| ==> ws[i] != [] && NoWhitespace(ws[i])
    ensures forall i :: 0 <= i < |ws[1..]| ==> ws[1..][i] != [] && NoWhitespace(ws[1..][i])
  {
  }

  /** Splitting words joined by spaces, followed by trailing whitespace, gives
      the words back. */
  lemma {:induction false} FieldsOfJoin(ws: seq<string>, eol: string)
    requires |ws| > 0
    requires forall i :: 0 <= i < |ws| ==> ws[i] != [] && NoWhitespace(ws[i])
    requires AllWhitespace(eol)
    ensures Fields(Join(ws) + eol) == ws
  {
    var w := ws[0];
    assert w != [] && NoWhitespace(w);
    if |ws| == 1 {
      FieldsAfterWhitespace(eol, []);
      assert eol + [] == eol;
      FieldsOfWord(w, eol);
      assert [w] + [] == ws;
    } else {
      var rest := Join(ws[1..]) + eol;
      TailTokens(ws);
      FieldsOfJoin(ws[1..], eol);
      assert IsWhitespace((" " + rest)[0]);
      FieldsOfWord(w, " " + rest);
      SpaceThen(rest);
      JoinCons(ws, eol);
      assert [w] + ws[1..] == ws;
    }
  }

  /** On an HTTP/1.1 request-line, method SP request-target SP version followed
      by its line terminator, the target is what is found. */
  lemma RequestTargetOfRequestLine(method_: string, target: string, version: string, eol: string)
    requires method_ != [] && NoWhitespace(method_)
    requires target != [] && NoWhitespace(target)
    requires version != [] && NoWhitespace(version)
    requires AllWhitespace(eol)
    ensures RequestTarget(method_ + " " + target + " " + version + eol) == Some(target)
  {
    var ws := [method_, target, version];
    assert ws[1..] == [target, version] && ws[1..][1..] == [version];
    assert Join(ws[1..][1..]) == version;
    assert Join(ws[1..]) == target + " " + version;
    assert Join(ws) == method_ + " " + (target + " " + version);
    assert method_ + " " + target + " " + version + eol == Join(ws) + eol;
    FieldsOfJoin(ws, eol);
  }

  /** One decoded pair of a URL's query. */
  datatype QueryPair = QueryPair(key: string, value: string)

  const CodeKey := "code"
  const StateKey := "state"

  /** `query_pairs().find(..)`: the value of the first pair with this key. */
  function FirstValue(pairs: seq<QueryPair>, key: string): (v: Option<string>)
    ensures v.None? <==> forall i :: 0 <= i < |pairs| ==> pairs[i].key != key
    ensures v.Some? ==> exists i :: 0 <= i < |pairs| && pairs[i] == QueryPair(key, v.value)
                                    && forall j :: 0 <= j < i ==> pairs[j].key != key
  {
    if pairs == [] then None
    else if pairs[0].key == key then Some(pairs[0].value)
    else
      var v := FirstValue(pairs[1..], key);
      assert v.Some? ==> exists i :: 0 <= i < |pairs| && pairs[i] == QueryPair(key, v.value)
                                     && forall j :: 0 <= j < i ==> pairs[j].key != key by {
        if v.Some? {
          var i :| 0 <= i < |pairs[1..]| && pairs[1..][i] == QueryPair(key, v.value)
                   && forall j :: 0 <= j < i ==> pairs[1..][j].key != key;
          assert pairs[i + 1] == QueryPair(key, v.value);
          assert forall j :: 0 <= j < i + 1 ==> pairs[j].key != key by {
            forall j | 0 <= j < i + 1 ensures pairs[j].key != key {
              if j > 0 { assert pairs[j] == pairs[1..][j - 1]; }
            }
          }
        }
      }
      v
  }

  /** The pairs whose key is not `key`, in order. */
  function WithoutKey(pairs: seq<QueryPair>, key: string): (r: seq<QueryPair>)
    ensures forall i :: 0 <= i < |r| ==> r[i].key != key && r[i] in pairs
  {
    if pairs == [] then []
    else if pairs[0].key == key then WithoutKey(pairs[1..], key)
    else [pairs[0]] + WithoutKey(pairs[1..], key)
  }

  /** The code found does not depend on the pairs of any other key; in
      particular the `state` pairs, whatever they hold, are never consulted. */
  lemma {:induction false} FirstValueIgnoresOtherKeys(pairs: seq<QueryPair>, key: string, other: string)
    requires key != other
    ensures FirstValue(WithoutKey(pairs, other), key) == FirstValue(pairs, key)
  {
    if pairs != [] {
      FirstValueIgnoresOtherKeys(pairs[1..], key, other);
      if pairs[0].key != other {
        assert ([pairs[0]] + WithoutKey(pairs[1..], other))[1..] == WithoutKey(pairs[1..], other);
      }
    }
  }

  lemma CodeIgnoresState(pairs: seq<QueryPair>)
    ensures FirstValue(WithoutKey(pairs, StateKey), CodeKey) == FirstValue(pairs, CodeKey)
  {
    FirstValueIgnoresOtherKeys(pairs, CodeKey, StateKey);
  }

  const Localhost := "http://localhost"

  /** The query of the redirect: the request-line read from the connection, its
      target, the URL `http://localhost` + target parsed by `parseUrl`. */
  function CallbackQuery(request: Option<string>, parseUrl: string -> Option<seq<QueryPair>>)
    : (r: Result<seq<QueryPair>>)
    ensures request.None? <==> r == Err(ReadRequestFailed)
    ensures r == Err(NoRequestTarget) <==> request.Some? && |Fields(ReadLine(request.value))| < 2
    ensures r.Ok? ==> exists target :: RequestTarget(ReadLine(request.value)) == Some(target)
                                       && parseUrl(Localhost + target) == Some(r.value)
    ensures r.Err? ==> r.error in {ReadRequestFailed, NoRequestTarget, BadRedirectUrl}
  {
    if request.None? then Err(ReadRequestFailed)
    else
      match RequestTarget(ReadLine(request.value))
      case None => Err(NoRequestTarget)
      case Some(target) =>
        match parseUrl(Localhost + target)
        case None => Err(BadRedirectUrl)
        case Some(pairs) => Ok(pairs)
  }

  /** The authorization code of the redirect: the value of the query's first
      `code` pair. The `state` pairs are not looked at. */
  function CallbackCode(request: Option<string>, parseUrl: string -> Option<seq<QueryPair>>)
    : (r: Result<string>)
    ensures CallbackQuery(request, parseUrl).Err? ==> r == Err(CallbackQuery(request, parseUrl).error)
    ensures CallbackQuery(request, parseUrl).Ok? ==>
              var pairs := CallbackQuery(request, parseUrl).value;
              && (r == Err(NoCode) <==> forall i :: 0 <= i < |pairs| ==> pairs[i].key != CodeKey)
              && (r.Ok? ==> exists i :: 0 <= i < |pairs| && pairs[i] == QueryPair(CodeKey, r.value)
                                        && forall j :: 0 <= j < i ==> pairs[j].key != CodeKey)
  {
    match CallbackQuery(request, parseUrl)
    case Err(e) => Err(e)
    case Ok(pairs) =>
      match FirstValue(pairs, CodeKey)
      case None => Err(NoCode)
      case Some(code) => Ok(code)
  }

  // ---------------------------------------------------------------------
  // The reply to the browser
  // ---------------------------------------------------------------------

  const Message := "Go back to the terminal"
  const StatusLine := "HTTP/1.1 200 OK\r\n"
  const LengthField := "content-length: "

  /** A response as a client reads it: the declared `content-length` and the
      body that follows the empty line. */
  datatype Framing = Framing(declaredLength: nat, body: string)

  /** Reads a response of the shape the listener writes: the status line, one
      `content-length` field with its decimal value, an empty line, the body. */
  function ParseResponse(r: string): Option<Framing> {
    var head := StatusLine + LengthField;
    if |r| < |head| || r[..|head|] != head then None
    else
      var rest := r[|head|..];
      var digits := DigitPrefix(rest);
      var after := rest[|digits|..];
      if digits == [] || |after| < 4 || after[..4] != "\r\n\r\n" then None
      else Some(Framing(ValueOf(digits), after[4..]))
  }

  /** The fixed `200 OK` reply carrying `body`. */
  function Response(body: string): string {
    StatusLine + LengthField + Decimal(Utf8Length(body)) + "\r\n\r\n" + body
  }

  /** The reply's declared length is the body's length in bytes (`str::len`),
      as section 8.6 of RFC 9110 asks, and the body read back is the body
      written. */
  lemma ResponseFraming(body: string)
    ensures ParseResponse(Response(body)) == Some(Framing(Utf8Length(body), body))
  {
    var d := Decimal(Utf8Length(body));
    var r := Response(body);
    var head := StatusLine + LengthField;
    assert r[..|head|] == head;
    assert r[|head|..] == d + ("\r\n\r\n" + body);
    DigitPrefixOf(d, "\r\n\r\n" + body);
    ValueOfDecimal(Utf8Length(body));
    assert (d + ("\r\n\r\n" + body))[|d|..] == "\r\n\r\n" + body;
  }

  /** `message.len()` is 23. */
  lemma MessageLength()
    ensures Utf8Length(Message) == 23
  {
    assert IsAscii(Message) by {
      forall i | 0 <= i < |Message| ensures Message[i] < '\U{80}' {
      }
    }
    AsciiUtf8Length(Message);
  }

  lemma DecimalOfMessageLength()
    ensures Decimal(23) == "23"
  {
    DecimalOfTwoDigits(23);
  }

  /** The reply written to the browser, byte for byte. */
  lemma ReplyText()
    ensures Response(Message) == StatusLine + LengthField + "23" + "\r\n\r\n" + Message
  {
    MessageLength();
    DecimalOfMessageLength();
  }

  // ---------------------------------------------------------------------
  // do_oauth: one accepted connection, the reply, the code exchange
  // ---------------------------------------------------------------------

  /** The token endpoint's answer to the code exchange. */
  datatype TokenResponse = TokenIssued(accessToken: string, refreshToken: Option<string>) | TokenRejected

  /** One `listener.accept()`: failed, or a connection whose data is `None` when
      reading the request line fails. */
  datatype Accept = AcceptFailed | Accepted(request: Option<string>)

  /** What the listener observably did: the body of the reply it wrote (the
      bytes written are `Response` of that body), the code it exchanged, and the
      record it produced. */
  datatype OauthRun = OauthRun(replyBody: Option<string>, exchangedCode: Option<string>, outcome: Result<OauthInfo>)

  /** The body of the accept loop once the callback has been read: `callback`
      is the code found in the redirect (`CallbackCode`) or why none was. */
  function HandleConnection(info: OauthInfo, callback: Result<string>, writeOk: bool,
                            exchange: string -> TokenResponse): (run: OauthRun)
    ensures callback.Err? ==> run == OauthRun(None, None, Err(callback.error))
    ensures run.exchangedCode.Some? ==>
              callback == Ok(run.exchangedCode.value) && run.replyBody == Some(Message)
    ensures callback.Ok? ==> (run.exchangedCode.Some? <==> writeOk)
    ensures run.exchangedCode.Some? ==>
              var token := exchange(run.exchangedCode.value);
              run.outcome.Ok? <==> token.TokenIssued? && token.refreshToken.Some?
    ensures run.outcome.Ok? ==>
              && run.exchangedCode.Some?
              && SameClient(run.outcome.value, info)
              && exchange(run.exchangedCode.value)
                 == TokenIssued(run.outcome.value.accessToken, Some(run.outcome.value.refreshToken))
  {
    match callback
    case Err(e) => OauthRun(None, None, Err(e))
    case Ok(code) =>
      if !writeOk then OauthRun(None, None, Err(ReplyFailed))
      else
        var reply := Some(Message);
        match exchange(code)
        case TokenRejected => OauthRun(reply, Some(code), Err(AuthorisingFailed))
        case TokenIssued(access, refresh) =>
          if refresh.None? then OauthRun(reply, Some(code), Err(NoRefreshToken))
          else OauthRun(reply, Some(code), Ok(OauthInfo(access, info.clientId, info.clientSecret, refresh.value)))
  }

  /** The index of the connection the accept loop handles: the first accept that
      succeeds. */
  function FirstAccepted(attempts: seq<Accept>): (k: Option<nat>)
    ensures k.None? <==> forall i :: 0 <= i < |attempts| ==> attempts[i].AcceptFailed?
    ensures k.Some? ==> k.value < |attempts| && attempts[k.value].Accepted?
                        && forall j :: 0 <= j < k.value ==> attempts[j].AcceptFailed?
  {
    if attempts == [] then None
    else if attempts[0].Accepted? then Some(0)
    else
      match FirstAccepted(attempts[1..])
      case None => None
      case Some(k) => Some(k + 1)
  }

  /** `do_oauth` from the bind onwards, over the results of successive accepts.
      Failed accepts are skipped; the first accepted connection is the only one
      handled. When every supplied accept fails the source would still be
      waiting, which the model reports as `NoConnection`. */
  method DoOauth(info: OauthInfo, bindOk: bool, attempts: seq<Accept>,
                 parseUrl: string -> Option<seq<QueryPair>>, writeOk: bool,
                 exchange: string -> TokenResponse) returns (run: OauthRun)
    ensures !bindOk ==> run == OauthRun(None, None, Err(BindFailed))
    ensures bindOk && FirstAccepted(attempts).None? ==> run == OauthRun(None, None, Err(NoConnection))
    ensures bindOk && FirstAccepted(attempts).Some? ==>
              run == HandleConnection(info, CallbackCode(attempts[FirstAccepted(attempts).value].request, parseUrl),
                                      writeOk, exchange)
  {
    if !bindOk {
      return OauthRun(None, None, Err(BindFailed));
    }
    var i := 0;
    while i < |attempts|
      invariant 0 <= i <= |attempts|
      invariant forall j :: 0 <= j < i ==> attempts[j].AcceptFailed?
    {
      if attempts[i].Accepted? {
        run := HandleConnection(info, CallbackCode(attempts[i].request, parseUrl), writeOk, exchange);
        return;
      }
      i := i + 1;
    }
    run := OauthRun(None, None, Err(NoConnection));
  }

  // ---------------------------------------------------------------------
  // auth: the whole authorization command
  // ---------------------------------------------------------------------

  /** `auth()`: `OauthInfo::new` (load, fill in the client identity, run the
      grant) followed by `save_config`. */
  method Authorize(store: Store, readable: bool, idLine: Option<string>, secretLine: Option<string>,
                   bindOk: bool, attempts: seq<Accept>, parseUrl: string -> Option<seq<QueryPair>>,
                   writeOk: bool, exchange: string -> TokenResponse, storeAccepts: bool)
    returns (o: Outcome)
    modifies store
    ensures var filled := if readable then FilledIdentity(old(store.Stored()), idLine, secretLine)
                          else Err(ConfigLoadFailed);
            && (filled.Err? ==> o == Fail(filled.error))
            && (filled.Ok? && !bindOk ==> o == Fail(BindFailed))
            && (filled.Ok? && bindOk && FirstAccepted(attempts).None? ==> o == Fail(NoConnection))
            && (filled.Ok? && bindOk && FirstAccepted(attempts).Some? ==>
                  var run := HandleConnection(filled.value,
                                              CallbackCode(attempts[FirstAccepted(attempts).value].request, parseUrl),
                                              writeOk, exchange);
                  && (run.outcome.Err? ==> o == Fail(run.outcome.error))
                  && (run.outcome.Ok? && !storeAccepts ==> o == Fail(ConfigStoreFailed))
                  && (run.outcome.Ok? && storeAccepts ==> o == Pass && store.file == Some(run.outcome.value)))
            && (o.Fail? ==> store.file == old(store.file))
  {
    var loaded := store.Load(readable);
    if loaded.Err? {
      return Fail(loaded.error);
    }
    var cfg := new Config(loaded.value);
    var filled := cfg.FillClientIdentity(idLine, secretLine);
    if filled.Fail? {
      return filled;
    }
    var run := DoOauth(cfg.Value(), bindOk, attempts, parseUrl, writeOk, exchange);
    if run.outcome.Err? {
      return Fail(run.outcome.error);
    }
    o := store.Save(run.outcome.value, storeAccepts);
  }

  // ---------------------------------------------------------------------
  // Two end-to-end scenarios
  // ---------------------------------------------------------------------

  /** An entered line loses its line terminator. */
  lemma ScenarioTrim()
    ensures TrimEnd("C\n") == "C" && TrimEnd("S\n") == "S"
  {
  }

  /** First run: nothing stored, the operator enters "C" and "S", the browser's
      redirect carries the code XYZ (whatever its `state`), the exchange issues
      A1/R1; the store then holds A1/R1 with client C/S, and loading it gives
      that record back. */
  method FirstAuthorizationScenario(request: Option<string>, parseUrl: string -> Option<seq<QueryPair>>,
                                    exchange: string -> TokenResponse)
    requires CallbackCode(request, parseUrl) == Ok("XYZ")
    requires exchange("XYZ") == TokenIssued("A1", Some("R1"))
  {
    var store := new Store(None);
    ScenarioTrim();
    var attempts := [AcceptFailed, Accepted(request)];
    assert attempts[1..] == [Accepted(request)];
    assert FirstAccepted(attempts) == Some(1);
    var filled := OauthInfo("", "C", "S", "");
    assert FilledIdentity(store.Stored(), Some("C\n"), Some("S\n")) == Ok(filled);
    assert HandleConnection(filled, Ok("XYZ"), true, exchange).outcome == Ok(OauthInfo("A1", "C", "S", "R1"));
    var o := Authorize(store, true, Some("C\n"), Some("S\n"), true, attempts, parseUrl, true, exchange, true);
    assert store.file == Some(OauthInfo("A1", "C", "S", "R1"));
    var reloaded := store.Load(true);
    assert reloaded == Ok(OauthInfo("A1", "C", "S", "R1"));
  }

  /** Later run: A1/R1 stored, the probe reports expiry, the refresh issues
      A2/R2; the store then holds A2/R2 with the same client identity. */
  method RefreshScenario() {
    var store := new Store(Some(OauthInfo("A1", "C", "S", "R1")));
    var r := GetAuthedClient(store, true, AuthExpired, Refreshed("A2", "R2"), true);
    assert store.file == Some(OauthInfo("A2", "C", "S", "R2"));
    assert r.Ok? && r.value.refreshCalls == 1;
  }
}
