/**
 * The single-sign-on login of `Credential::authenticate_client`: nine HTTP
 * exchanges in a fixed order. Each step checks the status of its response,
 * pulls one artifact out of it (a token, a `Location` header, an inline config
 * blob, or the SAML assertion form) and builds the next request from it.
 *
 * The flow is specified as a step machine: a Stage holds the artifacts the next
 * request needs (the identity-provider stage also keeps the parsed URL from
 * which the step after it builds the login link), `RequestOf` builds that
 * request, and `Next` reads the reply and either advances to the next stage or
 * stops with a LoginError.
 * `Run` drives the machine over the replies, and `AuthenticateClient` is the
 * source's straight-line code with its early returns, proved equal to `Run`.
 *
 * The HTML, JSON and URL parsers are foreign code and come in as `Parsers`.
 * Situations in which the source panics (an `unwrap` on a missing `Location`
 * header, a transport failure of the identity-provider GET, a config blob that
 * cannot be cut out or parsed) are excluded by the precondition `Safe`.
 */
module Login {
  import opened Wrappers
  import opened Text
  import opened Http
  import Scraper

  /** An e-mail address and a password; `Credential::new` is the constructor. */
  datatype Credential = Credential(email: string, password: string)

  /**
   * What the flow reads from a parsed HTML document: for each input name, the
   * `value` of the first `<input>` with that name, and the `action` of the first
   * `<form>`, if there is a form.
   */
  datatype Document = Document(inputs: map<string, string>, formAction: Option<string>)

  /**
   * A parsed inline config blob: for each top-level key, its value when that is
   * a JSON string and None otherwise. A blob that is not a JSON object is empty.
   */
  type Blob = map<string, Option<string>>

  /** The parts of a parsed URL the flow uses. */
  datatype Url = Url(host: Option<string>, path: string)

  /** The foreign parsers: `scraper`'s HTML parser, `serde_json`, and the URL parser of the HTTP client. */
  datatype Parsers = Parsers(
    html: seq<byte> -> Document,
    json: seq<byte> -> Option<Blob>,
    url: string -> Option<Url>)

  /** Why a login attempt stops. */
  datatype LoginError =
    | Transport             // the exchange failed (`send()?`)
    | NotOk                 // "Should have received 200 OK, but did not."
    | NotRedirected         // "Request should have been redirected, but was not."
    | NoAuthenticityToken   // "Could not find the authenticity token."
    | NoSamlResponse        // "Could not find the SAMLResponse."
    | NoRelayState          // "Could not find the RelayState."
    | NoForm                // "Could not find the amozoncognito url."
    | LocationNotText       // `to_str()?` on a `Location` header that is not visible ASCII
    | InvalidUrl            // `build()?` on an identity-provider URL that does not parse

  const SignInUrl := "https://api.factorialhr.com/users/sign_in"
  const SamlEntryUrl := "https://api.factorialhr.com/saml_login/new?locale=en-us"
  const SamlLoginUrl := "https://api.factorialhr.com/saml_login?html[class]=form&locale=en-us"
  const KmsiUrl := "https://login.microsoftonline.com/kmsi"

  /** The number of exchanges of a complete login. */
  const StepCount := 9

  // ---------------------------------------------------------------------------
  // Form tables
  // ---------------------------------------------------------------------------

  /** A blob entry as the forms use it: the string value, or "" when the key is absent or not a string. */
  function Field(blob: Blob, key: string): string {
    if key in blob then blob[key].UnwrapOr("") else ""
  }

  /** The four token fields both identity-provider forms carry, taken from the blob. */
  function TokenFields(blob: Blob): seq<(string, string)> {
    [ ("canary", Field(blob, "canary")),
      ("ctx", Field(blob, "sCtx")),
      ("hgprequestid", Field(blob, "sessionId")),
      ("flowToken", Field(blob, "sFT")) ]
  }

  /** The constant fields of the credential form, replayed verbatim. */
  const CredentialConstants: seq<(string, string)> :=
    [ ("i19", "4564"), ("i13", "0"), ("type", "11"), ("ps", "2"), ("NewUser", "1"),
      ("fspost", "0"), ("i21", "0"), ("CookieDisclosure", "0"), ("IsFidoSupported", "1"),
      ("isSignupPost", "0"), ("Irt", ""), ("IrtPartition", ""), ("hisRegion", ""),
      ("hisScaleUnit", ""), ("psRNGCDefaultType", ""), ("psRNGCEntropy", ""),
      ("psRNGCSLK", ""), ("PPSX", "") ]

  /** The constant fields of the keep-me-signed-in form that follow the token fields. */
  const KmsiConstants: seq<(string, string)> :=
    [ ("i19", "2456"), ("type", "28"), ("DontShowAgain", "true") ]

  function EmailFormFields(token: string, email: string): seq<(string, string)> {
    [ ("authenticity_token", token),
      ("return_host", "api.factorial.com"),
      ("email", email),
      ("commit", "Sign+in+with+SAML+SSO") ]
  }

  function CredentialFields(cred: Credential, blob: Blob): seq<(string, string)> {
    [("login", cred.email), ("loginfmt", cred.email), ("passwd", cred.password)]
    + TokenFields(blob) + CredentialConstants
  }

  /** The keep-me-signed-in form; the field name `loginOtions` is spelled as the source spells it. */
  function KmsiFields(blob: Blob): seq<(string, string)> {
    [("loginOtions", "1")] + TokenFields(blob) + KmsiConstants
  }

  function AssertionFields(samlResponse: string, relayState: string): seq<(string, string)> {
    [("SAMLResponse", samlResponse), ("RelayState", relayState)]
  }

  /** The value of the first field called `name`, if any. */
  function Lookup(fields: seq<(string, string)>, name: string): Option<string> {
    if fields == [] then None
    else if fields[0].0 == name then Some(fields[0].1)
    else Lookup(fields[1..], name)
  }

  // ---------------------------------------------------------------------------
  // The login link: the identity-provider URL with `saml2` replaced by `login`
  // ---------------------------------------------------------------------------

  /** The scheme `https://`, the URL's host or nothing, and its path with every `saml2` replaced by `login`. */
  function LoginLink(u: Url): string {
    "https://" + u.host.UnwrapOr("") + Replace(u.path, "saml2", "login")
  }

  /** If the rewritten path starts with a proper suffix `w` of "saml2", the original path does too. */
  lemma {:induction false} RewriteKeepsSuffixPrefix(t: string, w: string)
    requires w in {"aml2", "ml2", "l2", "2"}
    ensures var r := Replace(t, "saml2", "login");
            |r| >= |w| && r[..|w|] == w ==> |t| >= |w| && t[..|w|] == w
    decreases |t|
  {
    var r := Replace(t, "saml2", "login");
    if |t| >= 5 && t[..5] != "saml2" {
      var r' := Replace(t[1..], "saml2", "login");
      assert r == [t[0]] + r';
      if |w| > 1 && |r| >= |w| && r[..|w|] == w {
        assert r'[..|w| - 1] == r[1..|w|];
        RewriteKeepsSuffixPrefix(t[1..], w[1..]);
        assert t[..|w|] == [t[0]] + t[1..][..|w| - 1];
      }
    } else if |t| >= 5 {
      assert r == "login" + Replace(t[5..], "saml2", "login");
      assert r[..2] == "lo";
    }
  }

  /** The rewrite leaves no `saml2` behind. */
  lemma {:induction false} RewriteRemovesSaml2(path: string)
    ensures !Contains(Replace(path, "saml2", "login"), "saml2")
    decreases |path|
  {
    var r := Replace(path, "saml2", "login");
    if |path| >= 5 {
      if path[..5] == "saml2" {
        var r' := Replace(path[5..], "saml2", "login");
        RewriteRemovesSaml2(path[5..]);
        assert r == "login" + r';
        forall i: nat | i <= |r| ensures !OccursAt(r, "saml2", i) {
          if i < 5 {
            assert r[i] != 's';
            assert i + 5 <= |r| ==> r[i..i + 5][0] == r[i];
          } else {
            assert !OccursAt(r', "saml2", i - 5);
            assert i + 5 <= |r| ==> r[i..i + 5] == r'[i - 5..i];
          }
        }
      } else {
        var r' := Replace(path[1..], "saml2", "login");
        RewriteRemovesSaml2(path[1..]);
        assert r == [path[0]] + r';
        forall i: nat | i <= |r| ensures !OccursAt(r, "saml2", i) {
          if i == 0 {
            RewriteKeepsSuffixPrefix(path[1..], "aml2");
            assert |r| >= 5 ==> r[1..5] == r'[..4];
            assert path[..5] == [path[0]] + path[1..][..4];
          } else {
            assert !OccursAt(r', "saml2", i - 1);
            assert i + 5 <= |r| ==> r[i..i + 5] == r'[i - 1..i + 4];
          }
        }
      }
    }
  }

  /** The login link is `https://`, the host, and the path with every `saml2` rewritten; same length as the path. */
  lemma LoginLinkShape(u: Url)
    ensures var rest := LoginLink(u)[8 + |u.host.UnwrapOr("")|..];
            LoginLink(u)[..8] == "https://" &&
            LoginLink(u)[8..8 + |u.host.UnwrapOr("")|] == u.host.UnwrapOr("") &&
            rest == Replace(u.path, "saml2", "login") &&
            |rest| == |u.path| && !Contains(rest, "saml2")
    ensures !Contains(u.path, "saml2") ==> LoginLink(u) == "https://" + u.host.UnwrapOr("") + u.path
  {
    ReplaceSameLength(u.path, "saml2", "login");
    RewriteRemovesSaml2(u.path);
    if !Contains(u.path, "saml2") {
      ReplaceAbsent(u.path, "saml2", "login");
    }
  }

  // ---------------------------------------------------------------------------
  // The step machine
  // ---------------------------------------------------------------------------

  /** Where the flow stands, with the artifacts the next request is built from. */
  datatype Stage =
    | SignIn                                         // 1: GET the sign-in page
    | SamlEntry                                      // 2: GET the SSO entry
    | EmailForm(token: string)                       // 3: POST the e-mail form
    | FollowRedirect(target: string)                 // 4: GET the first redirect
    | IdpLogin(target: string, url: Url)             // 5: GET the identity provider's login
    | Credentials(link: string, blob: Blob)          // 6: POST the credentials
    | Kmsi(blob: Blob)                               // 7: POST keep-me-signed-in
    | Assertion(action: string, samlResponse: string, relayState: string)  // 8: POST the assertion
    | Finalize(target: string)                       // 9: GET the final redirect
    | Done
  {
    function Number(): nat {
      match this
      case SignIn => 1
      case SamlEntry => 2
      case EmailForm(_) => 3
      case FollowRedirect(_) => 4
      case IdpLogin(_, _) => 5
      case Credentials(_, _) => 6
      case Kmsi(_) => 7
      case Assertion(_, _, _) => 8
      case Finalize(_) => 9
      case Done => 10
    }

    /** The number of exchanges still to come. */
    function Remaining(): nat {
      10 - Number()
    }
  }

  /** The request a stage issues. */
  function RequestOf(cred: Credential, st: Stage): Request
    requires !st.Done?
  {
    match st
    case SignIn => GetRequest(SignInUrl)
    case SamlEntry => GetRequest(SamlEntryUrl)
    case EmailForm(token) => FormPost(SamlLoginUrl, EmailFormFields(token, cred.email))
    case FollowRedirect(target) => GetRequest(target)
    case IdpLogin(target, _) => GetRequest(target)
    case Credentials(link, blob) => FormPost(link, CredentialFields(cred, blob))
    case Kmsi(blob) => FormPost(KmsiUrl, KmsiFields(blob))
    case Assertion(action, s, r) => FormPost(action, AssertionFields(s, r))
    case Finalize(target) => GetRequest(target)
  }

  datatype Move = Advance(next: Stage) | Stop(error: LoginError)

  /** The config blob of a response body, cut out and parsed. */
  function BlobIn(p: Parsers, text: seq<byte>): Option<Blob> {
    if Scraper.Extractable(text) then p.json(Scraper.ConfigBlob(text)) else None
  }

  /** The step at `st` does not panic on `reply`. */
  predicate Defined(p: Parsers, st: Stage, reply: Exchange) {
    match st
    case EmailForm(_) | FollowRedirect(_) | Assertion(_, _, _) =>
      reply.Delivered? && reply.response.status == FOUND ==> reply.response.location.Some?
    case IdpLogin(_, _) =>
      reply.Delivered? && BlobIn(p, reply.response.text).Some?
    case Credentials(_, _) =>
      reply.Delivered? && reply.response.status == OK ==> BlobIn(p, reply.response.text).Some?
    case _ => true
  }

  /** A `Location` header turned into the next target, or the error of `to_str()?`. */
  function Redirect(r: Response): Result<string, LoginError>
    requires r.location.Some?
  {
    match HeaderText(r.location.value)
    case None => Err(LocationNotText)
    case Some(t) => Ok(t)
  }

  /** One step: check the reply to the request of `st` and extract what the next request needs. */
  function Next(p: Parsers, st: Stage, reply: Exchange): (m: Move)
    requires !st.Done? && Defined(p, st, reply)
    ensures m.Advance? ==> m.next.Number() == st.Number() + 1
  {
    if reply.TransportFailed? then Stop(Transport)
    else
      var r := reply.response;
      match st
      case SignIn => Advance(SamlEntry)
      case SamlEntry =>
        if r.status != OK then Stop(NotOk)
        else
          var doc := p.html(r.text);
          if "authenticity_token" !in doc.inputs then Stop(NoAuthenticityToken)
          else Advance(EmailForm(doc.inputs["authenticity_token"]))
      case EmailForm(_) =>
        if r.status != FOUND then Stop(NotRedirected)
        else
          (match Redirect(r)
           case Err(e) => Stop(e)
           case Ok(target) => Advance(FollowRedirect(target)))
      case FollowRedirect(_) =>
        if r.status != FOUND then Stop(NotRedirected)
        else
          (match Redirect(r)
           case Err(e) => Stop(e)
           case Ok(target) =>
             (match p.url(target)
              case None => Stop(InvalidUrl)
              case Some(u) => Advance(IdpLogin(target, u))))
      case IdpLogin(_, u) =>
        Advance(Credentials(LoginLink(u), BlobIn(p, r.text).value))
      case Credentials(_, _) =>
        if r.status != OK then Stop(NotOk)
        else Advance(Kmsi(BlobIn(p, r.text).value))
      case Kmsi(_) =>
        if r.status != OK then Stop(NotOk)
        else
          var doc := p.html(r.text);
          if "SAMLResponse" !in doc.inputs then Stop(NoSamlResponse)
          else if "RelayState" !in doc.inputs then Stop(NoRelayState)
          else if doc.formAction.None? then Stop(NoForm)
          else Advance(Assertion(doc.formAction.value, doc.inputs["SAMLResponse"], doc.inputs["RelayState"]))
      case Assertion(_, _, _) =>
        if r.status != FOUND then Stop(NotRedirected)
        else
          (match Redirect(r)
           case Err(e) => Stop(e)
           case Ok(target) => Advance(Finalize(target)))
      case Finalize(_) => Advance(Done)
  }

  /** No step reached while consuming `replies` from `st` panics. */
  predicate Safe(p: Parsers, st: Stage, replies: seq<Exchange>)
    requires |replies| <= st.Remaining()
    decreases |replies|
  {
    replies == [] ||
    (Defined(p, st, replies[0]) &&
     match Next(p, st, replies[0])
     case Stop(_) => true
     case Advance(s) => Safe(p, s, replies[1..]))
  }

  /** What an attempt leaves behind: the requests issued, in order, and the error it stopped with, if any. */
  datatype Outcome = Outcome(sent: seq<Request>, failure: Option<LoginError>)

  /** Run the machine from `st`: issue the stage's request, read its reply, go on or stop. */
  function Run(cred: Credential, p: Parsers, st: Stage, replies: seq<Exchange>): (o: Outcome)
    requires |replies| == st.Remaining() && Safe(p, st, replies)
    ensures |o.sent| <= |replies|
    ensures !st.Done? ==> |o.sent| >= 1
    ensures o.failure.None? ==> |o.sent| == |replies|
    decreases |replies|
  {
    if st.Done? then Outcome([], None)
    else
      var req := RequestOf(cred, st);
      match Next(p, st, replies[0])
      case Stop(e) => Outcome([req], Some(e))
      case Advance(s) =>
        var rest := Run(cred, p, s, replies[1..]);
        Outcome([req] + rest.sent, rest.failure)
  }

  /** A login attempt, with reply `i` answering request `i`. */
  function Authenticate(cred: Credential, p: Parsers, replies: seq<Exchange>): Outcome
    requires |replies| == StepCount && Safe(p, SignIn, replies)
  {
    Run(cred, p, SignIn, replies)
  }

  /** The stage reached after the first `n` replies, or the error a step among them stopped with. */
  function Walk(p: Parsers, st: Stage, replies: seq<Exchange>, n: nat): Result<Stage, LoginError>
    requires n <= |replies| <= st.Remaining() && Safe(p, st, replies)
    decreases n
  {
    if n == 0 then Ok(st)
    else
      match Next(p, st, replies[0])
      case Stop(e) => Err(e)
      case Advance(s) => Walk(p, s, replies[1..], n - 1)
  }

  // ---------------------------------------------------------------------------
  // What every run does
  // ---------------------------------------------------------------------------

  /** Request `i` is the request of the stage reached after `i` replies: each step builds its request from the stages before. */
  lemma {:induction false} RunIssuesStageRequests(cred: Credential, p: Parsers, st: Stage, replies: seq<Exchange>)
    requires |replies| == st.Remaining() && Safe(p, st, replies)
    ensures var o := Run(cred, p, st, replies);
            forall i :: 0 <= i < |o.sent| ==>
              Walk(p, st, replies, i).Ok? && !Walk(p, st, replies, i).value.Done? &&
              o.sent[i] == RequestOf(cred, Walk(p, st, replies, i).value)
    decreases |replies|
  {
    if !st.Done? {
      var o := Run(cred, p, st, replies);
      match Next(p, st, replies[0])
      case Stop(e) =>
      case Advance(s) =>
        RunIssuesStageRequests(cred, p, s, replies[1..]);
        forall i | 1 <= i < |o.sent|
          ensures Walk(p, st, replies, i) == Walk(p, s, replies[1..], i - 1)
        {
        }
    }
  }

  /**
   * Early exit: an attempt that fails stopped at the step of its last request,
   * every earlier step passed, and nothing was sent afterwards.
   */
  lemma {:induction false} RunStopsAtFirstFailure(cred: Credential, p: Parsers, st: Stage, replies: seq<Exchange>)
    requires |replies| == st.Remaining() && Safe(p, st, replies)
    ensures var o := Run(cred, p, st, replies);
            o.failure.Some? ==>
              1 <= |o.sent| && Walk(p, st, replies, |o.sent| - 1).Ok? &&
              Walk(p, st, replies, |o.sent|) == Err(o.failure.value)
    decreases |replies|
  {
    if !st.Done? {
      match Next(p, st, replies[0])
      case Stop(e) =>
        WalkStops(cred, p, st, e, replies);
      case Advance(s) =>
        RunStopsAtFirstFailure(cred, p, s, replies[1..]);
        var o' := Run(cred, p, s, replies[1..]);
        if o'.failure.Some? {
          var n := |o'.sent|;
          WalkAdvances(p, st, s, replies, n + 1);
          WalkAdvances(p, st, s, replies, n);
        }
    }
  }

  /** A first step that stops sends one request and ends the walk after it. */
  lemma WalkStops(cred: Credential, p: Parsers, st: Stage, e: LoginError, replies: seq<Exchange>)
    requires 1 <= |replies| == st.Remaining() && Safe(p, st, replies)
    requires !st.Done? && Next(p, st, replies[0]) == Stop(e)
    ensures Run(cred, p, st, replies) == Outcome([RequestOf(cred, st)], Some(e))
    ensures Walk(p, st, replies, 0) == Ok(st) && Walk(p, st, replies, 1) == Err(e)
  {
  }

  /** A walk past a passed first step is the walk from the next stage over the remaining replies. */
  lemma WalkAdvances(p: Parsers, st: Stage, s: Stage, replies: seq<Exchange>, n: nat)
    requires 1 <= n <= |replies| == st.Remaining() && Safe(p, st, replies)
    requires !st.Done? && Next(p, st, replies[0]) == Advance(s)
    ensures |replies[1..]| == s.Remaining() && Safe(p, s, replies[1..])
    ensures Walk(p, st, replies, n) == Walk(p, s, replies[1..], n - 1)
  {
  }

  /** An attempt succeeds exactly when the walk over all its replies reaches the end. */
  lemma {:induction false} RunSucceedsIffWalkEnds(cred: Credential, p: Parsers, st: Stage, replies: seq<Exchange>)
    requires |replies| == st.Remaining() && Safe(p, st, replies)
    ensures Run(cred, p, st, replies).failure.None? <==> Walk(p, st, replies, |replies|) == Ok(Done)
    decreases |replies|
  {
    if !st.Done? {
      match Next(p, st, replies[0])
      case Stop(e) =>
      case Advance(s) =>
        RunSucceedsIffWalkEnds(cred, p, s, replies[1..]);
        WalkAdvances(p, st, s, replies, |replies|);
    }
  }

  /** The walk forward, one reply at a time: the stage after `n + 1` replies comes from the stage after `n` and reply `n`. */
  lemma {:induction false} WalkExtend(p: Parsers, st: Stage, replies: seq<Exchange>, n: nat, s: Stage)
    requires n < |replies| <= st.Remaining() && Safe(p, st, replies)
    requires Walk(p, st, replies, n) == Ok(s)
    ensures !s.Done? && Defined(p, s, replies[n])
    ensures Walk(p, st, replies, n + 1) ==
            match Next(p, s, replies[n])
            case Stop(e) => Err(e)
            case Advance(s') => Ok(s')
    decreases n
  {
    if n > 0 {
      match Next(p, st, replies[0])
      case Stop(e) =>
      case Advance(s1) =>
        WalkExtend(p, s1, replies[1..], n - 1, s);
    }
  }

  /** Once a step has stopped the walk, it stays stopped. */
  lemma {:induction false} WalkOkPrefix(p: Parsers, st: Stage, replies: seq<Exchange>, m: nat, n: nat)
    requires m <= n <= |replies| <= st.Remaining() && Safe(p, st, replies)
    requires Walk(p, st, replies, n).Ok?
    ensures Walk(p, st, replies, m).Ok?
    decreases m
  {
    if m > 0 {
      match Next(p, st, replies[0])
      case Stop(e) =>
      case Advance(s1) =>
        WalkOkPrefix(p, s1, replies[1..], m - 1, n - 1);
    }
  }

  // ---------------------------------------------------------------------------
  // What the nine steps read from their replies
  // ---------------------------------------------------------------------------

  /** The reply was delivered with this status. */
  predicate Answered(x: Exchange, status: int) {
    x.Delivered? && x.response.status == status
  }

  /** The reply is a 302 Found whose `Location` header is visible ASCII. */
  predicate RedirectsWithText(x: Exchange) {
    Answered(x, FOUND) && x.response.location.Some? && HeaderText(x.response.location.value).Some?
  }

  /** The `Location` of a reply as text, "" when there is none. */
  function LocationText(x: Exchange): string {
    if x.Delivered? && x.response.location.Some? then HeaderText(x.response.location.value).UnwrapOr("") else ""
  }

  /** The `value` of the first input called `name` in the reply's document, "" when there is none. */
  function InputValue(p: Parsers, x: Exchange, name: string): string {
    if x.Delivered? && name in p.html(x.response.text).inputs then p.html(x.response.text).inputs[name] else ""
  }

  function FormActionOf(p: Parsers, x: Exchange): string {
    if x.Delivered? then p.html(x.response.text).formAction.UnwrapOr("") else ""
  }

  function BlobOf(p: Parsers, x: Exchange): Blob {
    if x.Delivered? then BlobIn(p, x.response.text).UnwrapOr(map[]) else map[]
  }

  function IdpUrlOf(p: Parsers, x: Exchange): Url {
    p.url(LocationText(x)).UnwrapOr(Url(None, ""))
  }

  /**
   * The stage after `k` replies when no step has stopped the flow: a table of
   * where each artifact comes from. Every artifact is read from one reply, the
   * one just before; only the credential link reaches one reply further back,
   * to the identity-provider URL that the previous request was sent to.
   */
  function FlowStage(p: Parsers, replies: seq<Exchange>, k: nat): (st: Stage)
    requires k <= StepCount && |replies| == StepCount
    ensures st.Number() == k + 1
  {
    match k
    case 0 => SignIn
    case 1 => SamlEntry
    case 2 => EmailForm(InputValue(p, replies[1], "authenticity_token"))
    case 3 => FollowRedirect(LocationText(replies[2]))
    case 4 => IdpLogin(LocationText(replies[3]), IdpUrlOf(p, replies[3]))
    case 5 => Credentials(LoginLink(IdpUrlOf(p, replies[3])), BlobOf(p, replies[4]))
    case 6 => Kmsi(BlobOf(p, replies[5]))
    case 7 => Assertion(FormActionOf(p, replies[6]),
                        InputValue(p, replies[6], "SAMLResponse"), InputValue(p, replies[6], "RelayState"))
    case 8 => Finalize(LocationText(replies[7]))
    case _ => Done
  }

  /** The machine walks through exactly the stages of the table. */
  lemma {:induction false} WalkFollowsFlowStage(p: Parsers, replies: seq<Exchange>, k: nat)
    requires k <= StepCount && |replies| == StepCount && Safe(p, SignIn, replies)
    ensures Walk(p, SignIn, replies, k).Ok? ==> Walk(p, SignIn, replies, k).value == FlowStage(p, replies, k)
  {
    if k > 0 && Walk(p, SignIn, replies, k).Ok? {
      WalkOkPrefix(p, SignIn, replies, k - 1, k);
      WalkFollowsFlowStage(p, replies, k - 1);
      WalkExtend(p, SignIn, replies, k - 1, FlowStage(p, replies, k - 1));
    }
  }

  /** Where each request comes from: request `k` is the request of the table's stage `k`. */
  lemma RequestsOfTheFlow(cred: Credential, p: Parsers, replies: seq<Exchange>)
    requires |replies| == StepCount && Safe(p, SignIn, replies)
    ensures var o := Authenticate(cred, p, replies);
            forall k :: 0 <= k < |o.sent| ==> o.sent[k] == RequestOf(cred, FlowStage(p, replies, k))
  {
    var o := Authenticate(cred, p, replies);
    RunIssuesStageRequests(cred, p, SignIn, replies);
    forall k | 0 <= k < |o.sent| ensures o.sent[k] == RequestOf(cred, FlowStage(p, replies, k)) {
      WalkFollowsFlowStage(p, replies, k);
    }
  }

  /** Each table entry is read from the replies named there and from no other reply. */
  lemma FlowStageReadsOnlyEarlierReply(p: Parsers, r1: seq<Exchange>, r2: seq<Exchange>, k: nat)
    requires 1 <= k <= StepCount && |r1| == StepCount && |r2| == StepCount
    requires r1[k - 1] == r2[k - 1]
    requires k == 5 ==> r1[3] == r2[3]
    ensures FlowStage(p, r1, k) == FlowStage(p, r2, k)
  {
  }

  /** The condition under which step `k` (counting from 0) lets the flow go on. */
  predicate Gate(p: Parsers, replies: seq<Exchange>, k: nat)
    requires k < StepCount && |replies| == StepCount
  {
    var x := replies[k];
    match k
    case 0 => x.Delivered?    // the sign-in page: no status check
    case 1 => Answered(x, OK) && "authenticity_token" in p.html(x.response.text).inputs
    case 2 => RedirectsWithText(x)
    case 3 => RedirectsWithText(x) && p.url(LocationText(x)).Some?
    case 4 => x.Delivered?    // the identity-provider login: no status check
    case 5 => Answered(x, OK)
    case 6 => Answered(x, OK) &&
              "SAMLResponse" in p.html(x.response.text).inputs &&
              "RelayState" in p.html(x.response.text).inputs &&
              p.html(x.response.text).formAction.Some?
    case 7 => RedirectsWithText(x)
    case _ => x.Delivered?    // the final GET: no status check
  }

  /** At the stage of the table, step `k` advances exactly when its gate holds. */
  lemma GateDecidesStep(p: Parsers, replies: seq<Exchange>, k: nat)
    requires k < StepCount && |replies| == StepCount
    requires Defined(p, FlowStage(p, replies, k), replies[k])
    ensures Next(p, FlowStage(p, replies, k), replies[k]).Advance? <==> Gate(p, replies, k)
  {
  }

  /** The flow gets through the first `n` steps exactly when their gates all hold. */
  lemma {:induction false} WalkPassesIffGates(p: Parsers, replies: seq<Exchange>, n: nat)
    requires n <= StepCount && |replies| == StepCount && Safe(p, SignIn, replies)
    ensures Walk(p, SignIn, replies, n).Ok? <==> forall k :: 0 <= k < n ==> Gate(p, replies, k)
  {
    if n > 0 {
      WalkPassesIffGates(p, replies, n - 1);
      if Walk(p, SignIn, replies, n - 1).Ok? {
        WalkFollowsFlowStage(p, replies, n - 1);
        WalkExtend(p, SignIn, replies, n - 1, FlowStage(p, replies, n - 1));
        GateDecidesStep(p, replies, n - 1);
      } else if Walk(p, SignIn, replies, n).Ok? {
        WalkOkPrefix(p, SignIn, replies, n - 1, n);
      }
    }
  }

  /**
   * A login succeeds exactly when every gate holds: each status check, each
   * extraction, each `Location` that must be text and the URL that must parse.
   * The statuses of steps 1, 5 and 9 are not looked at.
   */
  lemma AuthenticateSucceedsIff(cred: Credential, p: Parsers, replies: seq<Exchange>)
    requires |replies| == StepCount && Safe(p, SignIn, replies)
    ensures Authenticate(cred, p, replies).failure.None? <==>
            forall k :: 0 <= k < StepCount ==> Gate(p, replies, k)
  {
    RunSucceedsIffWalkEnds(cred, p, SignIn, replies);
    WalkPassesIffGates(p, replies, StepCount);
    if Walk(p, SignIn, replies, StepCount).Ok? {
      WalkFollowsFlowStage(p, replies, StepCount);
    }
  }

  /**
   * A failed login stopped at its last request: all gates before it held, its
   * own gate did not, and it issued exactly one request per step up to that one.
   */
  lemma AuthenticateFailsAtFirstClosedGate(cred: Credential, p: Parsers, replies: seq<Exchange>)
    requires |replies| == StepCount && Safe(p, SignIn, replies)
    ensures var o := Authenticate(cred, p, replies);
            o.failure.Some? ==>
              var n := |o.sent|;
              1 <= n <= StepCount &&
              (forall k :: 0 <= k < n - 1 ==> Gate(p, replies, k)) &&
              !Gate(p, replies, n - 1)
  {
    var o := Run(cred, p, SignIn, replies);
    RunStopsAtFirstFailure(cred, p, SignIn, replies);
    if o.failure.Some? {
      var n := |o.sent|;
      WalkPassesIffGates(p, replies, n - 1);
      WalkPassesIffGates(p, replies, n);
      ClosedGateIsLast(p, replies, n);
    }
  }

  /** When the first `n - 1` gates hold and the first `n` do not, gate `n - 1` is closed. */
  lemma ClosedGateIsLast(p: Parsers, replies: seq<Exchange>, n: nat)
    requires 1 <= n <= StepCount && |replies| == StepCount
    requires forall k :: 0 <= k < n - 1 ==> Gate(p, replies, k)
    requires !forall k :: 0 <= k < n ==> Gate(p, replies, k)
    ensures !Gate(p, replies, n - 1)
  {
    var k :| 0 <= k < n && !Gate(p, replies, k);
  }

  /** The reply `x` with its status replaced. */
  function WithStatus(x: Exchange, status: int): Exchange
    requires x.Delivered?
  {
    Delivered(x.response.(status := status))
  }

  /**
   * The sign-in GET, the identity-provider GET and the final GET are not
   * status-checked: replacing the status of the reply at stage 1, 5 or 9 by any
   * other changes nothing about the attempt.
   */
  lemma {:induction false} RunIgnoresUncheckedStatus(cred: Credential, p: Parsers, st: Stage, replies: seq<Exchange>,
                                                     i: nat, status: int)
    requires |replies| == st.Remaining() && Safe(p, st, replies)
    requires i < |replies| && replies[i].Delivered?
    requires st.Number() + i in {1, 5, 9}
    ensures Safe(p, st, replies[i := WithStatus(replies[i], status)])
    ensures Run(cred, p, st, replies[i := WithStatus(replies[i], status)]) == Run(cred, p, st, replies)
    decreases |replies|
  {
    var changed := replies[i := WithStatus(replies[i], status)];
    if i == 0 {
      assert changed[1..] == replies[1..];
      assert Next(p, st, changed[0]) == Next(p, st, replies[0]);
    } else {
      assert changed[0] == replies[0];
      match Next(p, st, replies[0])
      case Stop(_) =>
      case Advance(s) =>
        RunIgnoresUncheckedStatus(cred, p, s, replies[1..], i - 1, status);
        assert changed[1..] == replies[1..][i - 1 := WithStatus(replies[i], status)];
    }
  }

  lemma UncheckedStatusesDoNotMatter(cred: Credential, p: Parsers, replies: seq<Exchange>, i: nat, status: int)
    requires |replies| == StepCount && Safe(p, SignIn, replies)
    requires i in {0, 4, 8} && replies[i].Delivered?
    ensures Safe(p, SignIn, replies[i := WithStatus(replies[i], status)])
    ensures Authenticate(cred, p, replies[i := WithStatus(replies[i], status)]) == Authenticate(cred, p, replies)
  {
    RunIgnoresUncheckedStatus(cred, p, SignIn, replies, i, status);
  }

  /**
   * A 200 where the e-mail form must be redirected stops the attempt at step 3:
   * nothing is sent to a redirect target.
   */
  lemma EmailFormWithoutRedirectStops(cred: Credential, p: Parsers, replies: seq<Exchange>)
    requires |replies| == StepCount && Safe(p, SignIn, replies)
    requires Gate(p, replies, 0) && Gate(p, replies, 1)
    requires Answered(replies[2], OK)
    ensures Authenticate(cred, p, replies) ==
            Outcome([ GetRequest(SignInUrl), GetRequest(SamlEntryUrl),
                      FormPost(SamlLoginUrl, EmailFormFields(InputValue(p, replies[1], "authenticity_token"), cred.email)) ],
                    Some(NotRedirected))
  {
    var r1 := replies[1..];
    var r2 := r1[1..];
    var token := InputValue(p, replies[1], "authenticity_token");
    assert Next(p, SignIn, replies[0]) == Advance(SamlEntry);
    assert Next(p, SamlEntry, r1[0]) == Advance(EmailForm(token));
    assert Next(p, EmailForm(token), r2[0]) == Stop(NotRedirected);
    var third := FormPost(SamlLoginUrl, EmailFormFields(token, cred.email));
    assert Run(cred, p, EmailForm(token), r2) == Outcome([third], Some(NotRedirected));
    assert Run(cred, p, SamlEntry, r1) == Outcome([GetRequest(SamlEntryUrl), third], Some(NotRedirected));
  }

  // ---------------------------------------------------------------------------
  // The forms
  // ---------------------------------------------------------------------------

  /** A lookup in a concatenation finds the first part's field when it has one. */
  lemma {:induction false} LookupAppend(a: seq<(string, string)>, b: seq<(string, string)>, name: string)
    ensures Lookup(a + b, name) == if Lookup(a, name).Some? then Lookup(a, name) else Lookup(b, name)
    decreases |a|
  {
    if a == [] {
      assert a + b == b;
    } else {
      assert (a + b)[0] == a[0] && (a + b)[1..] == a[1..] + b;
      LookupAppend(a[1..], b, name);
    }
  }

  /**
   * Both identity-provider forms fill `canary`, `ctx`, `hgprequestid` and
   * `flowToken` from the blob keys `canary`, `sCtx`, `sessionId` and `sFT`
   * ("" when a key is absent or not a string); the credential form also carries
   * the e-mail address twice and the password.
   */
  lemma FormsCarryBlobTokens(cred: Credential, blob: Blob)
    ensures var c := CredentialFields(cred, blob);
            && |c| == 25
            && Lookup(c, "login") == Some(cred.email)
            && Lookup(c, "loginfmt") == Some(cred.email)
            && Lookup(c, "passwd") == Some(cred.password)
            && Lookup(c, "canary") == Some(Field(blob, "canary"))
            && Lookup(c, "ctx") == Some(Field(blob, "sCtx"))
            && Lookup(c, "hgprequestid") == Some(Field(blob, "sessionId"))
            && Lookup(c, "flowToken") == Some(Field(blob, "sFT"))
    ensures var k := KmsiFields(blob);
            && |k| == 8
            && Lookup(k, "canary") == Some(Field(blob, "canary"))
            && Lookup(k, "ctx") == Some(Field(blob, "sCtx"))
            && Lookup(k, "hgprequestid") == Some(Field(blob, "sessionId"))
            && Lookup(k, "flowToken") == Some(Field(blob, "sFT"))
  {
    var head: seq<(string, string)> := [("login", cred.email), ("loginfmt", cred.email), ("passwd", cred.password)];
    LookupAt(head, 0, "login");
    LookupAt(head, 1, "loginfmt");
    LookupAt(head, 2, "passwd");
    var t := TokenFields(blob);
    assert CredentialFields(cred, blob) == head + (t + CredentialConstants);
    LookupAppend(head, t + CredentialConstants, "login");
    LookupAppend(head, t + CredentialConstants, "loginfmt");
    LookupAppend(head, t + CredentialConstants, "passwd");
    TokenLookup(cred, blob, 0);
    TokenLookup(cred, blob, 1);
    TokenLookup(cred, blob, 2);
    TokenLookup(cred, blob, 3);
  }

  /** Token field `i` is found in both forms with its blob value. */
  lemma TokenLookup(cred: Credential, blob: Blob, i: nat)
    requires i < 4
    ensures Lookup(CredentialFields(cred, blob), TokenFields(blob)[i].0) == Some(TokenFields(blob)[i].1)
    ensures Lookup(KmsiFields(blob), TokenFields(blob)[i].0) == Some(TokenFields(blob)[i].1)
  {
    var head: seq<(string, string)> := [("login", cred.email), ("loginfmt", cred.email), ("passwd", cred.password)];
    var t := TokenFields(blob);
    var name := t[i].0;
    assert CredentialFields(cred, blob) == head + (t + CredentialConstants);
    assert KmsiFields(blob) == [("loginOtions", "1")] + (t + KmsiConstants);
    LookupAbsent(head, name);
    LookupAbsent([("loginOtions", "1")], name);
    LookupAt(t, i, name);
    LookupAppend(t, CredentialConstants, name);
    LookupAppend(t, KmsiConstants, name);
    LookupAppend(head, t + CredentialConstants, name);
    LookupAppend([("loginOtions", "1")], t + KmsiConstants, name);
  }

  /** No field called `name`: no value. */
  lemma {:induction false} LookupAbsent(fields: seq<(string, string)>, name: string)
    requires forall i :: 0 <= i < |fields| ==> fields[i].0 != name
    ensures Lookup(fields, name) == None
    decreases |fields|
  {
    if fields != [] {
      LookupAbsent(fields[1..], name);
    }
  }

  /** The first field called `name` gives the value. */
  lemma {:induction false} LookupAt(fields: seq<(string, string)>, i: nat, name: string)
    requires i < |fields| && fields[i].0 == name
    requires forall j :: 0 <= j < i ==> fields[j].0 != name
    ensures Lookup(fields, name) == Some(fields[i].1)
    decreases i
  {
    if i > 0 {
      LookupAt(fields[1..], i - 1, name);
    }
  }

  /**
   * Apart from the credentials and the four token fields, every field of the
   * two forms is a constant: two blobs give the same forms except there.
   */
  lemma FormsFixedElsewhere(cred: Credential, b1: Blob, b2: Blob)
    ensures var c1, c2 := CredentialFields(cred, b1), CredentialFields(cred, b2);
            && |c1| == |c2| == 25 && c1[..3] == c2[..3] && c1[7..] == c2[7..]
            && forall i :: 3 <= i < 7 ==> c1[i].0 == c2[i].0
    ensures var k1, k2 := KmsiFields(b1), KmsiFields(b2);
            && |k1| == |k2| == 8 && k1[..1] == k2[..1] && k1[5..] == k2[5..]
            && forall i :: 1 <= i < 5 ==> k1[i].0 == k2[i].0
  {
    var c1, c2 := CredentialFields(cred, b1), CredentialFields(cred, b2);
    assert c1[7..] == CredentialConstants == c2[7..];
    var k1, k2 := KmsiFields(b1), KmsiFields(b2);
    assert k1[5..] == KmsiConstants == k2[5..];
  }

  // ---------------------------------------------------------------------------
  // The source's own code: one straight line with early returns
  // ---------------------------------------------------------------------------

  /** A prefix of requests put before an outcome. */
  function After(prefix: seq<Request>, o: Outcome): Outcome {
    Outcome(prefix + o.sent, o.failure)
  }

  lemma AfterAfter(a: seq<Request>, b: seq<Request>, o: Outcome)
    ensures After(a, After(b, o)) == After(a + b, o)
  {
    assert a + (b + o.sent) == a + b + o.sent;
  }

  /** One turn of the machine at reply `k`, for the straight-line code to follow. */
  lemma Unroll(cred: Credential, p: Parsers, st: Stage, replies: seq<Exchange>, k: nat, prefix: seq<Request>)
    requires !st.Done? && k < |replies| && |replies| - k == st.Remaining() && Safe(p, st, replies[k..])
    ensures Defined(p, st, replies[k])
    ensures Next(p, st, replies[k]).Stop? ==>
              After(prefix, Run(cred, p, st, replies[k..])) ==
              Outcome(prefix + [RequestOf(cred, st)], Some(Next(p, st, replies[k]).error))
    ensures Next(p, st, replies[k]).Advance? ==>
              Safe(p, Next(p, st, replies[k]).next, replies[k + 1..]) &&
              After(prefix, Run(cred, p, st, replies[k..])) ==
              After(prefix + [RequestOf(cred, st)], Run(cred, p, Next(p, st, replies[k]).next, replies[k + 1..]))
  {
    var rs := replies[k..];
    assert rs[0] == replies[k] && rs[1..] == replies[k + 1..];
    match Next(p, st, rs[0])
    case Stop(e) =>
    case Advance(s) =>
      var rest := Run(cred, p, s, rs[1..]);
      assert prefix + ([RequestOf(cred, st)] + rest.sent) == prefix + [RequestOf(cred, st)] + rest.sent;
  }

  /**
   * `Credential::authenticate_client`: the requests it issues, in order, and
   * the error it returns, if any, are those of the step machine. The source's
   * one straight line is cut into four stretches, each proved on its own.
   */
  method AuthenticateClient(cred: Credential, p: Parsers, replies: seq<Exchange>)
    returns (sent: seq<Request>, failure: Option<LoginError>)
    requires |replies| == StepCount && Safe(p, SignIn, replies)
    ensures Outcome(sent, failure) == Authenticate(cred, p, replies)
  {
    var token, target, idp, data, more;
    sent, failure, token := ObtainAuthenticityToken(cred, p, replies);
    if failure.Some? {
      return;
    }
    var rest := replies[2..];
    more, failure, target, idp := FollowToIdentityProvider(cred, p, token, rest);
    ghost var done := sent;
    sent := sent + more;
    if failure.Some? {
      return;
    }
    rest := rest[2..];
    AfterAfter(done, more, Run(cred, p, IdpLogin(target, idp), rest));
    more, failure, data := SubmitCredentials(cred, p, target, idp, rest);
    done := sent;
    sent := sent + more;
    if failure.Some? {
      return;
    }
    rest := rest[2..];
    AfterAfter(done, more, Run(cred, p, Kmsi(data), rest));
    more, failure := ConfirmSession(cred, p, data, rest);
    sent := sent + more;
  }

  /** Steps 1 and 2: open the sign-in page, start the SSO and read the authenticity token. */
  method ObtainAuthenticityToken(cred: Credential, p: Parsers, replies: seq<Exchange>)
    returns (sent: seq<Request>, failure: Option<LoginError>, token: string)
    requires |replies| == 9 && Safe(p, SignIn, replies)
    ensures failure.Some? ==> Outcome(sent, failure) == Run(cred, p, SignIn, replies)
    ensures failure.None? ==>
              |sent| == 2 && Safe(p, EmailForm(token), replies[2..]) &&
              After(sent, Run(cred, p, EmailForm(token), replies[2..])) == Run(cred, p, SignIn, replies)
  {
    ghost var whole := Run(cred, p, SignIn, replies);
    assert whole == After([], whole);
    token := "";

    // The sign-in page sets the first session cookie; only the transport can fail.
    assert replies[0..] == replies;
    Unroll(cred, p, SignIn, replies, 0, []);
    sent := [GetRequest(SignInUrl)];
    if replies[0].TransportFailed? {
      return sent, Some(Transport), token;
    }

    // The SSO entry answers with a form holding the authenticity token.
    Unroll(cred, p, SamlEntry, replies, 1, sent);
    sent := sent + [GetRequest(SamlEntryUrl)];
    if replies[1].TransportFailed? {
      return sent, Some(Transport), token;
    }
    var response := replies[1].response;
    if response.status != OK {
      return sent, Some(NotOk), token;
    }
    var responseBody := p.html(response.text);
    if "authenticity_token" !in responseBody.inputs {
      return sent, Some(NoAuthenticityToken), token;
    }
    token := responseBody.inputs["authenticity_token"];
    assert Next(p, SamlEntry, replies[1]) == Advance(EmailForm(token));
    failure := None;
  }

  /** Steps 3 and 4: post the e-mail form and follow the redirect to the identity provider's URL. */
  method FollowToIdentityProvider(cred: Credential, p: Parsers, token: string, replies: seq<Exchange>)
    returns (sent: seq<Request>, failure: Option<LoginError>, target: string, idp: Url)
    requires |replies| == 7 && Safe(p, EmailForm(token), replies)
    ensures failure.Some? ==> Outcome(sent, failure) == Run(cred, p, EmailForm(token), replies)
    ensures failure.None? ==>
              |sent| == 2 && Safe(p, IdpLogin(target, idp), replies[2..]) &&
              After(sent, Run(cred, p, IdpLogin(target, idp), replies[2..])) == Run(cred, p, EmailForm(token), replies)
  {
    ghost var whole := Run(cred, p, EmailForm(token), replies);
    assert whole == After([], whole);
    target, idp := "", Url(None, "");

    // The e-mail form is answered by a redirect.
    assert replies[0..] == replies;
    Unroll(cred, p, EmailForm(token), replies, 0, []);
    sent := [FormPost(SamlLoginUrl, EmailFormFields(token, cred.email))];
    if replies[0].TransportFailed? {
      return sent, Some(Transport), target, idp;
    }
    var samlLoginResponse := replies[0].response;
    if samlLoginResponse.status != FOUND {
      return sent, Some(NotRedirected), target, idp;
    }
    var redirectUrl := HeaderText(samlLoginResponse.location.value);
    if redirectUrl.None? {
      return sent, Some(LocationNotText), target, idp;
    }

    // Following it is answered by a second redirect, to the identity provider.
    ghost var st := FollowRedirect(redirectUrl.value);
    assert Next(p, EmailForm(token), replies[0]) == Advance(st);
    Unroll(cred, p, st, replies, 1, sent);
    sent := sent + [GetRequest(redirectUrl.value)];
    if replies[1].TransportFailed? {
      return sent, Some(Transport), target, idp;
    }
    var response := replies[1].response;
    if response.status != FOUND {
      return sent, Some(NotRedirected), target, idp;
    }
    redirectUrl := HeaderText(response.location.value);
    if redirectUrl.None? {
      return sent, Some(LocationNotText), target, idp;
    }
    var request := p.url(redirectUrl.value);
    if request.None? {
      return sent, Some(InvalidUrl), target, idp;
    }
    target, idp := redirectUrl.value, request.value;
    assert Next(p, st, replies[1]) == Advance(IdpLogin(target, idp));
    failure := None;
  }

  /** Steps 5 and 6: read the identity provider's config blob and post the credentials. */
  method SubmitCredentials(cred: Credential, p: Parsers, target: string, idp: Url, replies: seq<Exchange>)
    returns (sent: seq<Request>, failure: Option<LoginError>, data: Blob)
    requires |replies| == 5 && Safe(p, IdpLogin(target, idp), replies)
    ensures failure.Some? ==> Outcome(sent, failure) == Run(cred, p, IdpLogin(target, idp), replies)
    ensures failure.None? ==>
              |sent| == 2 && Safe(p, Kmsi(data), replies[2..]) &&
              After(sent, Run(cred, p, Kmsi(data), replies[2..])) == Run(cred, p, IdpLogin(target, idp), replies)
  {
    ghost var whole := Run(cred, p, IdpLogin(target, idp), replies);
    assert whole == After([], whole);

    // The identity provider's login page holds the first config blob.
    assert replies[0..] == replies;
    Unroll(cred, p, IdpLogin(target, idp), replies, 0, []);
    sent := [GetRequest(target)];
    var response := replies[0].response;
    var json := Scraper.ExtractJson(response.text);
    data := p.json(json).value;

    // The credentials go to the login link; the answer holds a fresh blob.
    var samlLoginLink := LoginLink(idp);
    ghost var st := Credentials(samlLoginLink, data);
    assert Next(p, IdpLogin(target, idp), replies[0]) == Advance(st);
    Unroll(cred, p, st, replies, 1, sent);
    sent := sent + [FormPost(samlLoginLink, CredentialFields(cred, data))];
    if replies[1].TransportFailed? {
      return sent, Some(Transport), data;
    }
    var samlRequestResponse := replies[1].response;
    if samlRequestResponse.status != OK {
      return sent, Some(NotOk), data;
    }
    json := Scraper.ExtractJson(samlRequestResponse.text);
    data := p.json(json).value;
    assert Next(p, st, replies[1]) == Advance(Kmsi(data));
    failure := None;
  }

  /** Steps 7 to 9: keep me signed in, post the SAML assertion back, follow the last redirect. */
  method ConfirmSession(cred: Credential, p: Parsers, data: Blob, replies: seq<Exchange>)
    returns (sent: seq<Request>, failure: Option<LoginError>)
    requires |replies| == 3 && Safe(p, Kmsi(data), replies)
    ensures Outcome(sent, failure) == Run(cred, p, Kmsi(data), replies)
  {
    ghost var whole := Run(cred, p, Kmsi(data), replies);
    assert whole == After([], whole);

    // Keep me signed in; the answer holds the SAML assertion form.
    assert replies[0..] == replies;
    Unroll(cred, p, Kmsi(data), replies, 0, []);
    sent := [FormPost(KmsiUrl, KmsiFields(data))];
    if replies[0].TransportFailed? {
      return sent, Some(Transport);
    }
    var response := replies[0].response;
    if response.status != OK {
      return sent, Some(NotOk);
    }
    var responseBody := p.html(response.text);
    if "SAMLResponse" !in responseBody.inputs {
      return sent, Some(NoSamlResponse);
    }
    var samlResponse := responseBody.inputs["SAMLResponse"];
    if "RelayState" !in responseBody.inputs {
      return sent, Some(NoRelayState);
    }
    var relayState := responseBody.inputs["RelayState"];
    if responseBody.formAction.None? {
      return sent, Some(NoForm);
    }
    var newUrl := responseBody.formAction.value;

    // The assertion is posted back and answered by a redirect to the application.
    ghost var st := Assertion(newUrl, samlResponse, relayState);
    assert Next(p, Kmsi(data), replies[0]) == Advance(st);
    Unroll(cred, p, st, replies, 1, sent);
    sent := sent + [FormPost(newUrl, AssertionFields(samlResponse, relayState))];
    if replies[1].TransportFailed? {
      return sent, Some(Transport);
    }
    response := replies[1].response;
    if response.status != FOUND {
      return sent, Some(NotRedirected);
    }
    var redirectUrl := HeaderText(response.location.value);
    if redirectUrl.None? {
      return sent, Some(LocationNotText);
    }

    // The final GET sets the application's session cookie.
    ghost var last := Finalize(redirectUrl.value);
    assert Next(p, st, replies[1]) == Advance(last);
    Unroll(cred, p, last, replies, 2, sent);
    sent := sent + [GetRequest(redirectUrl.value)];
    if replies[2].TransportFailed? {
      return sent, Some(Transport);
    }
    assert replies[3..] == [];
    return sent, None;
  }
}
