/**
 * Client and request configuration as values (client.go): the defaults that
 * `NewClient` and `NewReq` start from, what each modifier writes, and the
 * folds that apply a list of modifiers in order.
 */
module Config {
  import opened Wrappers

  const DEFAULT_MAX_RETRIES: int := 3
  const DEFAULT_BACKOFF_MIN_DELAY: int := 2
  const DEFAULT_BACKOFF_MAX_DELAY: int := 60
  const DEFAULT_BACKOFF_DELAY_FACTOR: real := 3.0
  /** The HTTP client's timeout, in seconds. */
  const DEFAULT_TIMEOUT: int := 60
  const JSON := "application/json"
  const AUTHORIZATION := "Authorization"

  /** The client's configurable state. */
  datatype Settings = Settings(
    url: string,
    usr: string,
    pwd: string,
    timeout: int,
    maxRetries: int,
    backoffMinDelay: int,
    backoffMaxDelay: int,
    backoffDelayFactor: real)

  /** The client modifiers that `NewClient` accepts. */
  datatype ClientOption =
    | RequestTimeout(seconds: int)
    | MaxRetries(retries: int)
    | BackoffMinDelay(minDelay: int)
    | BackoffMaxDelay(maxDelay: int)
    | BackoffDelayFactor(factor: real)

  /** The settings `NewClient` writes before it applies any modifier. */
  function Defaults(url: string, usr: string, pwd: string): Settings {
    Settings(url, usr, pwd, DEFAULT_TIMEOUT, DEFAULT_MAX_RETRIES,
             DEFAULT_BACKOFF_MIN_DELAY, DEFAULT_BACKOFF_MAX_DELAY, DEFAULT_BACKOFF_DELAY_FACTOR)
  }

  /** The effect of one modifier: it writes its own field. */
  function Modified(s: Settings, o: ClientOption): Settings {
    match o
    case RequestTimeout(x) => s.(timeout := x)
    case MaxRetries(x) => s.(maxRetries := x)
    case BackoffMinDelay(x) => s.(backoffMinDelay := x)
    case BackoffMaxDelay(x) => s.(backoffMaxDelay := x)
    case BackoffDelayFactor(x) => s.(backoffDelayFactor := x)
  }

  /** The modifiers applied first to last. */
  function ModifiedAll(s: Settings, mods: seq<ClientOption>): Settings
    decreases |mods|
  {
    if mods == [] then s else ModifiedAll(Modified(s, mods[0]), mods[1..])
  }

  lemma {:induction false} ModifiedAllSnoc(s: Settings, mods: seq<ClientOption>, o: ClientOption)
    ensures ModifiedAll(s, mods + [o]) == Modified(ModifiedAll(s, mods), o)
    decreases |mods|
  {
    if mods != [] {
      assert (mods + [o])[1..] == mods[1..] + [o];
      ModifiedAllSnoc(Modified(s, mods[0]), mods[1..], o);
    } else {
      assert ModifiedAll(Modified(s, o), []) == Modified(s, o);
    }
  }

  /**
   * The value the last modifier that `pick` recognises writes, scanning
   * from the end of `mods`; `dflt` when none does.
   */
  function LastWrite<O, T>(mods: seq<O>, pick: O -> Option<T>, dflt: T): T {
    if mods == [] then dflt
    else match pick(mods[|mods| - 1])
      case Some(v) => v
      case None => LastWrite(mods[..|mods| - 1], pick, dflt)
  }

  lemma {:induction false} LastWritePrepend<O, T>(o: O, rest: seq<O>, pick: O -> Option<T>, dflt: T)
    ensures LastWrite([o] + rest, pick, dflt) == LastWrite(rest, pick, LastWrite([o], pick, dflt))
    decreases |rest|
  {
    if rest == [] {
      assert [o] + rest == [o];
    } else {
      var all := [o] + rest;
      assert all[..|all| - 1] == [o] + rest[..|rest| - 1];
      assert all[|all| - 1] == rest[|rest| - 1];
      LastWritePrepend(o, rest[..|rest| - 1], pick, dflt);
    }
  }

  function TimeoutOf(o: ClientOption): Option<int> {
    if o.RequestTimeout? then Some(o.seconds) else None
  }

  function RetriesOf(o: ClientOption): Option<int> {
    if o.MaxRetries? then Some(o.retries) else None
  }

  function MinDelayOf(o: ClientOption): Option<int> {
    if o.BackoffMinDelay? then Some(o.minDelay) else None
  }

  function MaxDelayOf(o: ClientOption): Option<int> {
    if o.BackoffMaxDelay? then Some(o.maxDelay) else None
  }

  function FactorOf(o: ClientOption): Option<real> {
    if o.BackoffDelayFactor? then Some(o.factor) else None
  }

  /**
   * After the modifiers, every field holds what the last modifier of its
   * kind wrote, or its value before when none did; the connection fields
   * are not touched.
   */
  lemma {:induction false} LastWriteWins(s: Settings, mods: seq<ClientOption>)
    ensures ModifiedAll(s, mods) == Settings(
              s.url, s.usr, s.pwd,
              LastWrite(mods, TimeoutOf, s.timeout),
              LastWrite(mods, RetriesOf, s.maxRetries),
              LastWrite(mods, MinDelayOf, s.backoffMinDelay),
              LastWrite(mods, MaxDelayOf, s.backoffMaxDelay),
              LastWrite(mods, FactorOf, s.backoffDelayFactor))
    decreases |mods|
  {
    if mods != [] {
      var o, rest := mods[0], mods[1..];
      assert mods == [o] + rest;
      var s1 := Modified(s, o);
      LastWriteWins(s1, rest);
      LastWritePrepend(o, rest, TimeoutOf, s.timeout);
      LastWritePrepend(o, rest, RetriesOf, s.maxRetries);
      LastWritePrepend(o, rest, MinDelayOf, s.backoffMinDelay);
      LastWritePrepend(o, rest, MaxDelayOf, s.backoffMaxDelay);
      LastWritePrepend(o, rest, FactorOf, s.backoffDelayFactor);
    }
  }

  /** `NewClient` with no modifiers keeps the documented defaults. */
  lemma DefaultsOfNewClient(url: string, usr: string, pwd: string)
    ensures var s := ModifiedAll(Defaults(url, usr, pwd), []);
            && s.timeout == 60 && s.maxRetries == 3
            && s.backoffMinDelay == 2 && s.backoffMaxDelay == 60 && s.backoffDelayFactor == 3.0
  {
  }

  /** The request modifiers: suppress or restore payload logging, set a header. */
  datatype ReqOption =
    | LogPayload(on: bool)
    | SetHeader(name: string, value: string)

  /**
   * A request as `NewReq` builds it. `body` is `None` for a nil body reader.
   * The credentials live in the `Authorization` header, as `SetBasicAuth`
   * puts them there, so a modifier that sets that header replaces them.
   */
  datatype Request = Request(
    verb: string,
    url: string,
    header: map<string, string>,
    body: Option<string>,
    logPayload: bool)

  /** The `Authorization` value `SetBasicAuth` writes, without the base64 encoding of `usr:pwd`. */
  function BasicAuth(usr: string, pwd: string): string {
    "Basic " + usr + ":" + pwd
  }

  /** The headers `NewReq` sets: basic auth, then JSON for Accept and Content-Type. */
  function InitialHeader(usr: string, pwd: string): map<string, string> {
    map[AUTHORIZATION := BasicAuth(usr, pwd), "Accept" := JSON, "Content-Type" := JSON]
  }

  /** The request `NewReq` writes before it applies any modifier. */
  function NewRequest(s: Settings, verb: string, uri: string, body: Option<string>): Request {
    Request(verb, s.url + uri, InitialHeader(s.usr, s.pwd), body, true)
  }

  function ReqModified(r: Request, o: ReqOption): Request {
    match o
    case LogPayload(on) => r.(logPayload := on)
    case SetHeader(n, v) => r.(header := r.header[n := v])
  }

  /** The request modifiers applied first to last. */
  function ReqModifiedAll(r: Request, mods: seq<ReqOption>): Request
    decreases |mods|
  {
    if mods == [] then r else ReqModifiedAll(ReqModified(r, mods[0]), mods[1..])
  }

  lemma {:induction false} ReqModifiedAllSnoc(r: Request, mods: seq<ReqOption>, o: ReqOption)
    ensures ReqModifiedAll(r, mods + [o]) == ReqModified(ReqModifiedAll(r, mods), o)
    decreases |mods|
  {
    if mods != [] {
      assert (mods + [o])[1..] == mods[1..] + [o];
      ReqModifiedAllSnoc(ReqModified(r, mods[0]), mods[1..], o);
    } else {
      assert ReqModifiedAll(ReqModified(r, o), []) == ReqModified(r, o);
    }
  }

  function Lookup(header: map<string, string>, name: string): Option<string> {
    if name in header then Some(header[name]) else None
  }

  function HeaderOf(name: string): ReqOption -> Option<Option<string>> {
    (o: ReqOption) => if o.SetHeader? && o.name == name then Some(Some(o.value)) else None
  }

  function LogPayloadOf(o: ReqOption): Option<bool> {
    if o.LogPayload? then Some(o.on) else None
  }

  /**
   * Request modifiers touch only the headers and the logging flag: each
   * header holds the last value set for it, or the one it had; the flag the
   * last value written, or the one it had.
   */
  lemma {:induction false} ReqLastWriteWins(r: Request, mods: seq<ReqOption>)
    ensures var q := ReqModifiedAll(r, mods);
            && q.verb == r.verb && q.url == r.url && q.body == r.body
            && q.logPayload == LastWrite(mods, LogPayloadOf, r.logPayload)
            && forall name :: Lookup(q.header, name) == LastWrite(mods, HeaderOf(name), Lookup(r.header, name))
    decreases |mods|
  {
    if mods != [] {
      var o, rest := mods[0], mods[1..];
      assert mods == [o] + rest;
      var r1 := ReqModified(r, o);
      ReqLastWriteWins(r1, rest);
      LastWritePrepend(o, rest, LogPayloadOf, r.logPayload);
      forall name
        ensures LastWrite(rest, HeaderOf(name), Lookup(r1.header, name))
             == LastWrite(mods, HeaderOf(name), Lookup(r.header, name))
      {
        LastWritePrepend(o, rest, HeaderOf(name), Lookup(r.header, name));
      }
    }
  }

  /**
   * What `NewReq` builds: the target is the base URL and the path joined
   * verbatim; the `Authorization` header carries the client's credentials,
   * and Accept and Content-Type are JSON, unless a modifier set them; payload
   * logging is on unless a modifier turned it off.
   */
  lemma NewRequestShape(s: Settings, verb: string, uri: string, body: Option<string>, mods: seq<ReqOption>)
    ensures var q := ReqModifiedAll(NewRequest(s, verb, uri, body), mods);
            && q.verb == verb && q.url == s.url + uri && q.body == body
            && q.logPayload == LastWrite(mods, LogPayloadOf, true)
            && Lookup(q.header, AUTHORIZATION) == LastWrite(mods, HeaderOf(AUTHORIZATION), Some(BasicAuth(s.usr, s.pwd)))
            && Lookup(q.header, "Accept") == LastWrite(mods, HeaderOf("Accept"), Some(JSON))
            && Lookup(q.header, "Content-Type") == LastWrite(mods, HeaderOf("Content-Type"), Some(JSON))
  {
    ReqLastWriteWins(NewRequest(s, verb, uri, body), mods);
  }
}
