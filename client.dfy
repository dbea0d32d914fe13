/**
 * The ISE REST client of client.go: `NewClient` with its modifiers,
 * `NewReq`, the retry loop `Do`, the backoff step `Backoff` and the four
 * verbs. The transport and the random source are parameters: `transport(k)`
 * is how attempt `k` ends and `rnd(k)` the draw of `rand.Float64()` for the
 * backoff after attempt `k`. Sleeps are not performed; `Do` reports them,
 * with the transport calls, as ghost events.
 */
module Ise {
  import opened Wrappers
  import opened BackoffPolicy
  import opened Retry
  import Config

  /** The bytes sent on every attempt: the retained body, empty for a nil body. */
  function Wire(r: Config.Request): Outgoing {
    Outgoing(r.verb, r.url, r.header, if r.body.Some? then r.body.value else "")
  }

  /** A request descriptor; its modifiers update it in place. */
  class Req {
    var verb: string
    var url: string
    var header: map<string, string>
    var body: Option<string>
    var logPayload: bool

    function View(): Config.Request
      reads this
    {
      Config.Request(verb, url, header, body, logPayload)
    }

    /** The request `NewReq` builds before its modifiers: basic auth and JSON headers, payload logging on. */
    constructor (verb: string, target: string, body: Option<string>, usr: string, pwd: string)
      ensures View() == Config.Request(verb, target, Config.InitialHeader(usr, pwd), body, true)
    {
      this.verb := verb;
      url := target;
      var h := map[Config.AUTHORIZATION := Config.BasicAuth(usr, pwd)];
      h := h["Accept" := Config.JSON];
      header := h["Content-Type" := Config.JSON];
      this.body := body;
      logPayload := true;
    }

    method Apply(o: Config.ReqOption)
      modifies this
      ensures View() == Config.ReqModified(old(View()), o)
    {
      match o
      case LogPayload(on) => logPayload := on;
      case SetHeader(n, v) => header := header[n := v];
    }
  }

  class Client {
    var url: string
    var usr: string
    var pwd: string
    /** Never written by any modifier, so it keeps Go's zero value. */
    var insecure: bool
    /** The HTTP client's timeout, in seconds. */
    var timeout: int
    var maxRetries: int
    var backoffMinDelay: int
    var backoffMaxDelay: int
    var backoffDelayFactor: real

    function Settings(): Config.Settings
      reads this
    {
      Config.Settings(url, usr, pwd, timeout, maxRetries, backoffMinDelay, backoffMaxDelay, backoffDelayFactor)
    }

    function Policy(): Policy
      reads this
    {
      BackoffPolicy.Policy(maxRetries, backoffMinDelay, backoffMaxDelay, backoffDelayFactor)
    }

    /** `NewClient`: the defaults, then every modifier in order. */
    constructor (baseUrl: string, user: string, password: string, mods: seq<Config.ClientOption>)
      ensures Settings() == Config.ModifiedAll(Config.Defaults(baseUrl, user, password), mods)
      ensures !insecure
    {
      url, usr, pwd := baseUrl, user, password;
      insecure := false;
      timeout := Config.DEFAULT_TIMEOUT;
      maxRetries := Config.DEFAULT_MAX_RETRIES;
      backoffMinDelay := Config.DEFAULT_BACKOFF_MIN_DELAY;
      backoffMaxDelay := Config.DEFAULT_BACKOFF_MAX_DELAY;
      backoffDelayFactor := Config.DEFAULT_BACKOFF_DELAY_FACTOR;
      new;
      for i := 0 to |mods|
        invariant Settings() == Config.ModifiedAll(Config.Defaults(baseUrl, user, password), mods[..i])
        invariant !insecure
      {
        Config.ModifiedAllSnoc(Config.Defaults(baseUrl, user, password), mods[..i], mods[i]);
        assert mods[..i + 1] == mods[..i] + [mods[i]];
        Apply(mods[i]);
      }
      assert mods[..|mods|] == mods;
    }

    /** One modifier: it writes its own field and nothing else. */
    method Apply(o: Config.ClientOption)
      modifies this
      ensures Settings() == Config.Modified(old(Settings()), o)
      ensures insecure == old(insecure)
    {
      match o
      case RequestTimeout(x) => timeout := x;
      case MaxRetries(x) => maxRetries := x;
      case BackoffMinDelay(x) => backoffMinDelay := x;
      case BackoffMaxDelay(x) => backoffMaxDelay := x;
      case BackoffDelayFactor(x) => backoffDelayFactor := x;
    }

    /** `NewReq`: target `url + uri`, JSON headers, basic auth, logging on, then the modifiers in order. */
    method NewReq(verb: string, uri: string, body: Option<string>, mods: seq<Config.ReqOption>) returns (req: Req)
      ensures fresh(req)
      ensures req.View() == Config.ReqModifiedAll(Config.NewRequest(Settings(), verb, uri, body), mods)
    {
      req := new Req(verb, url + uri, body, usr, pwd);
      ghost var start := Config.NewRequest(Settings(), verb, uri, body);
      for i := 0 to |mods|
        invariant fresh(req)
        invariant req.View() == Config.ReqModifiedAll(start, mods[..i])
      {
        Config.ReqModifiedAllSnoc(start, mods[..i], mods[i]);
        assert mods[..i + 1] == mods[..i] + [mods[i]];
        req.Apply(mods[i]);
      }
      assert mods[..|mods|] == mods;
    }

    /**
     * `Backoff`: false, without sleeping, once `attempts` reaches the
     * budget; otherwise true after one sleep of `slept` seconds, the jittered
     * delay for the draw `r`. `nap` is that sleep as an event of the trace.
     */
    method Backoff(attempts: nat, r: real) returns (ok: bool, ghost slept: Option<real>, ghost nap: Option<Event>)
      ensures ok <==> attempts < maxRetries
      ensures slept == if ok then Some(Delay(Policy(), attempts, r)) else None
      ensures nap == if ok then Some(Sleep(attempts, r)) else None
    {
      if attempts >= maxRetries {
        return false, None, None;
      }
      var min := backoffMinDelay as real;
      var backoff := min * Pow(backoffDelayFactor, attempts);
      assert backoff == Raw(Policy(), attempts);
      if backoff > backoffMaxDelay as real {
        backoff := backoffMaxDelay as real;
      }
      assert backoff == Ceiling(Policy(), attempts);
      backoff := (r / 2.0 + 0.5) * (backoff - min) + min;
      assert backoff == Delay(Policy(), attempts, r);
      return true, Some(backoff), Some(Sleep(attempts, r));
    }

    /**
     * The part of one pass of the loop of `Do` that follows the transport
     * call: a 2xx response ends the loop; any other outcome backs off, then
     * either gives up or, for a transient outcome, goes round again. `again`
     * is the `continue` of the loop; otherwise `(res, err)` is what `Do`
     * returns. `nap` is the sleep of the `Backoff` call, if it slept.
     */
    method Settle(attempts: nat, outcome: Outcome, r: real)
      returns (again: bool, res: Res, err: Option<Error>, ghost nap: Option<Event>)
      ensures again <==> attempts < maxRetries && Transient(outcome)
      ensures !again ==> (res, err) == Verdict(outcome)
      ensures nap == if again || SleepsBeforeGivingUp(Policy(), outcome, attempts)
                     then Some(Sleep(attempts, r)) else None
    {
      var ok: bool;
      ghost var slept: Option<real>;
      match outcome {
        case ConnErr(m) =>
          ok, slept, nap := Backoff(attempts, r);
          if !ok {
            return false, EMPTY_RES, Some(Transport(m)), nap;
          }
          return true, EMPTY_RES, None, nap;
        case ReadErr(m) =>
          ok, slept, nap := Backoff(attempts, r);
          if !ok {
            return false, EMPTY_RES, Some(BodyRead(m)), nap;
          }
          return true, EMPTY_RES, None, nap;
        case Reply(status, doc) =>
          res := doc;
          if IsSuccess(status) {
            return false, res, None, None;
          }
          var message := doc.messageTitle;
          ok, slept, nap := Backoff(attempts, r);
          if !ok {
            return false, res, Some(Status(status, message)), nap;
          } else if IsRetryableStatus(status) {
            return true, res, None, nap;
          } else {
            return false, res, Some(Status(status, message)), nap;
          }
      }
    }

    /**
     * `Do`: the body is read once, then every attempt sends it again, and
     * each attempt's outcome decides between returning and backing off.
     * The trace holds each send and each sleep of `Backoff` as it returns
     * it; by the contract of `Backoff`, `Sleep(attempt, draw)` lasts
     * `Delay(Policy(), attempt, draw)` seconds.
     */
    method Do(req: Req, transport: nat -> Outcome, rnd: nat -> real)
      returns (res: Res, err: Option<Error>, ghost events: seq<Event>)
      ensures var run := Exchange(Policy(), Wire(req.View()), transport, rnd, 0);
              res == run.res && err == run.err
      ensures events == Exchange(Policy(), Wire(req.View()), transport, rnd, 0).events
    {
      var body := if req.body.Some? then req.body.value else "";
      var request := Outgoing(req.verb, req.url, req.header, body);
      assert request == Wire(req.View());
      ghost var p := Policy();
      ghost var spec := Exchange(p, request, transport, rnd, 0);
      events := [];
      var attempts: nat := 0;
      while true
        invariant var tail := Exchange(p, request, transport, rnd, attempts);
                  spec == Run(tail.res, tail.err, events + tail.events)
        decreases Budget(p, attempts)
      {
        ghost var before := events;
        events := events + [Send(attempts, request)];
        var again: bool;
        ghost var nap: Option<Event>;
        again, res, err, nap := Settle(attempts, transport(attempts), rnd(attempts));
        if !again {
          ExchangeEnds(p, request, transport, rnd, attempts);
          if nap.Some? {
            Regroup(before, Send(attempts, request), nap.value, []);
            events := events + [nap.value];
          }
          return;
        }
        ExchangeContinues(p, request, transport, rnd, attempts);
        Regroup(before, Send(attempts, request), nap.value, Exchange(p, request, transport, rnd, attempts + 1).events);
        events := events + [nap.value];
        attempts := attempts + 1;
      }
    }

    method Get(path: string, mods: seq<Config.ReqOption>, transport: nat -> Outcome, rnd: nat -> real)
      returns (res: Res, err: Option<Error>)
      ensures var run := Exchange(Policy(), Wire(Config.ReqModifiedAll(Config.NewRequest(Settings(), "GET", path, None), mods)), transport, rnd, 0);
              res == run.res && err == run.err
    {
      var req := NewReq("GET", path, None, mods);
      ghost var events;
      res, err, events := Do(req, transport, rnd);
    }

    method Delete(path: string, mods: seq<Config.ReqOption>, transport: nat -> Outcome, rnd: nat -> real)
      returns (res: Res, err: Option<Error>)
      ensures var run := Exchange(Policy(), Wire(Config.ReqModifiedAll(Config.NewRequest(Settings(), "DELETE", path, None), mods)), transport, rnd, 0);
              res == run.res && err == run.err
    {
      var req := NewReq("DELETE", path, None, mods);
      ghost var events;
      res, err, events := Do(req, transport, rnd);
    }

    method Post(path: string, data: string, mods: seq<Config.ReqOption>, transport: nat -> Outcome, rnd: nat -> real)
      returns (res: Res, err: Option<Error>)
      ensures var run := Exchange(Policy(), Wire(Config.ReqModifiedAll(Config.NewRequest(Settings(), "POST", path, Some(data)), mods)), transport, rnd, 0);
              res == run.res && err == run.err
    {
      var req := NewReq("POST", path, Some(data), mods);
      ghost var events;
      res, err, events := Do(req, transport, rnd);
    }

    method Put(path: string, data: string, mods: seq<Config.ReqOption>, transport: nat -> Outcome, rnd: nat -> real)
      returns (res: Res, err: Option<Error>)
      ensures var run := Exchange(Policy(), Wire(Config.ReqModifiedAll(Config.NewRequest(Settings(), "PUT", path, Some(data)), mods)), transport, rnd, 0);
              res == run.res && err == run.err
    {
      var req := NewReq("PUT", path, Some(data), mods);
      ghost var events;
      res, err, events := Do(req, transport, rnd);
    }
  }
}
