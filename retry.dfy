/**
 * The retry engine of `Client.Do` (client.go), stated as a pure function of
 * what the transport answers at each attempt. The transport is a function
 * from the attempt number to its outcome, and the random draws of the
 * backoff a function from the attempt number to a value in `[0, 1)`.
 */
module Retry {
  import opened Wrappers
  import opened BackoffPolicy
  import Format

  /**
   * A parsed response document. `raw` is its text; `messageTitle` is the
   * string the path query `ERSResponse.messages.0.title` finds in it, or ""
   * when that path is absent or not a string.
   */
  datatype Res = Res(raw: string, messageTitle: string)

  /** Go's zero value `Res{}`: no text, and every query finds nothing. */
  const EMPTY_RES := Res("", "")

  /** What goes on the wire at one attempt: the request line, the headers (credentials among them) and the body. */
  datatype Outgoing = Outgoing(
    verb: string,
    url: string,
    header: map<string, string>,
    body: string)

  /** How one attempt ends. */
  datatype Outcome =
    | ConnErr(msg: string)                // the transport returned an error
    | ReadErr(msg: string)                // reading the response body failed
    | Reply(status: int, res: Res)        // a response with a readable, parsed body

  const STATUS_PREFIX := "HTTP Request failed: StatusCode "
  const MESSAGE_INFIX := ", Message: "

  /** The error `Do` returns. */
  datatype Error =
    | Transport(msg: string)
    | BodyRead(msg: string)
    | Status(code: int, message: string)
  {
    /** The error's text, as `err.Error()` gives it. */
    function Text(): string {
      match this
      case Transport(m) => m
      case BodyRead(m) => m
      case Status(c, m) => STATUS_PREFIX + Format.Decimal(c) + MESSAGE_INFIX + m
    }
  }

  /** What happens, in order, during one call of `Do`. */
  datatype Event =
    | Send(attempt: nat, request: Outgoing)
    | Sleep(attempt: nat, draw: real)     // a backoff sleep of `Delay(p, attempt, draw)` seconds

  /** The result of `Do` and the events that led to it. */
  datatype Run = Run(res: Res, err: Option<Error>, events: seq<Event>)

  predicate IsSuccess(status: int) {
    200 <= status <= 299
  }

  /** The statuses that are resent while the budget lasts: 408 and 502..504. */
  predicate IsRetryableStatus(status: int) {
    status == 408 || 502 <= status <= 504
  }

  /** Outcomes after which `Do` tries again while the budget lasts. */
  predicate Transient(o: Outcome) {
    match o
    case ConnErr(_) => true
    case ReadErr(_) => true
    case Reply(s, _) => IsRetryableStatus(s)
  }

  /** What `Do` returns when `o` is the outcome of its last attempt. */
  function Verdict(o: Outcome): (Res, Option<Error>) {
    match o
    case ConnErr(m) => (EMPTY_RES, Some(Transport(m)))
    case ReadErr(m) => (EMPTY_RES, Some(BodyRead(m)))
    case Reply(s, res) =>
      if IsSuccess(s) then (res, None) else (res, Some(Status(s, res.messageTitle)))
  }

  /**
   * Whether the last attempt ends with a backoff sleep and no resend: a
   * non-2xx status while budget remains. `Backoff` runs before the status is
   * checked for retryability, so a fatal status also sleeps once.
   */
  predicate SleepsBeforeGivingUp(p: Policy, o: Outcome, attempt: nat) {
    o.Reply? && !IsSuccess(o.status) && attempt < p.maxRetries
  }

  /** The measure that bounds the remaining attempts. */
  function Budget(p: Policy, attempts: nat): nat {
    if attempts < p.maxRetries then p.maxRetries - attempts else 0
  }

  /** The loop of `Do` from attempt `attempts` on. */
  function Exchange(p: Policy, req: Outgoing, transport: nat -> Outcome, rnd: nat -> real, attempts: nat): Run
    decreases Budget(p, attempts)
  {
    var sent := [Send(attempts, req)];
    var backoff := attempts < p.maxRetries;
    var nap := [Sleep(attempts, rnd(attempts))];
    match transport(attempts)
    case ConnErr(m) =>
      if !backoff then Run(EMPTY_RES, Some(Transport(m)), sent)
      else
        var rest := Exchange(p, req, transport, rnd, attempts + 1);
        Run(rest.res, rest.err, sent + nap + rest.events)
    case ReadErr(m) =>
      if !backoff then Run(EMPTY_RES, Some(BodyRead(m)), sent)
      else
        var rest := Exchange(p, req, transport, rnd, attempts + 1);
        Run(rest.res, rest.err, sent + nap + rest.events)
    case Reply(s, res) =>
      if IsSuccess(s) then Run(res, None, sent)
      else if !backoff then Run(res, Some(Status(s, res.messageTitle)), sent)
      else if IsRetryableStatus(s) then
        var rest := Exchange(p, req, transport, rnd, attempts + 1);
        Run(rest.res, rest.err, sent + nap + rest.events)
      else Run(res, Some(Status(s, res.messageTitle)), sent + nap)
  }

  /**
   * The attempt at which the loop started at attempt `a` stops: the first
   * attempt from `a` on whose outcome is not transient or that has no budget left.
   */
  function Stop(p: Policy, transport: nat -> Outcome, a: nat): (n: nat)
    ensures a <= n
    ensures forall k :: a <= k < n ==> k < p.maxRetries && Transient(transport(k))
    ensures !(n < p.maxRetries && Transient(transport(n)))
    ensures a < p.maxRetries ==> n <= p.maxRetries
    decreases Budget(p, a)
  {
    if a < p.maxRetries && Transient(transport(a)) then Stop(p, transport, a + 1) else a
  }

  /** A transient outcome with budget left is followed by a sleep and the next attempt. */
  lemma ExchangeContinues(p: Policy, req: Outgoing, transport: nat -> Outcome, rnd: nat -> real, a: nat)
    requires a < p.maxRetries && Transient(transport(a))
    ensures var run := Exchange(p, req, transport, rnd, a);
            var rest := Exchange(p, req, transport, rnd, a + 1);
            run == Run(rest.res, rest.err, [Send(a, req), Sleep(a, rnd(a))] + rest.events)
  {
  }

  /**
   * Any other outcome ends the loop with its verdict, after one sleep for a
   * non-2xx status that had budget.
   */
  lemma ExchangeEnds(p: Policy, req: Outgoing, transport: nat -> Outcome, rnd: nat -> real, a: nat)
    requires !(a < p.maxRetries && Transient(transport(a)))
    ensures var run := Exchange(p, req, transport, rnd, a);
            && (run.res, run.err) == Verdict(transport(a))
            && run.events == if SleepsBeforeGivingUp(p, transport(a), a)
                             then [Send(a, req), Sleep(a, rnd(a))]
                             else [Send(a, req)]
  {
  }

  lemma Regroup(before: seq<Event>, send: Event, nap: Event, rest: seq<Event>)
    ensures before + [send] + [nap] + rest == before + ([send, nap] + rest)
    ensures before + [send] + [nap] == before + [send, nap]
  {
  }

  /** The number of transport calls among `events`. */
  function Calls(events: seq<Event>): nat {
    if events == [] then 0 else (if events[0].Send? then 1 else 0) + Calls(events[1..])
  }

  /** The `i`-th event of a run that starts at attempt `a`: sends and sleeps alternate. */
  function EventAt(req: Outgoing, rnd: nat -> real, a: nat, i: nat): Event {
    var k := a + i / 2;
    if i % 2 == 0 then Send(k, req) else Sleep(k, rnd(k))
  }

  lemma {:induction false} CallsAppend(x: seq<Event>, y: seq<Event>)
    ensures Calls(x + y) == Calls(x) + Calls(y)
  {
    if x != [] {
      assert (x + y)[0] == x[0];
      assert (x + y)[1..] == x[1..] + y;
      CallsAppend(x[1..], y);
    } else {
      assert x + y == y;
    }
  }

  /** The outcome of the last attempt alone decides what `Do` returns. */
  lemma {:induction false} LastAttemptDecides(p: Policy, req: Outgoing, transport: nat -> Outcome, rnd: nat -> real, a: nat)
    ensures var run := Exchange(p, req, transport, rnd, a);
            (run.res, run.err) == Verdict(transport(Stop(p, transport, a)))
    decreases Budget(p, a)
  {
    if a < p.maxRetries && Transient(transport(a)) {
      LastAttemptDecides(p, req, transport, rnd, a + 1);
    }
  }

  /** Prefixing the send and sleep of attempt `a` shifts a schedule from `a + 1` to one from `a`. */
  lemma ScheduleShift(req: Outgoing, rnd: nat -> real, a: nat, rest: seq<Event>)
    requires forall i :: 0 <= i < |rest| ==> rest[i] == EventAt(req, rnd, a + 1, i)
    ensures var all := [Send(a, req), Sleep(a, rnd(a))] + rest;
            forall i :: 0 <= i < |all| ==> all[i] == EventAt(req, rnd, a, i)
  {
  }

  /**
   * The events of a run from attempt `a`: a send and a backoff sleep for each
   * attempt before the last, the send of the last attempt, and one more sleep
   * when the last attempt is a non-2xx status that still had budget.
   */
  lemma {:induction false} EventSchedule(p: Policy, req: Outgoing, transport: nat -> Outcome, rnd: nat -> real, a: nat)
    ensures var run := Exchange(p, req, transport, rnd, a);
            var n := Stop(p, transport, a);
            && |run.events| == 2 * (n - a) + 1 + (if SleepsBeforeGivingUp(p, transport(n), n) then 1 else 0)
            && forall i :: 0 <= i < |run.events| ==> run.events[i] == EventAt(req, rnd, a, i)
    decreases Budget(p, a)
  {
    if a < p.maxRetries && Transient(transport(a)) {
      EventSchedule(p, req, transport, rnd, a + 1);
      ExchangeContinues(p, req, transport, rnd, a);
      ScheduleShift(req, rnd, a, Exchange(p, req, transport, rnd, a + 1).events);
    } else {
      ExchangeEnds(p, req, transport, rnd, a);
    }
  }

  /** Each transport call of a run from attempt `a` is one attempt of `[a, Stop]`. */
  lemma {:induction false} CallsPerRun(p: Policy, req: Outgoing, transport: nat -> Outcome, rnd: nat -> real, a: nat)
    ensures Calls(Exchange(p, req, transport, rnd, a).events) == Stop(p, transport, a) - a + 1
    decreases Budget(p, a)
  {
    var run := Exchange(p, req, transport, rnd, a);
    var sent := [Send(a, req)];
    var nap := [Sleep(a, rnd(a))];
    assert Calls(sent) == 1;
    assert Calls(nap) == 0;
    CallsAppend(sent, nap);
    if a < p.maxRetries && Transient(transport(a)) {
      CallsPerRun(p, req, transport, rnd, a + 1);
      var rest := Exchange(p, req, transport, rnd, a + 1);
      CallsAppend(sent + nap, rest.events);
    }
  }

  /**
   * `Do` calls the transport at most `MaxRetries + 1` times, exactly once
   * when `MaxRetries <= 0`, and every call carries the same request.
   */
  lemma CallBudget(p: Policy, req: Outgoing, transport: nat -> Outcome, rnd: nat -> real)
    ensures var events := Exchange(p, req, transport, rnd, 0).events;
            && 1 <= Calls(events) <= (if p.maxRetries > 0 then p.maxRetries else 0) + 1
            && (p.maxRetries <= 0 ==> Calls(events) == 1)
            && forall e :: e in events && e.Send? ==> e.request == req
  {
    CallsPerRun(p, req, transport, rnd, 0);
    EventSchedule(p, req, transport, rnd, 0);
  }

  /** Every backoff sleep of `Do` lies within `[min, max]`. */
  lemma SleepsWithinBounds(p: Policy, req: Outgoing, transport: nat -> Outcome, rnd: nat -> real)
    requires Sane(p)
    requires forall k :: 0.0 <= rnd(k) < 1.0
    ensures forall e :: e in Exchange(p, req, transport, rnd, 0).events && e.Sleep? ==>
              p.minDelay as real <= Delay(p, e.attempt, e.draw) <= p.maxDelay as real
  {
    var events := Exchange(p, req, transport, rnd, 0).events;
    EventSchedule(p, req, transport, rnd, 0);
    forall e | e in events && e.Sleep?
      ensures p.minDelay as real <= Delay(p, e.attempt, e.draw) <= p.maxDelay as real
    {
      var i :| 0 <= i < |events| && events[i] == e;
      var k := i / 2;
      DelayBounds(p, k, rnd(k));
    }
  }

  /** `Do` returns no error exactly when its last attempt is a 2xx response, and then that response's document. */
  lemma NoErrorIffSuccess(p: Policy, req: Outgoing, transport: nat -> Outcome, rnd: nat -> real)
    ensures var run := Exchange(p, req, transport, rnd, 0);
            var last := transport(Stop(p, transport, 0));
            && (run.err.None? <==> last.Reply? && IsSuccess(last.status))
            && (run.err.None? ==> run.res == last.res)
  {
    LastAttemptDecides(p, req, transport, rnd, 0);
  }

  /**
   * A 2xx response with a readable body ends the loop at once: one call,
   * no sleep, the parsed document and no error.
   */
  lemma SuccessEndsLoop(p: Policy, req: Outgoing, transport: nat -> Outcome, rnd: nat -> real, a: nat, status: int, res: Res)
    requires transport(a) == Reply(status, res) && IsSuccess(status)
    ensures Exchange(p, req, transport, rnd, a) == Run(res, None, [Send(a, req)])
  {
  }

  /**
   * A non-2xx status outside 408 and 502..504 is never resent: the document
   * comes back with a status error, after exactly one backoff sleep when
   * budget remains and none otherwise.
   */
  lemma FatalStatusNotResent(p: Policy, req: Outgoing, transport: nat -> Outcome, rnd: nat -> real, a: nat, status: int, res: Res)
    requires transport(a) == Reply(status, res)
    requires !IsSuccess(status) && !IsRetryableStatus(status)
    ensures var run := Exchange(p, req, transport, rnd, a);
            && run.res == res
            && run.err == Some(Status(status, res.messageTitle))
            && run.events == [Send(a, req)] + (if a < p.maxRetries then [Sleep(a, rnd(a))] else [])
  {
  }

  /**
   * When every attempt fails transiently, `Do` makes `MaxRetries + 1` calls
   * (one when `MaxRetries <= 0`) and returns what the last one gave: an empty
   * document with the connection or read error, or the last document with its
   * status and message.
   */
  lemma TransientExhaustsBudget(p: Policy, req: Outgoing, transport: nat -> Outcome, rnd: nat -> real)
    requires forall k :: Transient(transport(k))
    ensures var run := Exchange(p, req, transport, rnd, 0);
            var n := if p.maxRetries > 0 then p.maxRetries else 0;
            && Calls(run.events) == n + 1
            && (run.res, run.err) == Verdict(transport(n))
            && run.err.Some?
  {
    var n := if p.maxRetries > 0 then p.maxRetries else 0;
    assert Stop(p, transport, 0) == n;
    CallsPerRun(p, req, transport, rnd, 0);
    LastAttemptDecides(p, req, transport, rnd, 0);
  }

  /** With `MaxRetries <= 0` there is one call, no sleep, and its outcome is the result. */
  lemma NoBudgetSingleAttempt(p: Policy, req: Outgoing, transport: nat -> Outcome, rnd: nat -> real)
    requires p.maxRetries <= 0
    ensures var run := Exchange(p, req, transport, rnd, 0);
            run.events == [Send(0, req)] && (run.res, run.err) == Verdict(transport(0))
  {
  }

  /** Reads the status code and message back out of a status error's text. */
  function ParseStatusText(t: string): Option<(int, string)> {
    if STATUS_PREFIX <= t then
      var rest := t[|STATUS_PREFIX|..];
      var k := Format.IndexOf(rest, ',');
      match Format.ParseDecimal(rest[..k])
      case Some(code) =>
        if MESSAGE_INFIX <= rest[k..] then Some((code, rest[k + |MESSAGE_INFIX|..])) else None
      case None => None
    else None
  }

  /** The text of a status error keeps its status code and its message, whatever the message holds. */
  lemma StatusTextRoundTrip(code: int, message: string)
    ensures ParseStatusText(Status(code, message).Text()) == Some((code, message))
  {
    var d := Format.Decimal(code);
    var t := Status(code, message).Text();
    assert t == STATUS_PREFIX + (d + (MESSAGE_INFIX + message));
    var rest := t[|STATUS_PREFIX|..];
    assert rest == d + (MESSAGE_INFIX + message);
    Format.DecimalHasNoComma(code);
    Format.IndexOfAfter(d, MESSAGE_INFIX + message, ',');
    assert rest[..|d|] == d;
    assert rest[|d|..] == MESSAGE_INFIX + message;
    Format.DecimalRoundTrip(code);
    assert rest[|d| + |MESSAGE_INFIX|..] == message;
  }
}
