/**
 * `listen_notifications`: the reconnecting loop that keeps a direct
 * PostgreSQL connection LISTENing on `incident_trigger`, waits for
 * notifications with a bound, sends a `SELECT 1` heartbeat after each quiet
 * wait and, on any exception, sleeps five seconds and starts again. The
 * current loop also polls `shutdown_requested` at the head of both of its
 * loops; the older loop in server.cpp runs forever.
 *
 * Everything the loop asks the outside world is answered by an `Oracle`:
 * the n-th connection attempt, the n-th LISTEN, the n-th `is_open`, the
 * n-th wait and the n-th heartbeat each have an answer indexed by n, and the
 * shutdown flag, once raised, stays raised. The run is followed for `fuel`
 * loop iterations.
 */
module Listener {
  import opened Wrappers
  import opened Json
  import opened ConnInfo
  import opened Registry
  import opened Relay

  /** The sleep after any exception, in seconds. */
  const BackoffSeconds: nat := 5

  /** Why the loop backed off. */
  datatype Cause = EnvMissing | ConnectError | ListenError | WaitError | HandlerError | ProbeError

  /**
   * One pending notification as the wait hands it to the handler: the payload,
   * the back end and the registry snapshot the handler sees, and whether an
   * exception the handler throws leaves `await_notification`.
   */
  datatype Pending = Pending(payload: Option<Json>, backend: Backend, clients: seq<Handle>, escapes: bool)

  /**
   * What one wait produced: an exception, or the notifications it dispatched,
   * in arrival order. No notification means the wait timed out, and
   * `await_notification` then returns 0.
   */
  datatype Wait =
    | WaitFailed
    | Returned(batch: seq<Pending>)

  datatype WaitKind = Quiet | Failure | Notification

  /** The observable actions of the loop, with the outcome of each. */
  datatype Event =
    | Connect(conninfo: string, ok: bool)
    | Listen(ok: bool)
    | Await(bound: nat, kind: WaitKind)
    | Handled(result: Result<Delivery, RelayError>, escaped: bool)
    | Probe(ok: bool)
    | Sleep(cause: Cause, seconds: nat)

  datatype Oracle = Oracle(
    env: Environment,
    connects: nat -> bool,
    listens: nat -> bool,
    opens: nat -> bool,
    waits: nat -> Wait,
    probes: nat -> bool,
    /** The index of the first read of the flag that sees it raised, if any. */
    shutdownAt: Option<nat>)

  /** Whether the flag read with index `k` sees a shutdown request. */
  predicate Raised(o: Oracle, k: nat) {
    o.shutdownAt.Some? && k >= o.shutdownAt.value
  }

  /** Where the loop stands: at the head of the outer loop, of the inner loop, or returned. */
  datatype Phase = AtOuter | AtInner | Finished

  /** The phase and how many questions of each kind have been asked. */
  datatype State = State(phase: Phase, connects: nat, listens: nat, opens: nat, waits: nat, probes: nat, flags: nat)

  const Start: State := State(AtOuter, 0, 0, 0, 0, 0, 0)

  datatype Stop = Shutdown | Horizon

  datatype Run = Run(trace: seq<Event>, stop: Stop)

  /** The bound passed to `await_notification`: `(1, 0)` now, `(1000)` in the older loop. */
  function WaitBound(v: Variant): nat {
    if v == Current then 1 else 1000
  }

  /** The connection string passed to the connection: the PGDIRECT_* string now, none in the older loop. */
  function ConnInfoFor(v: Variant, env: Environment): Option<string> {
    if v == Legacy then Some("")
    else match DirectConnectionString(env)
      case Ok(s) => Some(s)
      case Err(_) => None
  }

  /** From the outer loop head: the flag, the environment, the connection and LISTEN. */
  function OuterStep(v: Variant, o: Oracle, s: State): (State, seq<Event>)
  {
    if v == Current && Raised(o, s.flags) then (s.(phase := Finished, flags := s.flags + 1), [])
    else
      var s1 := if v == Current then s.(flags := s.flags + 1) else s;
      match ConnInfoFor(v, o.env)
      case None => (s1.(phase := AtOuter), [Sleep(EnvMissing, BackoffSeconds)])
      case Some(ci) =>
        var s2 := s1.(connects := s1.connects + 1);
        if !o.connects(s1.connects) then (s2.(phase := AtOuter), [Connect(ci, false), Sleep(ConnectError, BackoffSeconds)])
        else
          var s3 := s2.(listens := s2.listens + 1);
          if !o.listens(s2.listens) then
            (s3.(phase := AtOuter), [Connect(ci, true), Listen(false), Sleep(ListenError, BackoffSeconds)])
          else (s3.(phase := AtInner), [Connect(ci, true), Listen(true)])
  }

  /** The handler's result on one notification, and whether its exception would leave the wait. */
  datatype Handling = Handling(result: Result<Delivery, RelayError>, escapes: bool)

  /**
   * The handler registered with the connection, which the wait calls on each
   * notification. The loops are stated for any handler; the servers register
   * `RelayHandler`.
   */
  type Handler = Pending -> Handling

  /** `NotifyListener::operator()` of each variant: `Notify` on the notification's payload. */
  function RelayHandler(v: Variant): Handler {
    (n: Pending) => Handling(Notify(v, n.payload, n.backend, n.clients), n.escapes)
  }

  function Handlings(h: Handler, batch: seq<Pending>): seq<Handling> {
    seq(|batch|, i requires 0 <= i < |batch| => h(batch[i]))
  }

  /** The handler fails and its exception leaves the wait. */
  predicate Escapes(h: Handling) {
    h.result.Err? && h.escapes
  }

  /** The handler results one wait records, and whether an exception escaped the wait. */
  datatype Dispatch = Dispatch(events: seq<Event>, escaped: bool)

  /**
   * The dispatch inside one wait: the handler runs on every pending
   * notification in order, with no `is_open` or flag read in between, until
   * one whose exception escapes; the ones after it are not handled.
   */
  function Deliver(hs: seq<Handling>): Dispatch {
    if |hs| == 0 then Dispatch([], false)
    else if Escapes(hs[0]) then Dispatch([Handled(hs[0].result, true)], true)
    else
      var rest := Deliver(hs[1..]);
      Dispatch([Handled(hs[0].result, false)] + rest.events, rest.escaped)
  }

  /**
   * What one wait records: the i-th handler result is that of the i-th
   * notification; without an escape every notification is handled and none
   * escapes; with one, the last handled notification is the first that escapes.
   */
  lemma DeliverCharacterised(hs: seq<Handling>)
    ensures var d := Deliver(hs);
      && |d.events| <= |hs|
      && (forall i :: 0 <= i < |d.events| ==> d.events[i] == Handled(hs[i].result, d.escaped && i == |d.events| - 1))
      && (!d.escaped ==> |d.events| == |hs| && forall i :: 0 <= i < |hs| ==> !Escapes(hs[i]))
      && (d.escaped ==> |d.events| > 0 && Escapes(hs[|d.events| - 1])
                        && forall i :: 0 <= i < |d.events| - 1 ==> !Escapes(hs[i]))
  {
    DeliverEvents(hs);
    DeliverWithoutEscape(hs);
    DeliverEscape(hs);
  }

  lemma {:induction false} DeliverEvents(hs: seq<Handling>)
    ensures var d := Deliver(hs);
      && |d.events| <= |hs|
      && forall i :: 0 <= i < |d.events| ==> d.events[i] == Handled(hs[i].result, d.escaped && i == |d.events| - 1)
    decreases |hs|
  {
    if |hs| > 0 && !Escapes(hs[0]) {
      var rest := hs[1..];
      DeliverEvents(rest);
      var d, e := Deliver(hs), Deliver(rest);
      assert |d.events| == |e.events| + 1 && d.escaped == e.escaped;
      forall i | 1 <= i < |d.events|
        ensures d.events[i] == Handled(hs[i].result, d.escaped && i == |d.events| - 1)
      {
        assert d.events[i] == e.events[i - 1] && rest[i - 1] == hs[i];
      }
    }
  }

  lemma {:induction false} DeliverWithoutEscape(hs: seq<Handling>)
    ensures var d := Deliver(hs);
      !d.escaped ==> |d.events| == |hs| && forall i :: 0 <= i < |hs| ==> !Escapes(hs[i])
    decreases |hs|
  {
    if |hs| > 0 && !Escapes(hs[0]) {
      var rest := hs[1..];
      DeliverWithoutEscape(rest);
      assert forall i :: 1 <= i < |hs| ==> hs[i] == rest[i - 1];
    }
  }

  lemma {:induction false} DeliverEscape(hs: seq<Handling>)
    ensures var d := Deliver(hs);
      |d.events| <= |hs| &&
      (d.escaped ==> |d.events| > 0 && Escapes(hs[|d.events| - 1])
                     && forall i :: 0 <= i < |d.events| - 1 ==> !Escapes(hs[i]))
    decreases |hs|
  {
    if |hs| > 0 && !Escapes(hs[0]) {
      var rest := hs[1..];
      DeliverEscape(rest);
      var d, e := Deliver(hs), Deliver(rest);
      assert |d.events| == |e.events| + 1 && d.escaped == e.escaped;
      if d.escaped {
        assert hs[|d.events| - 1] == rest[|e.events| - 1];
        forall i | 0 <= i < |d.events| - 1 ensures !Escapes(hs[i]) {
          if i > 0 {
            assert hs[i] == rest[i - 1];
          }
        }
      }
    }
  }

  /** The dispatch stops exactly at the first notification whose exception escapes. */
  lemma DeliverStopsAtFirstEscape(hs: seq<Handling>, k: nat)
    requires k < |hs| && Escapes(hs[k])
    requires forall i :: 0 <= i < k ==> !Escapes(hs[i])
    ensures Deliver(hs).escaped && |Deliver(hs).events| == k + 1
  {
    DeliverCharacterised(hs);
  }

  /** One turn of the handler loop, from the i-th pending notification. */
  lemma DeliverFrom(hs: seq<Handling>, i: nat)
    requires i < |hs|
    ensures Deliver(hs[i..]) ==
      if Escapes(hs[i]) then Dispatch([Handled(hs[i].result, true)], true)
      else Dispatch([Handled(hs[i].result, false)] + Deliver(hs[i + 1..]).events, Deliver(hs[i + 1..]).escaped)
  {
    assert hs[i..][0] == hs[i] && hs[i..][1..] == hs[i + 1..];
  }

  /** What one wait leads to, from the state after the wait was counted. */
  function WaitStep(v: Variant, o: Oracle, h: Handler, s: State, w: Wait): (State, seq<Event>)
  {
    var bound := WaitBound(v);
    match w
    case WaitFailed => (s.(phase := AtOuter), [Await(bound, Failure), Sleep(WaitError, BackoffSeconds)])
    case Returned(batch) =>
      if |batch| == 0 then
        var s1 := s.(probes := s.probes + 1);
        if o.probes(s.probes) then (s1, [Await(bound, Quiet), Probe(true)])
        else (s1.(phase := AtOuter), [Await(bound, Quiet), Probe(false), Sleep(ProbeError, BackoffSeconds)])
      else
        var d := Deliver(Handlings(h, batch));
        if d.escaped then
          (s.(phase := AtOuter), [Await(bound, Notification)] + d.events + [Sleep(HandlerError, BackoffSeconds)])
        else (s, [Await(bound, Notification)] + d.events)
  }

  /** From the inner loop head: `is_open`, the flag, one wait and its heartbeat. */
  function InnerStep(v: Variant, o: Oracle, h: Handler, s: State): (State, seq<Event>)
  {
    var s1 := s.(opens := s.opens + 1);
    if !o.opens(s.opens) then (s1.(phase := AtOuter), [])
    else if v == Current && Raised(o, s1.flags) then (s1.(phase := AtOuter, flags := s1.flags + 1), [])
    else
      var s2 := if v == Current then s1.(flags := s1.flags + 1) else s1;
      WaitStep(v, o, h, s2.(waits := s2.waits + 1), o.waits(s2.waits))
  }

  function Step(v: Variant, o: Oracle, h: Handler, s: State): (State, seq<Event>)
    requires s.phase != Finished
  {
    if s.phase == AtOuter then OuterStep(v, o, s) else InnerStep(v, o, h, s)
  }

  /** The run from `s` for `fuel` loop iterations. */
  function RunFrom(v: Variant, o: Oracle, h: Handler, s: State, fuel: nat): Run
    decreases fuel
  {
    if s.phase == Finished then Run([], Shutdown)
    else if fuel == 0 then Run([], Horizon)
    else
      var next := Step(v, o, h, s);
      var rest := RunFrom(v, o, h, next.0, fuel - 1);
      Run(next.1 + rest.trace, rest.stop)
  }

  // ------------------------------------------------------------ shutdown

  /** Once the next flag read sees the request, the loop returns without another action. */
  lemma ShutdownStopsAtNextCheck(o: Oracle, h: Handler, s: State, fuel: nat)
    requires s.phase != Finished && Raised(o, s.flags) && fuel >= 2
    ensures RunFrom(Current, o, h, s, fuel) == Run([], Shutdown)
  {
    if s.phase == AtInner {
      var next := InnerStep(Current, o, h, s);
      assert next.0.phase == AtOuter && next.1 == [] && Raised(o, next.0.flags);
      assert RunFrom(Current, o, h, next.0, fuel - 1) == Run([], Shutdown);
    } else {
      assert OuterStep(Current, o, s).0.phase == Finished;
    }
  }

  /** The loop returns only by reading a raised flag: never in the older loop, never without a request. */
  lemma {:induction false} ReturnsOnlyOnShutdown(v: Variant, o: Oracle, h: Handler, s: State, fuel: nat)
    requires s.phase != Finished
    ensures RunFrom(v, o, h, s, fuel).stop == Shutdown ==> v == Current && o.shutdownAt.Some?
    decreases fuel
  {
    if fuel > 0 {
      var next := Step(v, o, h, s);
      if next.0.phase != Finished {
        ReturnsOnlyOnShutdown(v, o, h, next.0, fuel - 1);
      } else {
        assert v == Current && Raised(o, s.flags);
      }
    }
  }

  /** The older loop never returns. */
  lemma LegacyNeverReturns(o: Oracle, h: Handler, fuel: nat)
    ensures RunFrom(Legacy, o, h, Start, fuel).stop == Horizon
  {
    ReturnsOnlyOnShutdown(Legacy, o, h, Start, fuel);
  }

  // ------------------------------------------------------------ retries

  /**
   * The environment check sits inside the `try`: with a PGDIRECT_* variable
   * unset and no shutdown request, every iteration is one five-second backoff.
   */
  lemma {:induction false} MissingEnvironmentRetriesForever(o: Oracle, h: Handler, s: State, fuel: nat)
    requires DirectConnectionString(o.env).Err? && o.shutdownAt.None? && s.phase == AtOuter
    ensures RunFrom(Current, o, h, s, fuel) ==
            Run(seq(fuel, _ => Sleep(EnvMissing, BackoffSeconds)), Horizon)
    decreases fuel
  {
    if fuel > 0 {
      var next := OuterStep(Current, o, s);
      assert next.1 == [Sleep(EnvMissing, BackoffSeconds)] && next.0.phase == AtOuter;
      MissingEnvironmentRetriesForever(o, h, next.0, fuel - 1);
      assert [Sleep(EnvMissing, BackoffSeconds)] + seq(fuel - 1, _ => Sleep(EnvMissing, BackoffSeconds))
          == seq(fuel, _ => Sleep(EnvMissing, BackoffSeconds));
    }
  }

  /**
   * A connection that reports itself closed ends the inner loop without an
   * exception: the very next action is a new connection attempt, with no sleep.
   */
  lemma ClosedConnectionReconnectsAtOnce(v: Variant, o: Oracle, h: Handler, s: State, fuel: nat)
    requires s.phase == AtInner && !o.opens(s.opens) && fuel >= 2
    requires ConnInfoFor(v, o.env).Some?
    requires v == Current ==> !Raised(o, s.flags)
    ensures var t := RunFrom(v, o, h, s, fuel).trace;
            |t| > 0 && t[0] == Connect(ConnInfoFor(v, o.env).value, o.connects(s.connects))
  {
    var next := InnerStep(v, o, h, s);
    assert next.1 == [] && next.0.phase == AtOuter && next.0.flags == s.flags && next.0.connects == s.connects;
    var after := OuterStep(v, o, next.0);
    assert after.1[0] == Connect(ConnInfoFor(v, o.env).value, o.connects(s.connects));
  }

  // ------------------------------------------------------------ the protocol

  /** Positions in the protocol every trace follows. */
  datatype Mode =
    | Idle        // at the outer loop head
    | Connected   // a connection is open, LISTEN not yet issued
    | Open        // listening, at the inner loop head
    | QuietWait   // a wait timed out; the heartbeat comes next
    | Delivering  // a wait received notifications; the first handler result comes next
    | Delivered   // every handler result so far was kept inside the wait; more may follow
    | Failed(cause: Cause)  // an exception was thrown; the backoff comes next

  /** The actions available at the outer loop head: one attempt, or one backoff for a missing environment. */
  function Attempt(v: Variant, env: Environment, e: Event): Option<Mode> {
    match ConnInfoFor(v, env)
    case None => if e == Sleep(EnvMissing, BackoffSeconds) then Some(Idle) else None
    case Some(ci) =>
      if e == Connect(ci, true) then Some(Connected)
      else if e == Connect(ci, false) then Some(Failed(ConnectError))
      else None
  }

  /** At the inner loop head: one wait, or the silent exit back to the outer head. */
  function FromOpen(v: Variant, env: Environment, e: Event): Option<Mode> {
    if e == Await(WaitBound(v), Quiet) then Some(QuietWait)
    else if e == Await(WaitBound(v), Failure) then Some(Failed(WaitError))
    else if e == Await(WaitBound(v), Notification) then Some(Delivering)
    else Attempt(v, env, e)
  }

  /** A handler result: kept inside the wait, or a failure that escaped it. */
  function AfterHandled(e: Event): Option<Mode> {
    if e.Handled? && !e.escaped then Some(Delivered)
    else if e.Handled? && e.escaped && e.result.Err? then Some(Failed(HandlerError))
    else None
  }

  function Next(v: Variant, env: Environment, m: Mode, e: Event): Option<Mode> {
    match m
    case Idle => Attempt(v, env, e)
    case Connected =>
      if e == Listen(true) then Some(Open)
      else if e == Listen(false) then Some(Failed(ListenError))
      else None
    case Open => FromOpen(v, env, e)
    case QuietWait =>
      if e == Probe(true) then Some(Open)
      else if e == Probe(false) then Some(Failed(ProbeError))
      else None
    case Delivering => AfterHandled(e)
    case Delivered => if e.Handled? then AfterHandled(e) else FromOpen(v, env, e)
    case Failed(c) =>
      if e == Sleep(c, BackoffSeconds) then Some(Idle) else None
  }

  /** The mode reached after `t`, if `t` follows the protocol from `m`. */
  function Walk(v: Variant, env: Environment, m: Mode, t: seq<Event>): Option<Mode>
    decreases |t|
  {
    if |t| == 0 then Some(m)
    else match Next(v, env, m, t[0])
      case None => None
      case Some(m') => Walk(v, env, m', t[1..])
  }

  function ModeOf(s: State): Mode {
    if s.phase == AtInner then Open else Idle
  }

  lemma {:induction false} WalkAppend(v: Variant, env: Environment, m: Mode, a: seq<Event>, b: seq<Event>)
    requires Walk(v, env, m, a).Some?
    ensures Walk(v, env, m, a + b) == Walk(v, env, Walk(v, env, m, a).value, b)
    decreases |a|
  {
    if |a| > 0 {
      assert (a + b)[1..] == a[1..] + b;
      WalkAppend(v, env, Next(v, env, m, a[0]).value, a[1..], b);
    } else {
      assert a + b == b;
    }
  }

  /**
   * Mode `w` allows every continuation `m` allows: the inner loop can leave
   * silently for the outer head, and after the last handler result of a wait
   * the loop is back at the inner head.
   */
  predicate Covers(w: Mode, m: Mode) {
    w == m || (m == Idle && (w == Open || w == Delivered)) || (m == Open && w == Delivered)
  }

  lemma CoversWalk(v: Variant, env: Environment, w: Mode, m: Mode, t: seq<Event>)
    requires Covers(w, m) && Walk(v, env, m, t).Some?
    ensures Walk(v, env, w, t).Some?
    ensures |t| > 0 ==> Walk(v, env, w, t) == Walk(v, env, m, t)
  {
    if |t| > 0 && w != m {
      var m1 := Next(v, env, m, t[0]);
      assert m1.Some?;
      assert !t[0].Handled?;
      assert Next(v, env, w, t[0]) == m1;
      assert Walk(v, env, w, t) == Walk(v, env, m1.value, t[1..]);
      assert Walk(v, env, m, t) == Walk(v, env, m1.value, t[1..]);
    }
  }

  /** The mode after a step's events, if they follow the protocol from `m`, covers the one the step lands in. */
  predicate Lands(v: Variant, env: Environment, m: Mode, next: (State, seq<Event>)) {
    var w := Walk(v, env, m, next.1);
    w.Some? && (Covers(w.value, ModeOf(next.0)) || next.0.phase == Finished)
  }

  lemma StepFollows(v: Variant, o: Oracle, h: Handler, s: State)
    requires s.phase != Finished
    ensures Lands(v, o.env, ModeOf(s), Step(v, o, h, s))
  {
    if s.phase == AtOuter {
      OuterStepFollows(v, o, s);
    } else {
      InnerStepFollows(v, o, h, s);
    }
  }

  lemma OuterStepFollows(v: Variant, o: Oracle, s: State)
    requires s.phase == AtOuter
    ensures Lands(v, o.env, Idle, OuterStep(v, o, s))
  {
    WalkShort(v, o.env, Idle, OuterStep(v, o, s).1);
  }

  lemma InnerStepFollows(v: Variant, o: Oracle, h: Handler, s: State)
    requires s.phase == AtInner
    ensures Lands(v, o.env, Open, InnerStep(v, o, h, s))
  {
    var s1 := s.(opens := s.opens + 1);
    if o.opens(s.opens) && !(v == Current && Raised(o, s1.flags)) {
      var s2 := if v == Current then s1.(flags := s1.flags + 1) else s1;
      WaitStepFollows(v, o, h, s2.(waits := s2.waits + 1), o.waits(s2.waits));
    } else {
      WalkShort(v, o.env, Open, InnerStep(v, o, h, s).1);
    }
  }

  /** Every outcome of one wait is a protocol path from the inner loop head. */
  lemma WaitStepFollows(v: Variant, o: Oracle, h: Handler, s: State, w: Wait)
    ensures Lands(v, o.env, Open, WaitStep(v, o, h, s, w))
  {
    var next := WaitStep(v, o, h, s, w);
    if w.Returned? && |w.batch| > 0 {
      var head := [Await(WaitBound(v), Notification)];
      var d := Deliver(Handlings(h, w.batch));
      WalkShort(v, o.env, Open, head);
      DeliverWalk(v, o.env, Delivering, Handlings(h, w.batch));
      WalkAppend(v, o.env, Open, head, d.events);
      if d.escaped {
        var tail := [Sleep(HandlerError, BackoffSeconds)];
        WalkAppend(v, o.env, Open, head + d.events, tail);
        WalkShort(v, o.env, Failed(HandlerError), tail);
      }
    } else {
      WalkShort(v, o.env, Open, next.1);
    }
  }

  /** The handler results of one wait lead from the notification to the inner head, or to the backoff. */
  lemma {:induction false} DeliverWalk(v: Variant, env: Environment, m: Mode, hs: seq<Handling>)
    requires m == Delivering || m == Delivered
    requires |hs| > 0
    ensures Walk(v, env, m, Deliver(hs).events) == Some(if Deliver(hs).escaped then Failed(HandlerError) else Delivered)
    decreases |hs|
  {
    var d := Deliver(hs);
    if Escapes(hs[0]) {
      WalkShort(v, env, m, d.events);
    } else {
      var rest := Deliver(hs[1..]);
      assert d.events[1..] == rest.events;
      assert Walk(v, env, m, d.events) == Walk(v, env, Delivered, rest.events);
      if |hs| > 1 {
        DeliverWalk(v, env, Delivered, hs[1..]);
      }
    }
  }

  /** `Walk` over at most three events, one `Next` at a time. */
  lemma WalkShort(v: Variant, env: Environment, m: Mode, e: seq<Event>)
    requires |e| <= 3
    ensures |e| == 0 ==> Walk(v, env, m, e) == Some(m)
    ensures |e| > 0 ==> (Walk(v, env, m, e) ==
      match Next(v, env, m, e[0])
      case None => None
      case Some(m1) =>
        if |e| == 1 then Some(m1)
        else (match Next(v, env, m1, e[1])
          case None => None
          case Some(m2) => if |e| == 2 then Some(m2) else Next(v, env, m2, e[2])))
  {
    if |e| > 0 && Next(v, env, m, e[0]).Some? {
      var m1 := Next(v, env, m, e[0]).value;
      assert Walk(v, env, m, e) == Walk(v, env, m1, e[1..]);
      if |e| > 1 && Next(v, env, m1, e[1]).Some? {
        var m2 := Next(v, env, m1, e[1]).value;
        assert e[1..][0] == e[1] && e[1..][1..] == e[2..];
        assert Walk(v, env, m1, e[1..]) == Walk(v, env, m2, e[2..]);
        if |e| > 2 {
          assert e[2..][0] == e[2] && e[2..][1..] == [];
          if Next(v, env, m2, e[2]).Some? {
            var m3 := Next(v, env, m2, e[2]).value;
            assert Walk(v, env, m2, e[2..]) == Walk(v, env, m3, []);
          }
        }
      }
    }
  }

  /**
   * Every run follows the protocol: LISTEN exactly once on each new connection
   * and before its first wait; a heartbeat after a quiet wait and only then; a
   * five-second backoff after each failure and only then; after a successful
   * heartbeat or a handled notification, the next wait or a reconnection.
   */
  lemma {:induction false} RunFollowsProtocol(v: Variant, o: Oracle, h: Handler, s: State, fuel: nat)
    ensures Walk(v, o.env, ModeOf(s), RunFrom(v, o, h, s, fuel).trace).Some?
    decreases fuel
  {
    if s.phase != Finished && fuel > 0 {
      var next := Step(v, o, h, s);
      var rest := RunFrom(v, o, h, next.0, fuel - 1).trace;
      StepFollows(v, o, h, s);
      RunFollowsProtocol(v, o, h, next.0, fuel - 1);
      var w := Walk(v, o.env, ModeOf(s), next.1).value;
      if next.0.phase != Finished {
        CoversWalk(v, o.env, w, ModeOf(next.0), rest);
      }
      WalkAppend(v, o.env, ModeOf(s), next.1, rest);
    }
  }

  // ------------------------------------------------------------ the loops

  /** One loop iteration as the methods take it: the events appended and the state reached are those of `Step`. */
  lemma Advance(v: Variant, o: Oracle, h: Handler, s: State, fuel: nat, done: seq<Event>, events: seq<Event>, s': State, total: Run)
    requires s.phase != Finished && fuel > 0 && Step(v, o, h, s) == (s', events)
    requires done + RunFrom(v, o, h, s, fuel).trace == total.trace && RunFrom(v, o, h, s, fuel).stop == total.stop
    ensures (done + events) + RunFrom(v, o, h, s', fuel - 1).trace == total.trace
    ensures RunFrom(v, o, h, s', fuel - 1).stop == total.stop
  {
    var rest := RunFrom(v, o, h, s', fuel - 1);
    assert RunFrom(v, o, h, s, fuel) == Run(events + rest.trace, rest.stop);
    assert (done + events) + rest.trace == done + (events + rest.trace);
  }

  /** The handler loop inside one wait: each pending notification in turn, until an exception escapes. */
  method DeliverAll(h: Handler, batch: seq<Pending>) returns (d: Dispatch)
    ensures d == Deliver(Handlings(h, batch))
  {
    ghost var hs := Handlings(h, batch);
    var events: seq<Event> := [];
    var i := 0;
    while i < |batch|
      invariant 0 <= i <= |batch|
      invariant events + Deliver(hs[i..]).events == Deliver(hs).events
      invariant Deliver(hs[i..]).escaped == Deliver(hs).escaped
    {
      DeliverFrom(hs, i);
      var handled := h(batch[i]);
      if handled.result.Err? && handled.escapes {
        d := Dispatch(events + [Handled(handled.result, true)], true);
        return;
      }
      ghost var later := Deliver(hs[i + 1..]).events;
      assert events + ([Handled(handled.result, false)] + later) == (events + [Handled(handled.result, false)]) + later;
      events := events + [Handled(handled.result, false)];
      i := i + 1;
    }
    assert hs[i..] == [];
    assert events + [] == events;
    d := Dispatch(events, false);
  }

  /** One wait as the inner loop body runs it: the dispatch inside it, or the heartbeat after a quiet one. */
  method AwaitOnce(v: Variant, o: Oracle, h: Handler, s: State) returns (s': State, events: seq<Event>)
    ensures (s', events) == WaitStep(v, o, h, s.(waits := s.waits + 1), o.waits(s.waits))
    ensures s.phase != Finished ==> s'.phase != Finished
  {
    var bound := WaitBound(v);
    var w := o.waits(s.waits);
    s' := s.(waits := s.waits + 1);
    match w {
      case WaitFailed =>
        events := [Await(bound, Failure), Sleep(WaitError, BackoffSeconds)];
        s' := s'.(phase := AtOuter);
      case Returned(batch) =>
        if |batch| == 0 {
          var heartbeat := o.probes(s'.probes);
          s' := s'.(probes := s'.probes + 1);
          if heartbeat {
            events := [Await(bound, Quiet), Probe(true)];
          } else {
            events := [Await(bound, Quiet), Probe(false), Sleep(ProbeError, BackoffSeconds)];
            s' := s'.(phase := AtOuter);
          }
        } else {
          var d := DeliverAll(h, batch);
          if d.escaped {
            events := [Await(bound, Notification)] + d.events + [Sleep(HandlerError, BackoffSeconds)];
            s' := s'.(phase := AtOuter);
          } else {
            events := [Await(bound, Notification)] + d.events;
          }
        }
    }
  }

  /** The outer loop body: the flag (current loop only), the environment, the connection and `LISTEN`. */
  method OuterOnce(v: Variant, o: Oracle, s: State) returns (s': State, events: seq<Event>)
    ensures (s', events) == OuterStep(v, o, s)
    ensures v == Legacy ==> s'.phase != Finished
  {
    s' := s;
    if v == Current {
      var stop := Raised(o, s'.flags);
      s' := s'.(flags := s'.flags + 1);
      if stop {
        events := [];
        s' := s'.(phase := Finished);
        return;
      }
    }
    var conninfo := ConnInfoFor(v, o.env);
    if conninfo.None? {
      events := [Sleep(EnvMissing, BackoffSeconds)];
      s' := s'.(phase := AtOuter);
      return;
    }
    var connected := o.connects(s'.connects);
    s' := s'.(connects := s'.connects + 1);
    if !connected {
      events := [Connect(conninfo.value, false), Sleep(ConnectError, BackoffSeconds)];
      s' := s'.(phase := AtOuter);
      return;
    }
    var listening := o.listens(s'.listens);
    s' := s'.(listens := s'.listens + 1);
    if !listening {
      events := [Connect(conninfo.value, true), Listen(false), Sleep(ListenError, BackoffSeconds)];
      s' := s'.(phase := AtOuter);
    } else {
      events := [Connect(conninfo.value, true), Listen(true)];
      s' := s'.(phase := AtInner);
    }
  }

  /** The inner loop body: `is_open`, the flag (current loop only), then one wait. */
  method InnerOnce(v: Variant, o: Oracle, h: Handler, s: State) returns (s': State, events: seq<Event>)
    ensures (s', events) == InnerStep(v, o, h, s)
    ensures s.phase != Finished ==> s'.phase != Finished
  {
    var open := o.opens(s.opens);
    s' := s.(opens := s.opens + 1);
    if !open {
      events := [];
      s' := s'.(phase := AtOuter);
      return;
    }
    if v == Current {
      var down := Raised(o, s'.flags);
      s' := s'.(flags := s'.flags + 1);
      if down {
        events := [];
        s' := s'.(phase := AtOuter);
        return;
      }
    }
    s', events := AwaitOnce(v, o, h, s');
  }

  /**
   * The inner loop: iterations from the inner head while fuel lasts, each
   * extending the trace by exactly the events `RunFrom` puts next.
   */
  method InnerLoop(v: Variant, o: Oracle, h: Handler, s0: State, f0: nat, trace0: seq<Event>, ghost total: Run)
    returns (s: State, f: nat, trace: seq<Event>)
    requires trace0 + RunFrom(v, o, h, s0, f0).trace == total.trace && RunFrom(v, o, h, s0, f0).stop == total.stop
    ensures trace + RunFrom(v, o, h, s, f).trace == total.trace && RunFrom(v, o, h, s, f).stop == total.stop
    ensures f <= f0 && (s.phase == AtInner ==> f == 0)
    ensures s0.phase != Finished ==> s.phase != Finished
  {
    s, f, trace := s0, f0, trace0;
    while f > 0 && s.phase == AtInner
      invariant trace + RunFrom(v, o, h, s, f).trace == total.trace
      invariant RunFrom(v, o, h, s, f).stop == total.stop
      invariant f <= f0
      invariant s == s0 || s.phase != Finished
      decreases f
    {
      ghost var t0, before := s, trace;
      var events: seq<Event>;
      s, events := InnerOnce(v, o, h, s);
      Advance(v, o, h, t0, f, before, events, s, total);
      trace := trace + events;
      f := f - 1;
    }
  }

  /**
   * One pass of the outer loop body: connect and `LISTEN`, then the inner
   * loop, extending the trace by exactly the events `RunFrom` puts next.
   */
  method OuterIteration(v: Variant, o: Oracle, h: Handler, s0: State, f0: nat, trace0: seq<Event>, ghost total: Run)
    returns (s: State, f: nat, trace: seq<Event>)
    requires s0.phase == AtOuter && f0 > 0
    requires trace0 + RunFrom(v, o, h, s0, f0).trace == total.trace && RunFrom(v, o, h, s0, f0).stop == total.stop
    ensures trace + RunFrom(v, o, h, s, f).trace == total.trace && RunFrom(v, o, h, s, f).stop == total.stop
    ensures f < f0 && (s.phase == AtInner ==> f == 0)
    ensures v == Legacy ==> s.phase != Finished
  {
    var events: seq<Event>;
    s, events := OuterOnce(v, o, s0);
    Advance(v, o, h, s0, f0, trace0, events, s, total);
    s, f, trace := InnerLoop(v, o, h, s, f0 - 1, trace0 + events, total);
  }

  /**
   * The loops of `listen_notifications` of pgListener.cpp with handler `h`,
   * followed for `fuel` iterations of either loop: they produce exactly the
   * run `RunFrom` describes.
   */
  method CurrentLoops(o: Oracle, h: Handler, fuel: nat) returns (run: Run)
    ensures run == RunFrom(Current, o, h, Start, fuel)
  {
    ghost var total := RunFrom(Current, o, h, Start, fuel);
    var s := Start;
    var f := fuel;
    var trace: seq<Event> := [];
    while f > 0 && s.phase == AtOuter
      invariant s.phase == AtInner ==> f == 0
      invariant trace + RunFrom(Current, o, h, s, f).trace == total.trace
      invariant RunFrom(Current, o, h, s, f).stop == total.stop
      decreases f
    {
      s, f, trace := OuterIteration(Current, o, h, s, f, trace, total);
    }
    run := Run(trace, if s.phase == Finished then Shutdown else Horizon);
    assert trace + [] == trace;
  }

  /** The loops of `listen_notifications` of server.cpp with handler `h`; they never return. */
  method LegacyLoops(o: Oracle, h: Handler, fuel: nat) returns (run: Run)
    ensures run == RunFrom(Legacy, o, h, Start, fuel)
    ensures run.stop == Horizon
  {
    ghost var total := RunFrom(Legacy, o, h, Start, fuel);
    LegacyNeverReturns(o, h, fuel);
    var s := Start;
    var f := fuel;
    var trace: seq<Event> := [];
    while f > 0
      invariant s.phase != Finished
      invariant s.phase == AtInner ==> f == 0
      invariant trace + RunFrom(Legacy, o, h, s, f).trace == total.trace
      invariant RunFrom(Legacy, o, h, s, f).stop == total.stop
      decreases f
    {
      s, f, trace := OuterIteration(Legacy, o, h, s, f, trace, total);
    }
    run := Run(trace, Horizon);
    assert trace + [] == trace;
  }

  /** `listen_notifications` of pgListener.cpp, with the relay handler registered. */
  method ListenNotifications(o: Oracle, fuel: nat) returns (run: Run)
    ensures run == RunFrom(Current, o, RelayHandler(Current), Start, fuel)
  {
    run := CurrentLoops(o, RelayHandler(Current), fuel);
  }

  /** `listen_notifications` of server.cpp, with the relay handler registered: no flag, no environment check, a default connection. */
  method LegacyListenNotifications(o: Oracle, fuel: nat) returns (run: Run)
    ensures run == RunFrom(Legacy, o, RelayHandler(Legacy), Start, fuel)
    ensures run.stop == Horizon
  {
    run := LegacyLoops(o, RelayHandler(Legacy), fuel);
  }
}
