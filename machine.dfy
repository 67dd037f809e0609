/** The event handlers of the flywheel as functions on a snapshot of its
    state. The Flywheel class runs the same transitions in place and is
    proved equal to these functions; the lemmas here state the rules the
    handlers promise. Time is an integer clock; `now` is the instant an
    event is handled. */
module Machine {
  import opened Wrappers
  import opened Cloud
  import opened Statuses
  import opened Lifecycle

  /** Go's zero `time.Time`, the value of both timestamps before the first
      start or stop. */
  const ZERO_TIME: int := 0

  /** A caller's request; the reply channel is the method's result. */
  datatype Ping = Ping(setTimeout: int, requestStart: bool, requestStop: bool, noop: bool)

  /** The reply to a ping. */
  datatype Pong = Pong(
    status: Status, statusName: string, err: Option<Error>,
    lastStarted: int, lastStopped: int, stopAt: int)

  /** Everything the handlers read or write; `trace` lists every call
      issued to the cloud so far. */
  datatype Core = Core(
    status: Status, ready: bool, stopAt: int,
    lastStarted: int, lastStopped: int, trace: seq<Call>)

  /** The state a new flywheel starts in. */
  function Initial(now: int): Core
  {
    Core(STOPPED, false, now, ZERO_TIME, ZERO_TIME, [])
  }

  /** The reply that reports `c`, carrying `err`. */
  function Reply(c: Core, err: Option<Error>): (p: Pong)
    ensures p.status == c.status && p.statusName == StatusString(c.status)
    ensures p.lastStarted == c.lastStarted && p.lastStopped == c.lastStopped && p.stopAt == c.stopAt
    ensures p.err == err
  {
    Pong(c.status, StatusString(c.status), err, c.lastStarted, c.lastStopped, c.stopAt)
  }

  /** `Start`: stamp lastStarted, run the start chain, and only when every
      step succeeded clear `ready`, arm the deadline and enter STARTING. */
  function StartStep(cfg: Config, o: Oracle, c: Core, now: int, order: seq<GroupName>): (Core, Option<Error>)
    requires Sizable(cfg, Restore, order)
  {
    var out := StartChain(cfg, o, c.trace, order);
    var c1 := c.(lastStarted := now, trace := c.trace + out.issued);
    if out.err.Some? then (c1, out.err)
    else (c1.(ready := false, stopAt := now + cfg.idleTimeout, status := STARTING), None)
  }

  /** `Stop`: stamp lastStopped, run the stop chain, and only when every
      step succeeded clear `ready`, enter STOPPING and move the deadline to
      the stop instant. */
  function StopStep(cfg: Config, o: Oracle, c: Core, now: int, order: seq<GroupName>): (Core, Option<Error>)
  {
    var out := StopChain(cfg, o, c.trace, order);
    var c1 := c.(lastStopped := now, trace := c.trace + out.issued);
    if out.err.Some? then (c1, out.err)
    else (c1.(ready := false, status := STOPPING, stopAt := c1.lastStopped), None)
  }

  /** `RecvPing`: dispatch on the status, then reply with the new state.
      `order` is the traversal order of the terminate map if a chain runs. */
  function PingStep(cfg: Config, o: Oracle, c: Core, p: Ping, now: int, order: seq<GroupName>): (Core, Pong)
    requires Sizable(cfg, Restore, order)
  {
    match c.status
    case STOPPED =>
      if p.requestStart then
        var (c1, err) := StartStep(cfg, o, c, now, order);
        (c1, Reply(c1, err))
      else (c, Reply(c, None))
    case STARTED =>
      if p.noop then (c, Reply(c, None))
      else if p.requestStop then
        var (c1, err) := StopStep(cfg, o, c, now, order);
        (c1, Reply(c1, err))
      else if p.setTimeout != 0 then
        var c1 := c.(stopAt := now + p.setTimeout);
        (c1, Reply(c1, None))
      else
        var c1 := c.(stopAt := now + cfg.idleTimeout);
        (c1, Reply(c1, None))
    case _ => (c, Reply(c, None))
  }

  /** `Poll`, the periodic tick. */
  function PollStep(cfg: Config, o: Oracle, c: Core, now: int, order: seq<GroupName>): Core
  {
    match c.status
    case STARTED =>
      if now > c.stopAt then StopStep(cfg, o, c, now, order).0.(status := STOPPING) else c
    case STOPPING =>
      if c.ready then c.(status := STOPPED) else c
    case STARTING =>
      if c.ready then c.(status := STARTED, stopAt := now + cfg.idleTimeout) else c
    case _ => c
  }

  /** The health-notification branch of `Spin`. */
  function HealthStep(cfg: Config, c: Core, s: Status, now: int): Core
  {
    if c.status == s then c
    else if s == STARTED && c.stopAt < now then c.(stopAt := now + cfg.idleTimeout, status := s)
    else c.(status := s)
  }

  /** One event taken by the loop in `Spin`: a caller's ping, a tick of the
      ticker, or a status offered by the health watcher. */
  datatype Event = Request(ping: Ping) | Tick | Health(news: Status)

  /** One turn of the loop: the event's handler, and the reply a ping gets. */
  function Dispatch(cfg: Config, o: Oracle, c: Core, e: Event, now: int, order: seq<GroupName>): (r: (Core, Option<Pong>))
    requires Sizable(cfg, Restore, order)
    ensures r.1.Some? <==> e.Request?
    ensures e.Health? ==> r.0.trace == c.trace
  {
    match e
    case Request(p) =>
      var (c1, pong) := PingStep(cfg, o, c, p, now, order);
      (c1, Some(pong))
    case Tick => (PollStep(cfg, o, c, now, order), None)
    case Health(s) => (HealthStep(cfg, c, s, now), None)
  }

  // ---- RecvPing ----

  /** While STARTING, STOPPING or UNHEALTHY a ping changes nothing and is
      still answered, with the current state and no error. */
  lemma PingInTransitIsReadOnly(cfg: Config, o: Oracle, c: Core, p: Ping, now: int, order: seq<GroupName>)
    requires Sizable(cfg, Restore, order)
    requires c.status in {STARTING, STOPPING, UNHEALTHY}
    ensures PingStep(cfg, o, c, p, now, order).0 == c
    ensures PingStep(cfg, o, c, p, now, order).1 ==
      Pong(c.status, StatusString(c.status), None, c.lastStarted, c.lastStopped, c.stopAt)
  {
  }

  /** The reply always reports the state as it is after the ping. */
  lemma PongReportsNewState(cfg: Config, o: Oracle, c: Core, p: Ping, now: int, order: seq<GroupName>)
    requires Sizable(cfg, Restore, order)
    ensures var (c1, pong) := PingStep(cfg, o, c, p, now, order);
      pong.status == c1.status && pong.statusName == StatusString(c1.status) &&
      pong.lastStarted == c1.lastStarted && pong.lastStopped == c1.lastStopped &&
      pong.stopAt == c1.stopAt
  {
  }

  /** From STOPPED, a start request runs the start chain once. It always
      stamps lastStarted; on success it enters STARTING with `ready` false
      and the deadline one idle timeout away; on failure the status, `ready`
      and deadline stay and the reply carries the chain's error. */
  lemma PingStartFromStopped(cfg: Config, o: Oracle, c: Core, p: Ping, now: int, order: seq<GroupName>)
    requires Sizable(cfg, Restore, order)
    requires c.status == STOPPED && p.requestStart
    ensures var (c1, pong) := PingStep(cfg, o, c, p, now, order);
      var out := StartChain(cfg, o, c.trace, order);
      c1.trace == c.trace + out.issued && c1.lastStarted == now &&
      c1.lastStopped == c.lastStopped && pong.err == out.err &&
      (out.err.None? ==> c1.status == STARTING && !c1.ready && c1.stopAt == now + cfg.idleTimeout) &&
      (out.err.Some? ==> c1.status == STOPPED && c1.ready == c.ready && c1.stopAt == c.stopAt)
  {
  }

  /** From STOPPED, a ping without a start request changes nothing. */
  lemma PingStoppedWithoutStart(cfg: Config, o: Oracle, c: Core, p: Ping, now: int, order: seq<GroupName>)
    requires Sizable(cfg, Restore, order)
    requires c.status == STOPPED && !p.requestStart
    ensures PingStep(cfg, o, c, p, now, order) == (c, Reply(c, None))
  {
  }

  /** While STARTED the flags apply in order: noop keeps the deadline, then
      a stop request runs the stop chain, then a non-zero timeout sets the
      deadline that far from now, and otherwise the idle timeout does. Only
      the stop request issues any call. */
  lemma PingStartedPrecedence(cfg: Config, o: Oracle, c: Core, p: Ping, now: int, order: seq<GroupName>)
    requires Sizable(cfg, Restore, order)
    requires c.status == STARTED
    ensures var (c1, pong) := PingStep(cfg, o, c, p, now, order);
      (p.noop ==> c1 == c && pong.err.None?) &&
      (!p.noop && p.requestStop ==> (c1, pong.err) == StopStep(cfg, o, c, now, order)) &&
      (!p.noop && !p.requestStop && p.setTimeout != 0 ==> c1 == c.(stopAt := now + p.setTimeout) && pong.err.None?) &&
      (!p.noop && !p.requestStop && p.setTimeout == 0 ==> c1 == c.(stopAt := now + cfg.idleTimeout) && pong.err.None?)
  {
  }

  /** `Stop` stamps lastStopped and runs the stop chain; on success it
      enters STOPPING with `ready` false and the deadline equal to the stop
      instant, on failure the status, `ready` and deadline stay. */
  lemma StopStepOutcome(cfg: Config, o: Oracle, c: Core, now: int, order: seq<GroupName>)
    ensures var (c1, err) := StopStep(cfg, o, c, now, order);
      var out := StopChain(cfg, o, c.trace, order);
      c1.trace == c.trace + out.issued && c1.lastStopped == now &&
      c1.lastStarted == c.lastStarted && err == out.err &&
      (err.None? ==> c1.status == STOPPING && !c1.ready && c1.stopAt == now) &&
      (err.Some? ==> c1.status == c.status && c1.ready == c.ready && c1.stopAt == c.stopAt)
  {
  }

  /** A lifecycle chain only runs from STOPPED (start) or STARTED (stop):
      in every other state a ping issues no call. */
  lemma PingCallsOnlyFromStoppedOrStarted(cfg: Config, o: Oracle, c: Core, p: Ping, now: int, order: seq<GroupName>)
    requires Sizable(cfg, Restore, order)
    ensures var c1 := PingStep(cfg, o, c, p, now, order).0;
      c.trace <= c1.trace &&
      (c1.trace != c.trace ==>
         (c.status == STOPPED && p.requestStart) || (c.status == STARTED && !p.noop && p.requestStop))
  {
  }

  // ---- Poll ----

  /** An expired deadline while STARTED runs the stop chain once and enters
      STOPPING even when the chain failed. */
  lemma PollIdleStops(cfg: Config, o: Oracle, c: Core, now: int, order: seq<GroupName>)
    requires c.status == STARTED && now > c.stopAt
    ensures var c1 := PollStep(cfg, o, c, now, order);
      var out := StopChain(cfg, o, c.trace, order);
      c1.status == STOPPING && c1.trace == c.trace + out.issued && c1.lastStopped == now &&
      c1.stopAt == (if out.err.None? then now else c.stopAt)
  {
  }

  /** A pending deadline while STARTED is left alone by the tick. */
  lemma PollBeforeDeadline(cfg: Config, o: Oracle, c: Core, now: int, order: seq<GroupName>)
    requires c.status == STARTED && now <= c.stopAt
    ensures PollStep(cfg, o, c, now, order) == c
  {
  }

  /** STARTING and STOPPING advance only once `ready` is set; entering
      STARTED arms the deadline one idle timeout away. STOPPED and UNHEALTHY
      never change on a tick. */
  lemma PollTransitions(cfg: Config, o: Oracle, c: Core, now: int, order: seq<GroupName>)
    requires c.status != STARTED
    ensures var c1 := PollStep(cfg, o, c, now, order);
      (c.status == STARTING && c.ready ==> c1 == c.(status := STARTED, stopAt := now + cfg.idleTimeout)) &&
      (c.status == STOPPING && c.ready ==> c1 == c.(status := STOPPED)) &&
      (!c.ready || c.status in {STOPPED, UNHEALTHY} ==> c1 == c)
  {
  }

  // ---- health notifications ----

  /** A notification of the current status is a no-op; any other sets the
      status and touches nothing but, at most, the deadline. The deadline
      is rearmed exactly when the news is STARTED and the deadline has
      already passed. */
  lemma HealthNotification(cfg: Config, c: Core, s: Status, now: int)
    ensures var c1 := HealthStep(cfg, c, s, now);
      (s == c.status ==> c1 == c) &&
      (s != c.status ==> c1.status == s && c1 == c.(status := s, stopAt := c1.stopAt)) &&
      (s != c.status && s == STARTED && c.stopAt < now ==> c1.stopAt == now + cfg.idleTimeout) &&
      (!(s != c.status && s == STARTED && c.stopAt < now) ==> c1.stopAt == c.stopAt)
  {
  }

  /** A rearmed deadline lies one idle timeout ahead: a recovered session
      is left alone by every tick up to that deadline, not stopped on the
      next one. */
  lemma HealthRecoveryNotStoppedAtOnce(cfg: Config, o: Oracle, c: Core, now: int, t: int, order: seq<GroupName>)
    requires c.status == UNHEALTHY && c.stopAt < now
    requires now <= t <= now + cfg.idleTimeout
    ensures var c1 := HealthStep(cfg, c, STARTED, now);
      c1.status == STARTED && c1.stopAt == now + cfg.idleTimeout &&
      PollStep(cfg, o, c1, t, order) == c1
  {
  }

  // ---- scenarios ----

  /** Fresh process, a start request whose chain succeeds: the reply says
      STARTING; a tick before readiness keeps STARTING; once the watcher
      has set `ready`, the next tick yields STARTED with the deadline one
      idle timeout after that tick. */
  lemma ScenarioColdStart(cfg: Config, o: Oracle, t0: int, t1: int, t2: int, t3: int, order: seq<GroupName>)
    requires Sizable(cfg, Restore, order)
    requires StartChain(cfg, o, [], order).err.None?
    ensures var (c1, pong) := PingStep(cfg, o, Initial(t0), Ping(0, true, false, false), t1, order);
      pong.status == STARTING && pong.err.None? &&
      PollStep(cfg, o, c1, t2, order) == c1 &&
      var c3 := PollStep(cfg, o, c1.(ready := true), t3, order);
      c3.status == STARTED && c3.stopAt == t3 + cfg.idleTimeout
  {
  }

  /** STARTED and idle past the deadline: the tick yields STOPPING; once the
      watcher has set `ready`, the following tick yields STOPPED. */
  lemma ScenarioIdleShutdown(cfg: Config, o: Oracle, c: Core, t1: int, t2: int, order: seq<GroupName>)
    requires c.status == STARTED && t1 > c.stopAt
    ensures var c1 := PollStep(cfg, o, c, t1, order);
      c1.status == STOPPING &&
      PollStep(cfg, o, c1.(ready := true), t2, order).status == STOPPED
  {
  }

  /** STARTED and the stop chain fails: the reply carries the error, and the
      status and deadline remain. */
  lemma ScenarioStopFails(cfg: Config, o: Oracle, c: Core, now: int, order: seq<GroupName>)
    requires Sizable(cfg, Restore, order)
    requires c.status == STARTED && StopChain(cfg, o, c.trace, order).err.Some?
    ensures var (c1, pong) := PingStep(cfg, o, c, Ping(0, false, true, false), now, order);
      pong.err == StopChain(cfg, o, c.trace, order).err &&
      c1.status == STARTED && c1.stopAt == c.stopAt
  {
  }
}
