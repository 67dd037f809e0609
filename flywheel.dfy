/** The flywheel authority: one object owning the lifecycle state, updated
    in place by one event at a time (a ping, a tick or a health
    notification). Each handler is proved to perform exactly the transition
    of its counterpart in module Machine. */
module Authority {
  import opened Wrappers
  import opened Cloud
  import opened Statuses
  import opened Lifecycle
  import opened Machine
  import opened Front
  import opened Snapshot

  class Flywheel {
    const config: Config
    const cloud: Oracle
    var status: Status
    var ready: bool
    var stopAt: int
    var lastStarted: int
    var lastStopped: int
    /** Every call issued to the cloud, oldest first. */
    var trace: seq<Call>

    /** The state as a value. */
    function Model(): Core
      reads this
    {
      Core(status, ready, stopAt, lastStarted, lastStopped, trace)
    }

    /** `New`: stopped, not ready, the deadline at the creation instant and
        both timestamps at the zero time. */
    constructor (config: Config, cloud: Oracle, now: int)
      ensures this.config == config && this.cloud == cloud
      ensures Model() == Initial(now)
    {
      this.config := config;
      this.cloud := cloud;
      status := STOPPED;
      ready := false;
      stopAt := now;
      lastStarted := ZERO_TIME;
      lastStopped := ZERO_TIME;
      trace := [];
    }

    /** Send one call and receive its answer. */
    method Issue(c: Call) returns (err: Option<Error>)
      modifies this`trace
      ensures trace == old(trace) + [c]
      ensures err == Fails(cloud, old(trace), c)
    {
      err := Fails(cloud, trace, c);
      trace := trace + [c];
    }

    /** DescribeAutoScalingGroups for one group: its error, or its members. */
    method Describe(g: GroupName) returns (err: Option<Error>, members: seq<InstanceId>)
      modifies this`trace
      ensures trace == old(trace) + [DescribeGroup(g)]
      ensures err == Fails(cloud, old(trace), DescribeGroup(g))
      ensures members == Members(cloud, old(trace), g)
    {
      members := Members(cloud, trace, g);
      err := Issue(DescribeGroup(g));
    }

    /** `startInstances`: no call when no raw instance is configured. */
    method StartRawInstances() returns (err: Option<Error>)
      modifies this`trace
      ensures var out := RunCalls(cloud, old(trace), RawPlan(config, true));
        trace == old(trace) + out.issued && err == out.err
    {
      if |config.instances| == 0 {
        return None;
      }
      err := Issue(StartInstances(config.instances));
    }

    /** `stopInstances`: no call when no raw instance is configured. */
    method StopRawInstances() returns (err: Option<Error>)
      modifies this`trace
      ensures var out := RunCalls(cloud, old(trace), RawPlan(config, false));
        trace == old(trace) + out.issued && err == out.err
    {
      if |config.instances| == 0 {
        return None;
      }
      err := Issue(StopInstances(config.instances));
    }

    /** `unterminateAutoScaling`: give every "terminate" group, in the map's
        traversal order, its configured size as minimum and maximum. */
    method UnterminateAutoScaling(order: seq<GroupName>) returns (err: Option<Error>)
      requires Enumerates(order, config.terminate)
      modifies this`trace
      ensures var out := ForEachGroup(config, Restore, cloud, old(trace), order);
        trace == old(trace) + out.issued && err == out.err
    {
      ghost var h := trace;
      assert Sizable(config, Restore, order);
      var i := 0;
      while i < |order|
        invariant 0 <= i <= |order|
        invariant Sizable(config, Restore, order[..i])
        invariant ForEachGroup(config, Restore, cloud, h, order[..i]).err.None?
        invariant trace == h + ForEachGroup(config, Restore, cloud, h, order[..i]).issued
      {
        var g := order[i];
        var size := config.terminate[g];
        ghost var done := trace;
        err := Issue(UpdateGroupSize(g, size, size));
        ForEachGroupAdvance(config, Restore, cloud, h, order, i, GroupRun(config, Restore, cloud, done, g));
        if err.Some? {
          return;
        }
        i := i + 1;
      }
      assert order[..i] == order;
      err := None;
    }

    /** `terminateAutoScaling`: shrink every "terminate" group, in the map's
        traversal order, to a minimum and maximum of zero. */
    method TerminateAutoScaling(order: seq<GroupName>) returns (err: Option<Error>)
      requires Enumerates(order, config.terminate)
      modifies this`trace
      ensures var out := ForEachGroup(config, Shrink, cloud, old(trace), order);
        trace == old(trace) + out.issued && err == out.err
    {
      ghost var h := trace;
      var i := 0;
      while i < |order|
        invariant 0 <= i <= |order|
        invariant Sizable(config, Shrink, order[..i])
        invariant ForEachGroup(config, Shrink, cloud, h, order[..i]).err.None?
        invariant trace == h + ForEachGroup(config, Shrink, cloud, h, order[..i]).issued
      {
        var g := order[i];
        ghost var done := trace;
        err := Issue(UpdateGroupSize(g, 0, 0));
        ForEachGroupAdvance(config, Shrink, cloud, h, order, i, GroupRun(config, Shrink, cloud, done, g));
        if err.Some? {
          return;
        }
        i := i + 1;
      }
      assert order[..i] == order;
      err := None;
    }

    /** One iteration of `startAutoScaling`: describe group `g`, then start
        the members it reports. */
    method WakeGroup(g: GroupName) returns (err: Option<Error>)
      modifies this`trace
      ensures var out := GroupRun(config, Wake, cloud, old(trace), g);
        trace == old(trace) + out.issued && err == out.err
    {
      var members;
      err, members := Describe(g);
      if err.Some? {
        return;
      }
      err := Issue(StartInstances(members));
    }

    /** `startAutoScaling`: for each "stop" group, describe it and start
        the members it reports. */
    method StartAutoScaling() returns (err: Option<Error>)
      modifies this`trace
      ensures var out := ForEachGroup(config, Wake, cloud, old(trace), config.stop);
        trace == old(trace) + out.issued && err == out.err
    {
      ghost var h := trace;
      var groups := config.stop;
      var i := 0;
      while i < |groups|
        invariant 0 <= i <= |groups|
        invariant ForEachGroup(config, Wake, cloud, h, groups[..i]).err.None?
        invariant trace == h + ForEachGroup(config, Wake, cloud, h, groups[..i]).issued
      {
        ghost var done := trace;
        err := WakeGroup(groups[i]);
        ForEachGroupAdvance(config, Wake, cloud, h, groups, i, GroupRun(config, Wake, cloud, done, groups[i]));
        if err.Some? {
          return;
        }
        i := i + 1;
      }
      assert groups[..i] == groups;
      err := None;
    }

    /** One iteration of `stopAutoScaling`: describe group `g`, suspend its
        ReplaceUnhealthy process, then stop the members it reports. */
    method ParkGroup(g: GroupName) returns (err: Option<Error>)
      modifies this`trace
      ensures var out := GroupRun(config, Park, cloud, old(trace), g);
        trace == old(trace) + out.issued && err == out.err
    {
      var members;
      err, members := Describe(g);
      if err.Some? {
        return;
      }
      err := Issue(SuspendProcesses(g, [REPLACE_UNHEALTHY]));
      if err.Some? {
        return;
      }
      assert trace == old(trace) + [DescribeGroup(g), SuspendProcesses(g, [REPLACE_UNHEALTHY])];
      err := Issue(StopInstances(members));
    }

    /** `stopAutoScaling`: for each "stop" group, describe it, suspend its
        ReplaceUnhealthy process, then stop the members it reports. */
    method StopAutoScaling() returns (err: Option<Error>)
      modifies this`trace
      ensures var out := ForEachGroup(config, Park, cloud, old(trace), config.stop);
        trace == old(trace) + out.issued && err == out.err
    {
      ghost var h := trace;
      var groups := config.stop;
      var i := 0;
      while i < |groups|
        invariant 0 <= i <= |groups|
        invariant ForEachGroup(config, Park, cloud, h, groups[..i]).err.None?
        invariant trace == h + ForEachGroup(config, Park, cloud, h, groups[..i]).issued
      {
        ghost var done := trace;
        err := ParkGroup(groups[i]);
        ForEachGroupAdvance(config, Park, cloud, h, groups, i, GroupRun(config, Park, cloud, done, groups[i]));
        if err.Some? {
          return;
        }
        i := i + 1;
      }
      assert groups[..i] == groups;
      err := None;
    }

    /** The `err == nil` chain of `Start`: raw instances, then the restore
        sweep, then the start sweep, stopping at the first error. */
    method StartSequence(order: seq<GroupName>) returns (err: Option<Error>)
      requires Enumerates(order, config.terminate)
      modifies this`trace
      ensures var out := StartChain(config, cloud, old(trace), order);
        trace == old(trace) + out.issued && err == out.err
    {
      ghost var h := trace;
      ghost var a := RunCalls(cloud, h, RawPlan(config, true));
      ghost var b := ForEachGroup(config, Restore, cloud, h + a.issued, order);
      ghost var c := ForEachGroup(config, Wake, cloud, h + a.issued + b.issued, config.stop);
      ghost var out := StartChain(config, cloud, h, order);
      err := StartRawInstances();
      if err.Some? {
        return;
      }
      err := UnterminateAutoScaling(order);
      if err.Some? {
        AppendAssoc(h, a.issued, b.issued);
        return;
      }
      err := StartAutoScaling();
      AppendAssoc(h, a.issued, b.issued);
      AppendAssoc(h, a.issued + b.issued, c.issued);
    }

    /** The `err == nil` chain of `Stop`: raw instances, then the shrink
        sweep, then the suspend-and-stop sweep, stopping at the first error. */
    method StopSequence(order: seq<GroupName>) returns (err: Option<Error>)
      requires Enumerates(order, config.terminate)
      modifies this`trace
      ensures var out := StopChain(config, cloud, old(trace), order);
        trace == old(trace) + out.issued && err == out.err
    {
      ghost var h := trace;
      ghost var a := RunCalls(cloud, h, RawPlan(config, false));
      ghost var b := ForEachGroup(config, Shrink, cloud, h + a.issued, order);
      ghost var c := ForEachGroup(config, Park, cloud, h + a.issued + b.issued, config.stop);
      ghost var out := StopChain(config, cloud, h, order);
      err := StopRawInstances();
      if err.Some? {
        return;
      }
      err := TerminateAutoScaling(order);
      if err.Some? {
        AppendAssoc(h, a.issued, b.issued);
        return;
      }
      err := StopAutoScaling();
      AppendAssoc(h, a.issued, b.issued);
      AppendAssoc(h, a.issued + b.issued, c.issued);
    }

    /** `Start`: stamp lastStarted, run the chain, and change the lifecycle
        fields only when the whole chain succeeded. */
    method Start(now: int, order: seq<GroupName>) returns (err: Option<Error>)
      requires Enumerates(order, config.terminate)
      modifies this
      ensures (Model(), err) == StartStep(config, cloud, old(Model()), now, order)
    {
      lastStarted := now;
      err := StartSequence(order);
      if err.Some? {
        return;
      }
      ready := false;
      stopAt := now + config.idleTimeout;
      status := STARTING;
    }

    /** `Stop`: stamp lastStopped, run the chain, and change the lifecycle
        fields only when the whole chain succeeded. */
    method Stop(now: int, order: seq<GroupName>) returns (err: Option<Error>)
      requires Enumerates(order, config.terminate)
      modifies this
      ensures (Model(), err) == StopStep(config, cloud, old(Model()), now, order)
    {
      lastStopped := now;
      err := StopSequence(order);
      if err.Some? {
        return;
      }
      ready := false;
      status := STOPPING;
      stopAt := lastStopped;
    }

    /** `RecvPing`: exactly one reply per ping. */
    method RecvPing(ping: Ping, now: int, order: seq<GroupName>) returns (pong: Pong)
      requires Enumerates(order, config.terminate)
      modifies this
      ensures (Model(), pong) == PingStep(config, cloud, old(Model()), ping, now, order)
    {
      var err: Option<Error> := None;
      match status {
      case STOPPED =>
        if ping.requestStart {
          err := Start(now, order);
        }
      case STARTED =>
        if ping.noop {
          // a status read: the idle timer is left alone
        } else if ping.requestStop {
          err := Stop(now, order);
        } else if ping.setTimeout != 0 {
          stopAt := now + ping.setTimeout;
        } else {
          stopAt := now + config.idleTimeout;
        }
      case _ =>
      }
      pong := Pong(status, StatusString(status), err, lastStarted, lastStopped, stopAt);
    }

    /** `Poll`: the periodic tick. The error of an idle stop is dropped. */
    method Poll(now: int, order: seq<GroupName>)
      requires Enumerates(order, config.terminate)
      modifies this
      ensures Model() == PollStep(config, cloud, old(Model()), now, order)
    {
      match status
      case STARTED =>
        if now > stopAt {
          var _ := Stop(now, order);
          status := STOPPING;
        }
      case STOPPING =>
        if ready {
          status := STOPPED;
        }
      case STARTING =>
        if ready {
          status := STARTED;
          stopAt := now + config.idleTimeout;
        }
      case _ =>
    }

    /** The health-notification branch of `Spin`. */
    method RecvHealth(s: Status, now: int)
      modifies this
      ensures Model() == HealthStep(config, old(Model()), s, now)
    {
      if status != s {
        if s == STARTED && stopAt < now {
          stopAt := now + config.idleTimeout;
        }
        status := s;
      }
    }

    /** The readiness flag as the health watcher writes it. */
    method SetReady(r: bool)
      modifies this`ready
      ensures Model() == old(Model()).(ready := r)
    {
      ready := r;
    }

    /** One turn of the loop in `Spin`: the event is handled on its own, and
        a ping, and only a ping, gets its reply. */
    method SpinOnce(e: Event, now: int, order: seq<GroupName>) returns (reply: Option<Pong>)
      requires Enumerates(order, config.terminate)
      modifies this
      ensures (Model(), reply) == Dispatch(config, cloud, old(Model()), e, now, order)
    {
      match e {
      case Request(p) =>
        var pong := RecvPing(p, now, order);
        reply := Some(pong);
      case Tick =>
        Poll(now, order);
        reply := None;
      case Health(s) =>
        RecvHealth(s, now);
        reply := None;
      }
    }

    /** `ServeHTTP`: ping the authority (asking to start only on the start
        directive) and choose the response from the reply. */
    method ServeHTTP(hostname: string, url: Target, now: int, order: seq<GroupName>) returns (resp: Response)
      requires WellFormed(url.query)
      requires Enumerates(order, config.terminate)
      modifies this
      ensures var (c1, pong) := PingStep(config, cloud, old(Model()), SendPing(RequestsStart(url.query)), now, order);
        Model() == c1 && resp == Respond(config, hostname, url, pong)
    {
      var start := RequestsStart(url.query);
      var pong := RecvPing(SendPing(start), now, order);
      resp := Respond(config, hostname, url, pong);
    }

    /** `WriteStatusFile`: the record written at shutdown. */
    method WriteStatusFile() returns (file: StatusFile)
      ensures file == Save(Model())
      ensures Load(Model(), Some(file)) == Model()
    {
      file := StatusFile(StatusString(status), lastStarted, lastStopped, ZERO_TIME);
      SaveLoadRoundTrip(Model(), Model());
    }

    /** `ReadStatusFile`: restore the status and both timestamps from the
        file, or keep everything when there is no usable file. */
    method ReadStatusFile(file: Option<StatusFile>)
      modifies this
      ensures Model() == Load(old(Model()), file)
    {
      if file.None? {
        return;
      }
      var f := file.value;
      var s := StatusFromName(f.status);
      if s.None? {
        return;
      }
      status := s.value;
      lastStarted := f.lastStarted;
      lastStopped := f.lastStopped;
    }
  }
}
