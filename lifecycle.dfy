/** The start and stop sequences as values: which calls they issue, in what
    order, and where they halt. The imperative methods of the Flywheel class
    are proved to issue exactly these calls. */
module Lifecycle {
  import opened Wrappers
  import opened Cloud

  /** Issue `calls` in order after history `h`, halting at the first one
      the oracle fails (the shape of an `if err != nil { return err }` chain). */
  function RunCalls(o: Oracle, h: seq<Call>, calls: seq<Call>): (r: Outcome)
    ensures r.issued <= calls
    ensures calls != [] ==> r.issued != []
    ensures r.err.None? ==> r.issued == calls
    decreases |calls|
  {
    if calls == [] then Outcome([], None)
    else
      var e := Fails(o, h, calls[0]);
      if e.Some? then Outcome([calls[0]], e)
      else
        var rest := RunCalls(o, h + [calls[0]], calls[1..]);
        Outcome([calls[0]] + rest.issued, rest.err)
  }

  /** RunCalls issues nothing after the first failure and reports it. */
  lemma {:induction false} RunCallsHalts(o: Oracle, h: seq<Call>, calls: seq<Call>)
    ensures HaltsAtFirstError(o, h, RunCalls(o, h, calls))
    decreases |calls|
  {
    if calls != [] {
      var c := calls[0];
      var first := Outcome([c], Fails(o, h, c));
      assert [c][..0] == [] && h + [] == h;
      if Fails(o, h, c).None? {
        RunCallsHalts(o, h + [c], calls[1..]);
        AndThenHalts(o, h, first, RunCalls(o, h + [c], calls[1..]));
      }
    }
  }

  /** Running `x + y` is running `x`, then, if `x` succeeded, `y`. */
  lemma {:induction false} RunCallsAppend(o: Oracle, h: seq<Call>, x: seq<Call>, y: seq<Call>)
    ensures RunCalls(o, h, x + y) == AndThen(RunCalls(o, h, x), RunCalls(o, h + x, y))
    decreases |x|
  {
    if x == [] {
      assert x + y == y && h + x == h;
    } else {
      var c := x[0];
      assert (x + y)[0] == c && (x + y)[1..] == x[1..] + y;
      if Fails(o, h, c).None? {
        RunCallsAppend(o, h + [c], x[1..], y);
        assert h + [c] + x[1..] == h + x;
      }
    }
  }

  /** The four per-group loops of the source: restoring and shrinking the
      "terminate" groups, starting and stopping the members of the "stop"
      groups. */
  datatype Sweep = Restore | Shrink | Wake | Park

  /** The calls one group receives in a sweep when none of them fails;
      `h` is the history before the group's first call, so the member list
      is what the DescribeGroup issued right after `h` reports. */
  function GroupPlan(cfg: Config, sweep: Sweep, o: Oracle, h: seq<Call>, g: GroupName): seq<Call>
    requires sweep.Restore? ==> g in cfg.terminate
  {
    match sweep
    case Restore => [UpdateGroupSize(g, cfg.terminate[g], cfg.terminate[g])]
    case Shrink => [UpdateGroupSize(g, 0, 0)]
    case Wake => [DescribeGroup(g), StartInstances(Members(o, h, g))]
    case Park => [DescribeGroup(g), SuspendProcesses(g, [REPLACE_UNHEALTHY]), StopInstances(Members(o, h, g))]
  }

  /** One group's turn in a sweep, as the loop body runs it: each call is
      issued only when the previous one succeeded. */
  function GroupRun(cfg: Config, sweep: Sweep, o: Oracle, h: seq<Call>, g: GroupName): Outcome
    requires sweep.Restore? ==> g in cfg.terminate
  {
    match sweep
    case Restore =>
      var u := UpdateGroupSize(g, cfg.terminate[g], cfg.terminate[g]);
      Outcome([u], Fails(o, h, u))
    case Shrink =>
      var u := UpdateGroupSize(g, 0, 0);
      Outcome([u], Fails(o, h, u))
    case Wake =>
      var d := DescribeGroup(g);
      if Fails(o, h, d).Some? then Outcome([d], Fails(o, h, d))
      else
        var st := StartInstances(Members(o, h, g));
        Outcome([d, st], Fails(o, h + [d], st))
    case Park =>
      var d := DescribeGroup(g);
      var su := SuspendProcesses(g, [REPLACE_UNHEALTHY]);
      if Fails(o, h, d).Some? then Outcome([d], Fails(o, h, d))
      else if Fails(o, h + [d], su).Some? then Outcome([d, su], Fails(o, h + [d], su))
      else
        var st := StopInstances(Members(o, h, g));
        Outcome([d, su, st], Fails(o, h + [d, su], st))
  }

  /** RunCalls on a single call. */
  lemma RunCallsSingle(o: Oracle, h: seq<Call>, c: Call)
    ensures RunCalls(o, h, [c]) == Outcome([c], Fails(o, h, c))
  {
    assert [c][1..] == [];
    assert RunCalls(o, h + [c], []) == Outcome([], None);
  }

  /** A group's turn issues its plan, halting at the first failed call. */
  lemma GroupRunFollowsPlan(cfg: Config, sweep: Sweep, o: Oracle, h: seq<Call>, g: GroupName)
    requires sweep.Restore? ==> g in cfg.terminate
    ensures GroupRun(cfg, sweep, o, h, g) == RunCalls(o, h, GroupPlan(cfg, sweep, o, h, g))
  {
    var p := GroupPlan(cfg, sweep, o, h, g);
    if sweep.Restore? || sweep.Shrink? {
      RunCallsSingle(o, h, p[0]);
    } else if sweep.Wake? {
      assert p[1..] == [p[1]];
      RunCallsSingle(o, h + [p[0]], p[1]);
    } else {
      assert p[1..] == [p[1], p[2]] && p[1..][1..] == [p[2]];
      RunCallsSingle(o, h + [p[0]] + [p[1]], p[2]);
      assert h + [p[0]] + [p[1]] == h + [p[0], p[1]];
    }
  }

  ghost predicate Sizable(cfg: Config, sweep: Sweep, groups: seq<GroupName>)
  {
    sweep.Restore? ==> forall g :: g in groups ==> g in cfg.terminate
  }

  /** A sweep as the source's loop runs it: group after group, returning at
      the first error. */
  function ForEachGroup(cfg: Config, sweep: Sweep, o: Oracle, h: seq<Call>, groups: seq<GroupName>): Outcome
    requires Sizable(cfg, sweep, groups)
    decreases |groups|
  {
    if groups == [] then Outcome([], None)
    else
      var done := ForEachGroup(cfg, sweep, o, h, groups[..|groups| - 1]);
      AndThen(done, GroupRun(cfg, sweep, o, h + done.issued, groups[|groups| - 1]))
  }

  /** The calls of a sweep when none fails. */
  function SweepPlan(cfg: Config, sweep: Sweep, o: Oracle, h: seq<Call>, groups: seq<GroupName>): seq<Call>
    requires Sizable(cfg, sweep, groups)
    decreases |groups|
  {
    if groups == [] then []
    else
      var p := SweepPlan(cfg, sweep, o, h, groups[..|groups| - 1]);
      p + GroupPlan(cfg, sweep, o, h + p, groups[|groups| - 1])
  }

  /** A sweep issues its plan, halting at the first failed call. */
  lemma {:induction false} ForEachGroupFollowsPlan(cfg: Config, sweep: Sweep, o: Oracle, h: seq<Call>, groups: seq<GroupName>)
    requires Sizable(cfg, sweep, groups)
    ensures ForEachGroup(cfg, sweep, o, h, groups) == RunCalls(o, h, SweepPlan(cfg, sweep, o, h, groups))
    decreases |groups|
  {
    if groups != [] {
      var init := groups[..|groups| - 1];
      var last := groups[|groups| - 1];
      ForEachGroupFollowsPlan(cfg, sweep, o, h, init);
      var p := SweepPlan(cfg, sweep, o, h, init);
      GroupRunFollowsPlan(cfg, sweep, o, h + p, last);
      RunCallsAppend(o, h, p, GroupPlan(cfg, sweep, o, h + p, last));
    }
  }

  /** Once the groups before position `k` produced an error, the sweep's
      result is that error: no later group is touched. */
  lemma {:induction false} ForEachGroupErrorSticks(cfg: Config, sweep: Sweep, o: Oracle, h: seq<Call>, groups: seq<GroupName>, k: nat)
    requires Sizable(cfg, sweep, groups)
    requires k <= |groups|
    requires ForEachGroup(cfg, sweep, o, h, groups[..k]).err.Some?
    ensures ForEachGroup(cfg, sweep, o, h, groups) == ForEachGroup(cfg, sweep, o, h, groups[..k])
    decreases |groups| - k
  {
    if k < |groups| {
      var init := groups[..|groups| - 1];
      assert init[..k] == groups[..k];
      ForEachGroupErrorSticks(cfg, sweep, o, h, init, k);
    } else {
      assert groups[..k] == groups;
    }
  }

  /** The plan of the first `k` groups followed by the calls of group `k`
      is the plan of the first `k + 1` groups, and it is a prefix of the
      whole plan: groups are handled one after another, each one's calls
      contiguous and in GroupPlan's order. */
  lemma {:induction false} SweepPlanSplit(cfg: Config, sweep: Sweep, o: Oracle, h: seq<Call>, groups: seq<GroupName>, k: nat)
    requires Sizable(cfg, sweep, groups)
    requires k < |groups|
    ensures SweepPlan(cfg, sweep, o, h, groups[..k + 1]) ==
      SweepPlan(cfg, sweep, o, h, groups[..k]) +
      GroupPlan(cfg, sweep, o, h + SweepPlan(cfg, sweep, o, h, groups[..k]), groups[k])
    ensures SweepPlan(cfg, sweep, o, h, groups[..k + 1]) <= SweepPlan(cfg, sweep, o, h, groups)
    decreases |groups| - k
  {
    assert groups[..k + 1][..k] == groups[..k];
    if k + 1 < |groups| {
      var init := groups[..|groups| - 1];
      assert init[..k + 1] == groups[..k + 1];
      assert init[..k] == groups[..k];
      SweepPlanSplit(cfg, sweep, o, h, init, k);
    } else {
      assert groups[..k + 1] == groups;
    }
  }

  /** The loop step of a sweep: when the first `i` groups succeeded and
      group `i`'s turn had outcome `step`, the first `i + 1` groups issued
      both, and an error in `step` is the whole sweep's result. */
  lemma ForEachGroupAdvance(cfg: Config, sweep: Sweep, o: Oracle, h: seq<Call>, groups: seq<GroupName>, i: nat, step: Outcome)
    requires Sizable(cfg, sweep, groups)
    requires i < |groups|
    requires Sizable(cfg, sweep, groups[..i]) && ForEachGroup(cfg, sweep, o, h, groups[..i]).err.None?
    requires step == GroupRun(cfg, sweep, o, h + ForEachGroup(cfg, sweep, o, h, groups[..i]).issued, groups[i])
    ensures Sizable(cfg, sweep, groups[..i + 1])
    ensures ForEachGroup(cfg, sweep, o, h, groups[..i + 1]) ==
      Outcome(ForEachGroup(cfg, sweep, o, h, groups[..i]).issued + step.issued, step.err)
    ensures step.err.Some? ==> ForEachGroup(cfg, sweep, o, h, groups) == ForEachGroup(cfg, sweep, o, h, groups[..i + 1])
  {
    assert groups[..i + 1][..i] == groups[..i];
    assert forall g :: g in groups[..i + 1] ==> g in groups;
    if step.err.Some? {
      ForEachGroupErrorSticks(cfg, sweep, o, h, groups, i + 1);
    }
  }

  /** Restoring the "terminate" groups resizes each configured group to its
      configured size and nothing else, whatever order the map yields. */
  lemma {:induction false} RestorePlanCoversGroups(cfg: Config, o: Oracle, h: seq<Call>, order: seq<GroupName>)
    requires Sizable(cfg, Restore, order)
    ensures forall c :: c in SweepPlan(cfg, Restore, o, h, order) <==>
      exists g :: g in order && c == UpdateGroupSize(g, cfg.terminate[g], cfg.terminate[g])
    decreases |order|
  {
    if order != [] {
      var init := order[..|order| - 1];
      var last := order[|order| - 1];
      RestorePlanCoversGroups(cfg, o, h, init);
      assert order == init + [last];
    }
  }

  /** Shrinking the "terminate" groups sets each one's minimum and maximum
      to zero and nothing else. */
  lemma {:induction false} ShrinkPlanCoversGroups(cfg: Config, o: Oracle, h: seq<Call>, order: seq<GroupName>)
    ensures forall c :: c in SweepPlan(cfg, Shrink, o, h, order) <==>
      exists g :: g in order && c == UpdateGroupSize(g, 0, 0)
    decreases |order|
  {
    if order != [] {
      var init := order[..|order| - 1];
      var last := order[|order| - 1];
      ShrinkPlanCoversGroups(cfg, o, h, init);
      assert order == init + [last];
    }
  }

  /** When `order` enumerates the "terminate" map, as a `range` over it
      does, the restore sweep resizes every configured group, once, to its
      configured size, and the shrink sweep sets every configured group to
      zero, once; no other group is touched. */
  lemma TerminateSweepsCoverMap(cfg: Config, o: Oracle, h: seq<Call>, order: seq<GroupName>)
    requires Enumerates(order, cfg.terminate)
    ensures Sizable(cfg, Restore, order)
    ensures forall c :: c in SweepPlan(cfg, Restore, o, h, order) <==>
      exists g :: g in cfg.terminate && c == UpdateGroupSize(g, cfg.terminate[g], cfg.terminate[g])
    ensures forall c :: c in SweepPlan(cfg, Shrink, o, h, order) <==>
      exists g :: g in cfg.terminate && c == UpdateGroupSize(g, 0, 0)
    ensures |SweepPlan(cfg, Restore, o, h, order)| == |SweepPlan(cfg, Shrink, o, h, order)| == |cfg.terminate|
  {
    RestorePlanCoversGroups(cfg, o, h, order);
    ShrinkPlanCoversGroups(cfg, o, h, order);
    SingleCallPlanLength(cfg, Restore, o, h, order);
    SingleCallPlanLength(cfg, Shrink, o, h, order);
    EnumerationSize(order, cfg.terminate);
  }

  /** Each group costs a single call in the restore and shrink sweeps. */
  lemma {:induction false} SingleCallPlanLength(cfg: Config, sweep: Sweep, o: Oracle, h: seq<Call>, order: seq<GroupName>)
    requires sweep.Restore? || sweep.Shrink?
    requires Sizable(cfg, sweep, order)
    ensures |SweepPlan(cfg, sweep, o, h, order)| == |order|
    decreases |order|
  {
    if order != [] {
      SingleCallPlanLength(cfg, sweep, o, h, order[..|order| - 1]);
    }
  }

  /** An enumeration without repeats is as long as the map is large. */
  lemma {:induction false} EnumerationSize(order: seq<GroupName>, m: map<GroupName, int>)
    requires Enumerates(order, m)
    ensures |order| == |m|
    decreases |order|
  {
    if order == [] {
      assert m.Keys == {};
    } else {
      var last := order[|order| - 1];
      var init := order[..|order| - 1];
      var rest := m - {last};
      assert last in m;
      assert Enumerates(init, rest) by {
        forall g ensures g in init <==> g in rest {
          if g in init {
            var i :| 0 <= i < |init| && init[i] == g;
            assert order[i] == g;
          }
        }
      }
      EnumerationSize(init, rest);
      assert rest.Keys == m.Keys - {last};
    }
  }

  /** The raw-instance step: one call for all configured instances, no call
      at all when there are none. */
  function RawPlan(cfg: Config, starting: bool): (p: seq<Call>)
    ensures p == [] <==> |cfg.instances| == 0
    ensures p != [] ==> p == [if starting then StartInstances(cfg.instances) else StopInstances(cfg.instances)]
  {
    if |cfg.instances| == 0 then []
    else if starting then [StartInstances(cfg.instances)]
    else [StopInstances(cfg.instances)]
  }

  /** `Start`'s chain: raw instances, then group restore, then group start. */
  function StartChain(cfg: Config, o: Oracle, h: seq<Call>, order: seq<GroupName>): Outcome
    requires Sizable(cfg, Restore, order)
  {
    var a := RunCalls(o, h, RawPlan(cfg, true));
    var b := ForEachGroup(cfg, Restore, o, h + a.issued, order);
    var c := ForEachGroup(cfg, Wake, o, h + a.issued + b.issued, cfg.stop);
    Chain3(a, b, c)
  }

  /** `Stop`'s chain: raw instances, then shrink to zero, then per group
      describe, suspend and stop. */
  function StopChain(cfg: Config, o: Oracle, h: seq<Call>, order: seq<GroupName>): Outcome
  {
    var a := RunCalls(o, h, RawPlan(cfg, false));
    var b := ForEachGroup(cfg, Shrink, o, h + a.issued, order);
    var c := ForEachGroup(cfg, Park, o, h + a.issued + b.issued, cfg.stop);
    Chain3(a, b, c)
  }

  /** The calls of three phases run back to back, each on the history the
      previous ones left when successful. */
  function ChainPlan(cfg: Config, o: Oracle, h: seq<Call>, starting: bool, order: seq<GroupName>): seq<Call>
    requires starting ==> Sizable(cfg, Restore, order)
  {
    var p1 := RawPlan(cfg, starting);
    var p2 := SweepPlan(cfg, if starting then Restore else Shrink, o, h + p1, order);
    var p3 := SweepPlan(cfg, if starting then Wake else Park, o, h + p1 + p2, cfg.stop);
    p1 + (p2 + p3)
  }

  lemma ThreePhases(o: Oracle, h: seq<Call>, p1: seq<Call>, p2: seq<Call>, p3: seq<Call>)
    ensures RunCalls(o, h, p1 + (p2 + p3)) ==
      AndThen(RunCalls(o, h, p1), AndThen(RunCalls(o, h + p1, p2), RunCalls(o, h + p1 + p2, p3)))
  {
    RunCallsAppend(o, h, p1, p2 + p3);
    RunCallsAppend(o, h + p1, p2, p3);
  }

  /** `Start` issues a prefix of its plan (raw instances, then every restore,
      then describe-and-start per stop group), stops at the first failure,
      and issues the whole plan exactly when it succeeds. */
  lemma StartFollowsPlan(cfg: Config, o: Oracle, h: seq<Call>, order: seq<GroupName>)
    requires Sizable(cfg, Restore, order)
    ensures StartChain(cfg, o, h, order) == RunCalls(o, h, ChainPlan(cfg, o, h, true, order))
    ensures HaltsAtFirstError(o, h, StartChain(cfg, o, h, order))
  {
    var p1 := RawPlan(cfg, true);
    ForEachGroupFollowsPlan(cfg, Restore, o, h + p1, order);
    var p2 := SweepPlan(cfg, Restore, o, h + p1, order);
    ForEachGroupFollowsPlan(cfg, Wake, o, h + p1 + p2, cfg.stop);
    ThreePhases(o, h, p1, p2, SweepPlan(cfg, Wake, o, h + p1 + p2, cfg.stop));
    RunCallsHalts(o, h, ChainPlan(cfg, o, h, true, order));
  }

  /** The same for `Stop`: raw stop, then every shrink, then describe,
      suspend and stop per stop group. */
  lemma StopFollowsPlan(cfg: Config, o: Oracle, h: seq<Call>, order: seq<GroupName>)
    ensures StopChain(cfg, o, h, order) == RunCalls(o, h, ChainPlan(cfg, o, h, false, order))
    ensures HaltsAtFirstError(o, h, StopChain(cfg, o, h, order))
  {
    var p1 := RawPlan(cfg, false);
    ForEachGroupFollowsPlan(cfg, Shrink, o, h + p1, order);
    var p2 := SweepPlan(cfg, Shrink, o, h + p1, order);
    ForEachGroupFollowsPlan(cfg, Park, o, h + p1 + p2, cfg.stop);
    ThreePhases(o, h, p1, p2, SweepPlan(cfg, Park, o, h + p1 + p2, cfg.stop));
    RunCallsHalts(o, h, ChainPlan(cfg, o, h, false, order));
  }
}
