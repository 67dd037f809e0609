/** The resource-management API as the flywheel sees it: the calls it can
    issue, an oracle that answers them, and the configuration it reads. */
module Cloud {
  import opened Wrappers

  type InstanceId = string
  type GroupName = string
  type Error = string

  /** The process name the stop sequence suspends in every stop group. */
  const REPLACE_UNHEALTHY: string := "ReplaceUnhealthy"

  /** One request to EC2 or Auto Scaling. */
  datatype Call =
    | StartInstances(ids: seq<InstanceId>)
    | StopInstances(ids: seq<InstanceId>)
    | DescribeGroup(group: GroupName)
    | UpdateGroupSize(group: GroupName, minSize: int, maxSize: int)
    | SuspendProcesses(group: GroupName, processes: seq<string>)

  /** The external service. Its answer to a call may depend on every call
      issued before it (the history), so nothing is assumed about it:
      `fails` gives the error of a call (None on success) and `members`
      gives the instances a successful DescribeGroup reports. */
  datatype Oracle = Oracle(
    fails: (seq<Call>, Call) -> Option<Error>,
    members: (seq<Call>, GroupName) -> seq<InstanceId>)

  /** The error the oracle answers to `c` issued after history `h`. */
  function Fails(o: Oracle, h: seq<Call>, c: Call): Option<Error>
  {
    o.fails(h, c)
  }

  /** The members a DescribeGroup of `g` issued after `h` reports. */
  function Members(o: Oracle, h: seq<Call>, g: GroupName): seq<InstanceId>
  {
    o.members(h, g)
  }

  /** The read-only configuration: raw instances, the groups restored to a
      size on start and shrunk to zero on stop ("terminate"), the groups
      whose members are started and stopped ("stop"), the endpoint map and
      the idle timeout (a duration in the same unit as every timestamp). */
  datatype Config = Config(
    instances: seq<InstanceId>,
    terminate: map<GroupName, int>,
    stop: seq<GroupName>,
    vhosts: map<string, string>,
    endpoint: string,
    idleTimeout: int)

  /** `order` is one enumeration of the keys of `m`: every key once, nothing
      else. Go's `range` over a map yields such an order, a different one on
      every traversal. */
  ghost predicate Enumerates(order: seq<GroupName>, m: map<GroupName, int>)
  {
    (forall g :: g in order <==> g in m) &&
    (forall i, j :: 0 <= i < j < |order| ==> order[i] != order[j])
  }

  /** What a sequence of steps did: the calls it issued, in order, and the
      error it returned (None when every step succeeded). */
  datatype Outcome = Outcome(issued: seq<Call>, err: Option<Error>)

  /** Every call in `calls`, issued after `h`, was answered with success. */
  ghost predicate AllSucceeded(o: Oracle, h: seq<Call>, calls: seq<Call>)
  {
    forall i :: 0 <= i < |calls| ==> Fails(o, h + calls[..i], calls[i]).None?
  }

  /** The halting discipline of an `err == nil` chain: on success every
      issued call succeeded; on failure every call but the last succeeded,
      the last one failed, and its error is the one returned. So nothing is
      issued after the first failure. */
  ghost predicate HaltsAtFirstError(o: Oracle, h: seq<Call>, out: Outcome)
  {
    if out.err.None? then AllSucceeded(o, h, out.issued)
    else
      |out.issued| > 0 &&
      AllSucceeded(o, h, out.issued[..|out.issued| - 1]) &&
      Fails(o, h + out.issued[..|out.issued| - 1], out.issued[|out.issued| - 1]) == out.err
  }

  /** Run `b` after `a`: the calls of both when `a` succeeded, `a` alone
      when it failed. */
  function AndThen(a: Outcome, b: Outcome): (r: Outcome)
    ensures a.err.Some? ==> r == a
    ensures a.err.None? ==> r.issued == a.issued + b.issued && r.err == b.err
  {
    if a.err.Some? then a else Outcome(a.issued + b.issued, b.err)
  }

  /** Three steps chained with `err == nil` tests, as `Start` and `Stop` run
      them: the first failed step ends the chain. It is `a`, then `b`, then
      `c` sequenced pairwise. */
  function Chain3(a: Outcome, b: Outcome, c: Outcome): (r: Outcome)
    ensures r == AndThen(a, AndThen(b, c))
  {
    if a.err.Some? then a
    else if b.err.Some? then Outcome(a.issued + b.issued, b.err)
    else Outcome(a.issued + b.issued + c.issued, c.err)
  }

  /** Appending histories regroups freely. */
  lemma AppendAssoc(x: seq<Call>, y: seq<Call>, z: seq<Call>)
    ensures x + y + z == x + (y + z)
  {
  }

  /** A run of successes followed by another run of successes. */
  lemma AllSucceededConcat(o: Oracle, h: seq<Call>, x: seq<Call>, y: seq<Call>)
    requires AllSucceeded(o, h, x) && AllSucceeded(o, h + x, y)
    ensures AllSucceeded(o, h, x + y)
  {
    var xy := x + y;
    forall i | 0 <= i < |xy|
      ensures Fails(o, h + xy[..i], xy[i]).None?
    {
      if i < |x| {
        assert xy[..i] == x[..i];
      } else {
        assert xy[..i] == x + y[..i - |x|];
        assert h + xy[..i] == (h + x) + y[..i - |x|];
      }
    }
  }

  /** Sequencing keeps the halting discipline: a failed first part issued
      nothing more, and a succeeded one hands over to the second part. */
  lemma AndThenHalts(o: Oracle, h: seq<Call>, a: Outcome, b: Outcome)
    requires HaltsAtFirstError(o, h, a)
    requires a.err.None? ==> HaltsAtFirstError(o, h + a.issued, b)
    ensures HaltsAtFirstError(o, h, AndThen(a, b))
  {
    if a.err.None? {
      var r := AndThen(a, b);
      if b.err.None? {
        AllSucceededConcat(o, h, a.issued, b.issued);
      } else {
        var bpre := b.issued[..|b.issued| - 1];
        AllSucceededConcat(o, h, a.issued, bpre);
        assert r.issued[..|r.issued| - 1] == a.issued + bpre;
        assert h + (a.issued + bpre) == (h + a.issued) + bpre;
      }
    }
  }
}
