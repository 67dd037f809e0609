/** The status file written at shutdown and read at start-up. The JSON
    encoding is taken to be lossless for the fields it carries, so a file is
    modelled as the record of those fields; an absent, unreadable or
    undecodable file is `None`. */
module Snapshot {
  import opened Wrappers
  import opened Statuses
  import opened Machine

  /** The integer behind each status constant, declared in order from zero. */
  function Code(s: Status): (n: int)
    ensures 0 <= n < 5
  {
    match s
    case STOPPED => 0
    case STARTING => 1
    case STARTED => 2
    case STOPPING => 3
    case UNHEALTHY => 4
  }

  /** The status constant an integer stands for, if any. */
  function FromCode(n: int): (r: Option<Status>)
    ensures r.Some? <==> 0 <= n < 5
    ensures r.Some? ==> Code(r.value) == n
  {
    if n == 0 then Some(STOPPED)
    else if n == 1 then Some(STARTING)
    else if n == 2 then Some(STARTED)
    else if n == 3 then Some(STOPPING)
    else if n == 4 then Some(UNHEALTHY)
    else None
  }

  /** The fields of a Pong that reach the file. The integer status is
      excluded from the encoding; only its name is written. The deadline is
      written but never set, so it is always the zero time. */
  datatype StatusFile = StatusFile(status: string, lastStarted: int, lastStopped: int, stopDueAt: int)

  /** `WriteStatusFile`: the status name and both timestamps. */
  function Save(c: Core): (f: StatusFile)
    ensures StatusFromName(f.status) == Some(c.status)
    ensures f.lastStarted == c.lastStarted && f.lastStopped == c.lastStopped
    ensures f.stopDueAt == ZERO_TIME
  {
    StatusNameRoundTrip(c.status);
    StatusFile(StatusString(c.status), c.lastStarted, c.lastStopped, ZERO_TIME)
  }

  /** The integer status the decoder yields: the field is excluded from the
      encoding, so it keeps Go's zero value whatever the file says. */
  const DECODED_STATUS_CODE: int := 0

  /** `ReadStatusFile` as the source writes it: the status is taken from the
      integer field, which decoding never fills, so every restored status
      is the constant numbered zero. A missing or bad file changes nothing. */
  function LoadAsWritten(c: Core, file: Option<StatusFile>): (c1: Core)
    ensures file.None? ==> c1 == c
    ensures file.Some? ==> c1.status == STOPPED
    ensures file.Some? ==> c1 == c.(status := STOPPED, lastStarted := file.value.lastStarted,
                                   lastStopped := file.value.lastStopped)
  {
    match file
    case None => c
    case Some(f) =>
      var s := FromCode(DECODED_STATUS_CODE);
      c.(status := s.value, lastStarted := f.lastStarted, lastStopped := f.lastStopped)
  }

  /** The discrepancy: saving a STARTED flywheel and loading the file back
      yields STOPPED, although the file names STARTED. */
  lemma SaveLoadAsWrittenLosesStatus(c: Core, base: Core)
    requires c.status == STARTED
    ensures Save(c).status == "STARTED"
    ensures LoadAsWritten(base, Some(Save(c))).status == STOPPED
  {
  }

  /** `ReadStatusFile` as intended: the status is recovered from the name the
      file carries; a name that is no status makes the file unusable, like
      any other decoding failure, and nothing changes. */
  function Load(c: Core, file: Option<StatusFile>): (c1: Core)
    ensures file.None? ==> c1 == c
    ensures file.Some? && StatusFromName(file.value.status).Some? ==>
      c1 == c.(status := StatusFromName(file.value.status).value,
               lastStarted := file.value.lastStarted, lastStopped := file.value.lastStopped)
    ensures file.Some? && StatusFromName(file.value.status).None? ==> c1 == c
    ensures c1.ready == c.ready && c1.stopAt == c.stopAt && c1.trace == c.trace
  {
    match file
    case None => c
    case Some(f) =>
      match StatusFromName(f.status)
      case None => c
      case Some(s) => c.(status := s, lastStarted := f.lastStarted, lastStopped := f.lastStopped)
  }

  /** Saving and loading restores the status and both timestamps, and
      leaves the fields the file does not carry as they were. */
  lemma SaveLoadRoundTrip(c: Core, base: Core)
    ensures Load(base, Some(Save(c))) ==
      base.(status := c.status, lastStarted := c.lastStarted, lastStopped := c.lastStopped)
  {
  }
}
