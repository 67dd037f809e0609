/** The five lifecycle states of the flywheel and their display names. */
module Statuses {
  import opened Wrappers

  datatype Status = STOPPED | STARTING | STARTED | STOPPING | UNHEALTHY

  /** The human-readable name carried in every reply. The Go helper is not
      part of this model; its names are taken to be the constants' own. */
  function StatusString(s: Status): string
  {
    match s
    case STOPPED => "STOPPED"
    case STARTING => "STARTING"
    case STARTED => "STARTED"
    case STOPPING => "STOPPING"
    case UNHEALTHY => "UNHEALTHY"
  }

  /** Inverse of StatusString on the five names; None for any other text. */
  function StatusFromName(name: string): (r: Option<Status>)
    ensures r.Some? ==> StatusString(r.value) == name
  {
    if name == "STOPPED" then Some(STOPPED)
    else if name == "STARTING" then Some(STARTING)
    else if name == "STARTED" then Some(STARTED)
    else if name == "STOPPING" then Some(STOPPING)
    else if name == "UNHEALTHY" then Some(UNHEALTHY)
    else None
  }

  /** Names never collide, so a status can be recovered from its name. */
  lemma StatusNameRoundTrip(s: Status)
    ensures StatusFromName(StatusString(s)) == Some(s)
  {
  }
}
