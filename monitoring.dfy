/** The parts of the monitoring API that the throttle reads and writes: a monitor
    (its name, its level and the boolean attributes a throttle stores on it), the
    monitoring levels, the two diagnostic events a throttle fires, and a downstream
    processor that records what reaches it. */
module Monitoring {

  datatype Option<T> = None | Some(value: T)

  datatype Result<T, E> = Success(value: T) | Failure(error: E)

  /** Monitoring levels as priorities: a larger number is a higher priority. */
  const INFO: int := 1
  const ESSENTIAL: int := 2

  predicate HasHigherOrEqualPriorityThan(level: int, other: int)
  {
    level >= other
  }

  /** A monitor instance. Its name may be absent (a null NAME attribute); the throttle
      only reads the name and the level and writes one boolean attribute. */
  class Monitor {
    const name: Option<string>
    const level: int
    var attributes: map<string, bool>

    constructor (name: Option<string>, level: int)
      ensures this.name == name && this.level == level && attributes == map[]
    {
      this.name := name;
      this.level := level;
      attributes := map[];
    }
  }

  /** Names of the two diagnostic events (the constants of the MonitorThrottle interface). */
  const THROTTLE_MONITOR_NAME: string := "com.orbitz.monitoring.api.MonitorThrottle"
  const TOO_MANY_UNIQUE_NAMES: string := "alarm.monitoring.api.TooManyUniqueNames"

  /** A diagnostic event produced by a window tick, with the attributes set on it. */
  datatype Diagnostic =
    | ThrottledName(throttledMonitorName: string, throttledCount: int, totalThrottledCount: int)
    | TooManyUniqueNames(uniqueOverflowCount: int, essentialOnly: bool)
  {
    function EventName(): string
    {
      if ThrottledName? then THROTTLE_MONITOR_NAME else TOO_MANY_UNIQUE_NAMES
    }
  }

  /** The downstream processor behind a throttling processor: it records every monitor
      handed to each of its three hooks, in order. */
  class RecordingProcessor {
    var created: seq<Monitor>
    var started: seq<Monitor>
    var processed: seq<Monitor>

    constructor ()
      ensures created == [] && started == [] && processed == []
    {
      created, started, processed := [], [], [];
    }

    method MonitorCreated(m: Monitor)
      modifies this`created
      ensures created == old(created) + [m]
    {
      created := created + [m];
    }

    method MonitorStarted(m: Monitor)
      modifies this`started
      ensures started == old(started) + [m]
    {
      started := started + [m];
    }

    method Process(m: Monitor)
      modifies this`processed
      ensures processed == old(processed) + [m]
    {
      processed := processed + [m];
    }
  }
}
