/** A monitor processor that wraps another processor and passes a monitor on only
    when a throttle allows it. By default only the process step is throttled; the
    created and started hooks pass every monitor through unless throttling is
    switched on for them. */
module Processor {
  import opened Monitoring
  import opened Throttling

  class ThrottlingMonitorProcessor {
    const throttle: TimeWindowMonitorThrottle
    const delegateProcessor: RecordingProcessor

    var applyThrottlingAtCreate: bool
    var applyThrottlingAtStart: bool

    /** Wraps `processor` behind `throttle`; throttling at create and start is off. */
    constructor (throttle: TimeWindowMonitorThrottle, processor: RecordingProcessor)
      ensures this.throttle == throttle && delegateProcessor == processor
      ensures !applyThrottlingAtCreate && !applyThrottlingAtStart
    {
      this.throttle := throttle;
      delegateProcessor := processor;
      applyThrottlingAtCreate := false;
      applyThrottlingAtStart := false;
    }

    /** Hands `m` to the delegate exactly when the throttle allows it. */
    method Process(m: Monitor)
      modifies throttle`monitorMap, throttle`uniqueOverflowCount, throttle`totalThrottledCount, m`attributes,
               delegateProcessor`processed
      ensures delegateProcessor.processed ==
        old(delegateProcessor.processed) + (if old(throttle.Decide(m)).allow then [m] else [])
      ensures throttle.State() == old(throttle.Decide(m)).state
      ensures m.attributes == throttle.Tagged(old(m.attributes), old(throttle.Decide(m)))
    {
      var allow := throttle.ShouldAllow(m);
      if allow {
        delegateProcessor.Process(m);
      }
    }

    /** Passes `m` on; only when throttling at create is on does the throttle decide
        (and only then is it consulted at all). */
    method MonitorCreated(m: Monitor)
      modifies throttle`monitorMap, throttle`uniqueOverflowCount, throttle`totalThrottledCount, m`attributes,
               delegateProcessor`created
      ensures !applyThrottlingAtCreate ==>
        delegateProcessor.created == old(delegateProcessor.created) + [m] &&
        throttle.State() == old(throttle.State()) && m.attributes == old(m.attributes)
      ensures applyThrottlingAtCreate ==>
        delegateProcessor.created ==
          old(delegateProcessor.created) + (if old(throttle.Decide(m)).allow then [m] else []) &&
        throttle.State() == old(throttle.Decide(m)).state &&
        m.attributes == throttle.Tagged(old(m.attributes), old(throttle.Decide(m)))
    {
      var forward := true;
      if applyThrottlingAtCreate {
        forward := throttle.ShouldAllow(m);
      }
      if forward {
        delegateProcessor.MonitorCreated(m);
      }
    }

    /** Passes `m` on; only when throttling at start is on does the throttle decide
        (and only then is it consulted at all). */
    method MonitorStarted(m: Monitor)
      modifies throttle`monitorMap, throttle`uniqueOverflowCount, throttle`totalThrottledCount, m`attributes,
               delegateProcessor`started
      ensures !applyThrottlingAtStart ==>
        delegateProcessor.started == old(delegateProcessor.started) + [m] &&
        throttle.State() == old(throttle.State()) && m.attributes == old(m.attributes)
      ensures applyThrottlingAtStart ==>
        delegateProcessor.started ==
          old(delegateProcessor.started) + (if old(throttle.Decide(m)).allow then [m] else []) &&
        throttle.State() == old(throttle.Decide(m)).state &&
        m.attributes == throttle.Tagged(old(m.attributes), old(throttle.Decide(m)))
    {
      var forward := true;
      if applyThrottlingAtStart {
        forward := throttle.ShouldAllow(m);
      }
      if forward {
        delegateProcessor.MonitorStarted(m);
      }
    }

    method SetApplyThrottlingAtCreate(applyThrottlingAtCreate: bool)
      modifies this`applyThrottlingAtCreate
      ensures this.applyThrottlingAtCreate == applyThrottlingAtCreate
    {
      this.applyThrottlingAtCreate := applyThrottlingAtCreate;
    }

    method SetApplyThrottlingAtStart(applyThrottlingAtStart: bool)
      modifies this`applyThrottlingAtStart
      ensures this.applyThrottlingAtStart == applyThrottlingAtStart
    {
      this.applyThrottlingAtStart := applyThrottlingAtStart;
    }
  }
}
