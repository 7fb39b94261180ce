/**
 * The process-wide `callTracking` registry, updated in place by the
 * handlers: a map from message id to the list of calls seen for it.
 */
module Tracker {
  import opened Engine

  class CallTracker {
    /** `callTracking`: id -> the records of every call seen for it, in arrival order. */
    var calls: Tracking

    /** Every listed id has records numbered 0, 1, 2, ... without gaps. */
    ghost predicate Valid()
      reads this
    {
      Contiguous(calls)
    }

    /** The registry as the process creates it at start-up: empty. */
    constructor ()
      ensures Valid()
      ensures calls == map[]
    {
      calls := map[];
    }

    /**
     * The counting, recording and decision block every handler runs for one
     * decoded message. The attempt number is the number of records already
     * kept for the id; one record carrying it is appended, no other id's list
     * changes, and the verdict is the one for that attempt number.
     */
    method RecordAndDecide(msg: FailureMessage, now: Timestamp) returns (v: Verdict)
      requires Valid()
      modifies this
      ensures Valid()
      ensures calls == old(calls)[msg.id := History(old(calls), msg.id) + [CallRecord(|History(old(calls), msg.id)|, now)]]
      ensures v == Decide(|History(old(calls), msg.id)|, msg)
      ensures (calls, v) == Step(old(calls), msg, now)
    {
      var callCount := 0;
      if msg.id in calls {
        var records := calls[msg.id];
        callCount := records[|records| - 1].count + 1;
      }
      var records := if msg.id in calls then calls[msg.id] else [];
      calls := calls[msg.id := records + [CallRecord(callCount, now)]];
      v := Decide(callCount, msg);
    }

    /**
     * The query endpoint's view: the whole registry, read without changing it.
     * Each id in it has exactly as many records as calls seen, numbered from 0.
     */
    method Snapshot() returns (s: Tracking)
      requires Valid()
      ensures s == calls
      ensures Contiguous(s)
    {
      s := calls;
    }
  }
}
