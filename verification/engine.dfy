/**
 * The failure-decision engine of the resiliency test app: the inbound
 * failure message, the per-id call records, the attempt number read off the
 * tracking map, and the three-way verdict. Everything here is a value; the
 * process-wide map that the handlers update in place is the class in
 * tracker.dfy.
 */
module Engine {

  datatype Option<T> = None | Some(value: T)

  /** A Go `time.Duration`: a signed number of nanoseconds. */
  type Duration = int

  /** The wall-clock reading taken when a call is recorded; the model only stores it. */
  type Timestamp = int

  /**
   * An already-decoded request body. Both optional fields are Go pointers,
   * absent when the JSON body omits them.
   */
  datatype FailureMessage = FailureMessage(
    id: string,
    maxFailureCount: Option<int>,
    timeout: Option<Duration>)

  /** One observed call: its attempt number for the id and when it was seen. */
  datatype CallRecord = CallRecord(count: int, timeSeen: Timestamp)

  /** The shape of the process-wide `callTracking` map. */
  type Tracking = map<string, seq<CallRecord>>

  /** What a handler does with the current attempt. */
  datatype Verdict =
    | Succeed                      // answer 200 at once
    | StallThenSucceed(d: Duration) // sleep for d, then answer 200
    | FailImmediately              // answer 500 at once

  /** The records kept for `id`; a missing key reads as Go's nil slice. */
  function History(t: Tracking, id: string): seq<CallRecord>
  {
    if id in t then t[id] else []
  }

  /**
   * The invariant of the tracking map: every present id has at least one
   * record, and its k-th record carries attempt number k.
   */
  ghost predicate Contiguous(t: Tracking)
  {
    forall id :: id in t ==>
      t[id] != [] && forall k :: 0 <= k < |t[id]| ==> t[id][k].count == k
  }

  /**
   * The attempt number of the next call for `id`: 0 for an unseen id,
   * otherwise one more than the count in the last record. Indexing the last
   * record needs the list to be non-empty, which is all the source relies on.
   */
  function AttemptNumber(t: Tracking, id: string): (n: int)
    requires id in t ==> t[id] != []
    ensures id !in t ==> n == 0
    ensures Contiguous(t) ==> n == |History(t, id)|
  {
    if id in t then t[id][|t[id]| - 1].count + 1 else 0
  }

  /**
   * The verdict for attempt `callCount` of `msg`: the first
   * `maxFailureCount` attempts fail, stalling instead when a timeout is
   * given; every other attempt succeeds.
   */
  function Decide(callCount: int, msg: FailureMessage): (v: Verdict)
    ensures v != Succeed ==> msg.maxFailureCount.Some? && callCount < msg.maxFailureCount.value
    ensures v == FailImmediately ==> msg.timeout.None?
    ensures v.StallThenSucceed? ==> msg.timeout == Some(v.d)
  {
    if msg.maxFailureCount.Some? && callCount < msg.maxFailureCount.value then
      if msg.timeout.Some? then StallThenSucceed(msg.timeout.value) else FailImmediately
    else
      Succeed
  }

  /** A call is made to fail (or stall) exactly when it is one of the first `maxFailureCount`. */
  lemma DecideFailsExactly(callCount: int, msg: FailureMessage)
    ensures Decide(callCount, msg) != Succeed <==>
      msg.maxFailureCount.Some? && callCount < msg.maxFailureCount.value
    ensures Decide(callCount, msg) == FailImmediately <==>
      msg.maxFailureCount.Some? && callCount < msg.maxFailureCount.value && msg.timeout.None?
    ensures Decide(callCount, msg).StallThenSucceed? <==>
      msg.maxFailureCount.Some? && callCount < msg.maxFailureCount.value && msg.timeout.Some?
    ensures Decide(callCount, msg).StallThenSucceed? ==>
      Decide(callCount, msg).d == msg.timeout.value
  {
  }

  /**
   * Boundaries: without a maximum, or with a maximum of zero or less, every
   * attempt numbered from 0 succeeds; a zero timeout is a zero-length stall,
   * not an absent one.
   */
  lemma DecideBoundaries(callCount: nat, msg: FailureMessage)
    ensures msg.maxFailureCount.None? ==> Decide(callCount, msg) == Succeed
    ensures msg.maxFailureCount.Some? && msg.maxFailureCount.value <= 0 ==>
      Decide(callCount, msg) == Succeed
    ensures (msg.timeout == Some(0) && msg.maxFailureCount.Some? &&
             callCount < msg.maxFailureCount.value) ==>
      Decide(callCount, msg) == StallThenSucceed(0)
  {
  }

  /**
   * One handled message: read the attempt number, append one record carrying
   * it under the message's id, and decide. Only that id's list changes; the
   * earlier records of that list stay as they were.
   */
  function Step(t: Tracking, msg: FailureMessage, now: Timestamp): (r: (Tracking, Verdict))
    requires msg.id in t ==> t[msg.id] != []
    ensures r.0.Keys == t.Keys + {msg.id}
    ensures |History(r.0, msg.id)| == |History(t, msg.id)| + 1
    ensures History(r.0, msg.id)[..|History(t, msg.id)|] == History(t, msg.id)
    ensures History(r.0, msg.id)[|History(t, msg.id)|] == CallRecord(AttemptNumber(t, msg.id), now)
    ensures forall id :: id in t && id != msg.id ==> r.0[id] == t[id]
    ensures r.1 == Decide(AttemptNumber(t, msg.id), msg)
    ensures Contiguous(t) ==> Contiguous(r.0)
  {
    var n := AttemptNumber(t, msg.id);
    (t[msg.id := History(t, msg.id) + [CallRecord(n, now)]], Decide(n, msg))
  }
}
