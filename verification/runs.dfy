/**
 * Sequences of handled messages. `Run` feeds arrivals one after another
 * through `Engine.Step`, whichever handler received them, and the lemmas say
 * what the tracking map and the verdicts are afterwards: records per id are
 * append-only and numbered 0, 1, 2, ... in arrival order, ids that receive no
 * message are untouched, and each verdict depends only on how many earlier
 * messages carried the same id.
 */
module Runs {
  import opened Engine

  /** One delivery: the decoded message and the clock reading at arrival. */
  datatype Arrival = Arrival(msg: FailureMessage, at: Timestamp)

  /** The tracking map and the verdicts after handling `a` in order, starting from `t`. */
  function Run(t: Tracking, a: seq<Arrival>): (r: (Tracking, seq<Verdict>))
    requires Contiguous(t)
    ensures Contiguous(r.0)
    ensures |r.1| == |a|
    decreases |a|
  {
    if a == [] then (t, [])
    else
      var prev := Run(t, a[..|a| - 1]);
      var last := a[|a| - 1];
      var next := Step(prev.0, last.msg, last.at);
      (next.0, prev.1 + [next.1])
  }

  /** How many arrivals in `a` carry `id`. */
  function CountFor(a: seq<Arrival>, id: string): nat
  {
    if a == [] then 0
    else CountFor(a[..|a| - 1], id) + (if a[|a| - 1].msg.id == id then 1 else 0)
  }

  /** When every arrival carries `id`, all of them are counted. */
  lemma {:induction false} CountForAll(a: seq<Arrival>, id: string)
    requires forall i :: 0 <= i < |a| ==> a[i].msg.id == id
    ensures CountFor(a, id) == |a|
    decreases |a|
  {
    if a != [] {
      var init := a[..|a| - 1];
      assert forall i :: 0 <= i < |init| ==> init[i].msg.id == id by {
        forall i | 0 <= i < |init| ensures init[i].msg.id == id {
          assert init[i] == a[i];
        }
      }
      CountForAll(init, id);
    }
  }

  /** `|a|` copies of `msg`, the i-th arriving at `times[i]`. */
  function Repeat(msg: FailureMessage, times: seq<Timestamp>): seq<Arrival>
  {
    seq(|times|, i requires 0 <= i < |times| => Arrival(msg, times[i]))
  }

  /** One step extends the history of the message's id by one record and no other history. */
  lemma StepHistory(t: Tracking, msg: FailureMessage, now: Timestamp, id: string)
    requires Contiguous(t)
    ensures History(Step(t, msg, now).0, id) ==
      if id == msg.id then History(t, id) + [CallRecord(|History(t, id)|, now)] else History(t, id)
  {
  }

  /** A run adds exactly one record to `id` per arrival that carries `id`. */
  lemma {:induction false} RunLength(t: Tracking, a: seq<Arrival>, id: string)
    requires Contiguous(t)
    ensures |History(Run(t, a).0, id)| == |History(t, id)| + CountFor(a, id)
    decreases |a|
  {
    if a != [] {
      var init := a[..|a| - 1];
      var last := a[|a| - 1];
      var prev := Run(t, init);
      assert Run(t, a).0 == Step(prev.0, last.msg, last.at).0;
      RunLength(t, init, id);
      StepHistory(prev.0, last.msg, last.at, id);
    }
  }

  /** Append-only: a run keeps every record `id` had before it, in place, as a prefix. */
  lemma {:induction false} RunKeepsPrefix(t: Tracking, a: seq<Arrival>, id: string)
    requires Contiguous(t)
    ensures History(t, id) <= History(Run(t, a).0, id)
    decreases |a|
  {
    if a != [] {
      var init := a[..|a| - 1];
      var last := a[|a| - 1];
      var prev := Run(t, init);
      var next := Step(prev.0, last.msg, last.at);
      assert Run(t, a).0 == next.0;
      RunKeepsPrefix(t, init, id);
      StepHistory(prev.0, last.msg, last.at, id);
    }
  }

  /** An id that no arrival carries keeps its entry, or its absence, unchanged. */
  lemma {:induction false} RunUntouched(t: Tracking, a: seq<Arrival>, id: string)
    requires Contiguous(t)
    requires forall i :: 0 <= i < |a| ==> a[i].msg.id != id
    ensures id in Run(t, a).0 <==> id in t
    ensures id in t ==> Run(t, a).0[id] == t[id]
    decreases |a|
  {
    if a != [] {
      var init := a[..|a| - 1];
      assert forall i :: 0 <= i < |init| ==> init[i].msg.id != id by {
        forall i | 0 <= i < |init| ensures init[i].msg.id != id {
          assert init[i] == a[i];
        }
      }
      RunUntouched(t, init, id);
    }
  }

  /**
   * The attempt number the i-th arrival of `a` gets for its id when the run
   * starts from `t`: the records the id already had plus the earlier arrivals
   * that carry the same id.
   */
  function Ordinal(t: Tracking, a: seq<Arrival>, i: int): (k: nat)
    requires 0 <= i < |a|
  {
    |History(t, a[i].msg.id)| + CountFor(a[..i], a[i].msg.id)
  }

  /**
   * The i-th arrival of a run is recorded as the `Ordinal(t, a, i)`-th record
   * of its id, with its arrival time, and its verdict is the verdict for that
   * attempt number.
   */
  lemma {:induction false} RunAttempt(t: Tracking, a: seq<Arrival>, i: int)
    requires Contiguous(t)
    requires 0 <= i < |a|
    ensures Ordinal(t, a, i) < |History(Run(t, a).0, a[i].msg.id)|
    ensures History(Run(t, a).0, a[i].msg.id)[Ordinal(t, a, i)] == CallRecord(Ordinal(t, a, i), a[i].at)
    ensures Run(t, a).1[i] == Decide(Ordinal(t, a, i), a[i].msg)
    decreases |a|
  {
    var init := a[..|a| - 1];
    if i == |a| - 1 {
      assert a[..i] == init;
      LastAttempt(t, a);
    } else {
      assert init[i] == a[i];
      assert init[..i] == a[..i];
      assert Ordinal(t, init, i) == Ordinal(t, a, i);
      RunAttempt(t, init, i);
      EarlierRecordKept(t, a, a[i].msg.id, Ordinal(t, a, i));
      assert Run(t, a).1[i] == Run(t, init).1[i];
    }
  }

  /** The last arrival of a run is numbered after everything before it. */
  lemma LastAttempt(t: Tracking, a: seq<Arrival>)
    requires Contiguous(t)
    requires a != []
    ensures Ordinal(t, a, |a| - 1) < |History(Run(t, a).0, a[|a| - 1].msg.id)|
    ensures History(Run(t, a).0, a[|a| - 1].msg.id)[Ordinal(t, a, |a| - 1)] ==
      CallRecord(Ordinal(t, a, |a| - 1), a[|a| - 1].at)
    ensures Run(t, a).1[|a| - 1] == Decide(Ordinal(t, a, |a| - 1), a[|a| - 1].msg)
  {
    var init := a[..|a| - 1];
    var last := a[|a| - 1];
    var prev := Run(t, init);
    var next := Step(prev.0, last.msg, last.at);
    assert Run(t, a) == (next.0, prev.1 + [next.1]);
    RunLength(t, init, last.msg.id);
    var k := AttemptNumber(prev.0, last.msg.id);
    assert k == Ordinal(t, a, |a| - 1) by {
      assert a[..|a| - 1] == init;
    }
    assert History(next.0, last.msg.id)[k] == CallRecord(k, last.at);
    assert next.1 == Decide(k, last.msg);
  }

  /**
   * Handling the last arrival of a run leaves the records made before it in
   * place. Dafny also finds this without the body, but at several times the
   * cost and with a wide spread across solver seeds; the two cases below keep
   * it cheap and stable.
   */
  lemma EarlierRecordKept(t: Tracking, a: seq<Arrival>, id: string, k: int)
    requires Contiguous(t)
    requires a != []
    requires 0 <= k < |History(Run(t, a[..|a| - 1]).0, id)|
    ensures k < |History(Run(t, a).0, id)|
    ensures History(Run(t, a).0, id)[k] == History(Run(t, a[..|a| - 1]).0, id)[k]
  {
    var prev := Run(t, a[..|a| - 1]);
    var last := a[|a| - 1];
    var h1 := History(prev.0, id);
    var h2 := History(Run(t, a).0, id);
    if last.msg.id == id {
      assert h2[..|h1|] == h1;
      assert h2[k] == h2[..|h1|][k];
    } else {
      assert h2 == h1;
    }
  }

  /**
   * A fresh id sent `|times|` times with the same message: its records are
   * exactly (0, times[0]), (1, times[1]), ... and the i-th verdict is the
   * verdict for attempt i.
   */
  lemma {:induction false} FreshIdRun(t: Tracking, msg: FailureMessage, times: seq<Timestamp>)
    requires Contiguous(t)
    requires msg.id !in t
    ensures var r := Run(t, Repeat(msg, times));
      && |History(r.0, msg.id)| == |times|
      && (forall i :: 0 <= i < |times| ==> History(r.0, msg.id)[i] == CallRecord(i, times[i]))
      && (forall i :: 0 <= i < |times| ==> r.1[i] == Decide(i, msg))
  {
    var a := Repeat(msg, times);
    CountForAll(a, msg.id);
    RunLength(t, a, msg.id);
    forall i | 0 <= i < |times|
      ensures History(Run(t, a).0, msg.id)[i] == CallRecord(i, times[i])
      ensures Run(t, a).1[i] == Decide(i, msg)
    {
      RepeatOrdinal(t, msg, times, i);
      RunAttempt(t, a, i);
    }
  }

  /** In a run of copies of one message on a fresh id, the i-th copy is attempt i. */
  lemma RepeatOrdinal(t: Tracking, msg: FailureMessage, times: seq<Timestamp>, i: int)
    requires msg.id !in t
    requires 0 <= i < |times|
    ensures Ordinal(t, Repeat(msg, times), i) == i
  {
    var a := Repeat(msg, times);
    assert forall j :: 0 <= j < |a[..i]| ==> a[..i][j].msg.id == msg.id;
    CountForAll(a[..i], msg.id);
  }

  /**
   * A fresh id with MaxFailureCount k and no timeout: calls 0..k-1 answer with
   * an immediate failure and every later call succeeds.
   */
  lemma {:induction false} FailuresThenSuccesses(t: Tracking, id: string, k: int, times: seq<Timestamp>)
    requires Contiguous(t)
    requires id !in t
    ensures var r := Run(t, Repeat(FailureMessage(id, Some(k), None), times));
      forall i :: 0 <= i < |times| ==> r.1[i] == (if i < k then FailImmediately else Succeed)
  {
    FreshIdRun(t, FailureMessage(id, Some(k), None), times);
  }

  /**
   * A fresh id with MaxFailureCount k and timeout d: calls 0..k-1 stall for d
   * before succeeding and every later call succeeds at once.
   */
  lemma {:induction false} StallsThenSuccesses(t: Tracking, id: string, k: int, d: Duration, times: seq<Timestamp>)
    requires Contiguous(t)
    requires id !in t
    ensures var r := Run(t, Repeat(FailureMessage(id, Some(k), Some(d)), times));
      forall i :: 0 <= i < |times| ==> r.1[i] == (if i < k then StallThenSucceed(d) else Succeed)
  {
    FreshIdRun(t, FailureMessage(id, Some(k), Some(d)), times);
  }

  /** A fresh id without MaxFailureCount succeeds on every call. */
  lemma {:induction false} AlwaysSucceedsWithoutMax(t: Tracking, id: string, d: Option<Duration>, times: seq<Timestamp>)
    requires Contiguous(t)
    requires id !in t
    ensures var r := Run(t, Repeat(FailureMessage(id, None, d), times));
      forall i :: 0 <= i < |times| ==> r.1[i] == Succeed
  {
    FreshIdRun(t, FailureMessage(id, None, d), times);
  }

  /**
   * Three calls for "s1" with MaxFailureCount 2 on an empty map: fail, fail,
   * succeed, leaving records numbered 0, 1, 2.
   */
  lemma ScenarioS1(t1: Timestamp, t2: Timestamp, t3: Timestamp)
    ensures var r := Run(map[], Repeat(FailureMessage("s1", Some(2), None), [t1, t2, t3]));
      && r.1 == [FailImmediately, FailImmediately, Succeed]
      && History(r.0, "s1") == [CallRecord(0, t1), CallRecord(1, t2), CallRecord(2, t3)]
  {
    var times := [t1, t2, t3];
    FreshIdRun(map[], FailureMessage("s1", Some(2), None), times);
  }
}
