/**
 * The three inbound handlers of the resiliency app: input binding, pub/sub
 * subscription and service invocation. Each runs the same counting,
 * recording and decision block on an already-decoded message and turns the
 * verdict into its HTTP answer.
 */
module Handlers {
  import opened Engine
  import opened Tracker

  datatype Transport = Binding | Pubsub | ServiceInvocation

  /** The request methods the router lets through to the binding handler. */
  datatype HttpMethod = Post | Options

  /** The acknowledgement body the pub/sub handler writes on success. */
  datatype PubsubAck = PubsubAck(status: string, message: string)

  /**
   * What a handler does to its response: sleep first (or not), then write a
   * status code and, for pub/sub, an acknowledgement body. A `sleep` of zero
   * or less means no wait at all, as Go's `time.Sleep` returns at once for a
   * non-positive duration.
   */
  datatype Reply = Reply(sleep: Option<Duration>, status: int, ack: Option<PubsubAck>)

  const StatusOK := 200
  const StatusInternalServerError := 500

  /** The pub/sub success body: status "SUCCESS", message "consumed". */
  const Consumed := PubsubAck("SUCCESS", "consumed")

  /** The answer a handler on `via` gives for verdict `v`. */
  function ReplyFor(via: Transport, v: Verdict): (r: Reply)
    ensures r.status == StatusOK || r.status == StatusInternalServerError
    ensures r.ack.Some? ==> via == Pubsub && r.status == StatusOK && r.ack == Some(Consumed)
  {
    match v
    case FailImmediately => Reply(None, StatusInternalServerError, None)
    case Succeed => Reply(None, StatusOK, if via == Pubsub then Some(Consumed) else None)
    case StallThenSucceed(d) => Reply(Some(d), StatusOK, if via == Pubsub then Some(Consumed) else None)
  }

  /**
   * A handler answers 500 exactly for an immediate failure and 200 otherwise;
   * it sleeps exactly for a stall, for the stall's duration (no wait when that
   * duration is zero or negative); only the pub/sub
   * handler writes a body, and only with a 200.
   */
  lemma ReplyMeaning(via: Transport, v: Verdict)
    ensures ReplyFor(via, v).status == StatusInternalServerError <==> v == FailImmediately
    ensures ReplyFor(via, v).status == StatusOK <==> v != FailImmediately
    ensures ReplyFor(via, v).sleep.Some? <==> v.StallThenSucceed?
    ensures v.StallThenSucceed? ==> ReplyFor(via, v).sleep == Some(v.d)
    ensures ReplyFor(via, v).ack.Some? <==> via == Pubsub && v != FailImmediately
    ensures ReplyFor(via, v).ack.Some? ==> ReplyFor(via, v).ack == Some(Consumed)
  {
  }

  /**
   * All three handlers share one behaviour: for any verdict they sleep alike
   * and answer the same status code; they differ only in the pub/sub body.
   */
  lemma HandlersAgree(v: Verdict)
    ensures ReplyFor(Binding, v) == ReplyFor(ServiceInvocation, v)
    ensures ReplyFor(Pubsub, v).sleep == ReplyFor(Binding, v).sleep
    ensures ReplyFor(Pubsub, v).status == ReplyFor(Binding, v).status
  {
  }

  /**
   * The input-binding handler. An OPTIONS probe is accepted with 200 and
   * records nothing; a POST records the call and answers per the verdict.
   */
  method HandleBinding(tracker: CallTracker, verb: HttpMethod, msg: FailureMessage, now: Timestamp)
    returns (reply: Reply)
    requires tracker.Valid()
    modifies tracker
    ensures tracker.Valid()
    ensures verb == Options ==> tracker.calls == old(tracker.calls) && reply == Reply(None, StatusOK, None)
    ensures verb == Post ==>
      var s := Step(old(tracker.calls), msg, now);
      tracker.calls == s.0 && reply == ReplyFor(Binding, s.1)
  {
    if verb == Options {
      return Reply(None, StatusOK, None);
    }
    var v := tracker.RecordAndDecide(msg, now);
    reply := ReplyFor(Binding, v);
  }

  /** The pub/sub subscription handler, for the message carried in the event's data. */
  method HandlePubsub(tracker: CallTracker, msg: FailureMessage, now: Timestamp) returns (reply: Reply)
    requires tracker.Valid()
    modifies tracker
    ensures tracker.Valid()
    ensures var s := Step(old(tracker.calls), msg, now);
      tracker.calls == s.0 && reply == ReplyFor(Pubsub, s.1)
  {
    var v := tracker.RecordAndDecide(msg, now);
    reply := ReplyFor(Pubsub, v);
  }

  /** The service-invocation handler. */
  method HandleServiceInvocation(tracker: CallTracker, msg: FailureMessage, now: Timestamp)
    returns (reply: Reply)
    requires tracker.Valid()
    modifies tracker
    ensures tracker.Valid()
    ensures var s := Step(old(tracker.calls), msg, now);
      tracker.calls == s.0 && reply == ReplyFor(ServiceInvocation, s.1)
  {
    var v := tracker.RecordAndDecide(msg, now);
    reply := ReplyFor(ServiceInvocation, v);
  }
}
