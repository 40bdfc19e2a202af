/**
 One JSON-RPC call (internal/shelly/client.go): a challenge answered once per attempt, a
 429 retried twice, and what the outcome says about whether the device acted.
 */
module Client {
  import opened UpdateProtocol

  /** What a 200 answer carries. */
  datatype Body = Result(decodes: bool) | RpcError | Garbage

  /** What one HTTP request comes back with. */
  datatype Reply = Response(status: nat, body: Body) | TransportError

  const OK: nat := 200
  const UNAUTHORIZED: nat := 401
  const TOO_MANY_REQUESTS: nat := 429

  const RETRIES: nat := 2

  /** How many times the device may have acted on a request so answered: only a 200 can be an act, and an RPC error is none. */
  predicate ActsAllowed(reply: Reply, acts: nat)
  {
    match reply
    case TransportError => acts <= 1
    case Response(status, body) =>
      if status != OK || body.RpcError? then acts == 0
      else if body.Garbage? then acts <= 1
      else acts == 1
  }

  /** One request on the wire: the network and the device choose the answer, within what answers mean. */
  method Send() returns (reply: Reply, acts: nat)
    ensures ActsAllowed(reply, acts)
  {
    reply := *;
    var acted: bool := *;
    acts := match reply
      case TransportError => if acted then 1 else 0
      case Response(status, body) =>
        if status != OK || body.RpcError? then 0
        else if body.Result? || acted then 1 else 0;
  }

  /** What post hands back: the last answer, or an error before it had one. */
  datatype Posted = Answered(reply: Reply) | Failed

  predicate Challenged(reply: Reply, hasPassword: bool)
  {
    reply.Response? && reply.status == UNAUTHORIZED && hasPassword
  }

  /**
   post: one request, and a second one with credentials if the first is challenged. The
   last answer is handed back, unless there is none or the challenge cannot be met.
   */
  method Post(hasPassword: bool) returns (r: Posted, replies: seq<Reply>, acts: nat)
    ensures 1 <= |replies| <= 2 && (|replies| == 2 ==> Challenged(replies[0], hasPassword))
    ensures r.Answered? ==> r.reply == replies[|replies| - 1] && r.reply.Response? && (|replies| == 1 ==> !Challenged(r.reply, hasPassword))
    ensures r.Failed? ==> replies[|replies| - 1].TransportError? || (|replies| == 1 && Challenged(replies[0], hasPassword))
    ensures r.Answered? ==> ActsAllowed(r.reply, acts)
    ensures r.Failed? ==> acts <= 1
  {
    var reply, n := Send();
    replies, acts := [reply], n;
    if reply.TransportError? {
      return Failed, replies, acts;
    }
    if reply.status != UNAUTHORIZED || !hasPassword {
      return Answered(reply), replies, acts;
    }
    var supported: bool := *;
    if !supported {
      return Failed, replies, acts;
    }
    reply, n := Send();
    replies, acts := replies + [reply], acts + n;
    if reply.TransportError? {
      return Failed, replies, acts;
    }
    r := Answered(reply);
  }

  predicate Busy(posted: Posted)
  {
    posted.Answered? && posted.reply.Response? && posted.reply.status == TOO_MANY_REQUESTS
  }

  /**
   postRetrying: wait and try again on 429, at most twice, unless the caller gives up
   meanwhile. Only a 429 is tried again, and one is handed back only after the third try.
   */
  method PostRetrying(hasPassword: bool) returns (r: Posted, tries: seq<Posted>, requests: nat, acts: nat)
    ensures 1 <= |tries| <= 3 && |tries| <= requests <= 2 * |tries|
    ensures forall i :: 0 <= i < |tries| - 1 ==> Busy(tries[i])
    ensures Busy(r) ==> |tries| == 3
    ensures r == tries[|tries| - 1] || (r.Failed? && Busy(tries[|tries| - 1]) && |tries| < 3)
    ensures r.Answered? ==> r.reply.Response? && ActsAllowed(r.reply, acts)
    ensures r.Failed? ==> acts <= 1
  {
    tries, requests, acts := [], 0, 0;
    while true
      invariant |tries| <= RETRIES && |tries| <= requests <= 2 * |tries| && acts == 0
      invariant forall i :: 0 <= i < |tries| ==> Busy(tries[i])
      decreases RETRIES - |tries|
    {
      var posted, replies, n := Post(hasPassword);
      ghost var before := tries;
      tries, requests, acts := tries + [posted], requests + |replies|, acts + n;
      assert forall i :: 0 <= i < |tries| - 1 ==> tries[i] == before[i];
      if posted.Failed? || posted.reply.status != TOO_MANY_REQUESTS || |tries| > RETRIES {
        return posted, tries, requests, acts;
      }
      var cancelled: bool := *;
      if cancelled {
        return Failed, tries, requests, acts;
      }
    }
  }

  datatype CallResult = NoError | AuthFailed | StatusFailed | RpcFailed | OtherError

  /** IsRefusal: a definite "the device did not act". */
  predicate IsRefusal(r: CallResult)
  {
    r.AuthFailed? || r.StatusFailed? || r.RpcFailed?
  }

  /** How a call's outcome counts as the answer to a firmware update request. */
  function AnswerOf(r: CallResult): Answer
  {
    if r.NoError? then Accepted else if IsRefusal(r) then Refused else Lost
  }

  /**
   Call: at most six requests make the device act at most once; no error means it acted
   exactly once, and a refusal means it did not act at all. These are the two promises
   the update protocol relies on when it receives an answer. And what is told is what was
   heard: a refusal for any answer that is no result, success for a result that decodes.
   */
  method Call(hasPassword: bool) returns (r: CallResult, heard: Posted, tries: seq<Posted>, requests: nat, acts: nat)
    ensures requests <= 6 && acts <= 1
    ensures r.NoError? ==> acts == 1
    ensures IsRefusal(r) ==> acts == 0
    ensures (AnswerOf(r).Accepted? ==> acts == 1) && (AnswerOf(r).Refused? ==> acts == 0)
    ensures heard.Failed? ==> AnswerOf(r).Lost? && (tries == [] || tries[|tries| - 1].Failed? || (Busy(tries[|tries| - 1]) && |tries| < 3))
    ensures heard.Answered? ==> tries != [] && heard == tries[|tries| - 1] && heard.reply.Response?
    ensures heard.Answered? ==> (AnswerOf(r).Refused? <==> heard.reply.status != 200 || heard.reply.body.RpcError?)
    ensures heard.Answered? ==> (AnswerOf(r).Accepted? <==> heard.reply.status == 200 && heard.reply.body == Result(true))
    ensures heard.Answered? ==> (r.AuthFailed? <==> heard.reply.status == 401)
    ensures Busy(heard) ==> |tries| == 3
  {
    var encodable: bool := *;
    if !encodable {
      return OtherError, Failed, [], 0, 0;
    }
    heard, tries, requests, acts := PostRetrying(hasPassword);
    if heard.Failed? {
      return OtherError, heard, tries, requests, acts;
    }
    var Response(status, body) := heard.reply;
    if status == UNAUTHORIZED {
      return AuthFailed, heard, tries, requests, acts;
    }
    if status != OK {
      return StatusFailed, heard, tries, requests, acts;
    }
    if body.Garbage? {
      return OtherError, heard, tries, requests, acts;
    }
    if body.RpcError? {
      return RpcFailed, heard, tries, requests, acts;
    }
    r := if body.decodes then NoError else OtherError;
  }
}
