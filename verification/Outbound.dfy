// The WebSocket reader of a conversation (examples/booking/channels/web_ws.py,
// outbound; examples/booking/workflows/session.py, replies_since).
module Outbound {
  import opened Basics
  import opened Conversation

  function RepliesSince(replies: seq<Reply>, seqNo: nat): seq<Reply> {
    if replies == [] then []
    else RepliesSince(replies[..|replies| - 1], seqNo) + if replies[|replies| - 1].seqNo > seqNo then [replies[|replies| - 1]] else []
  }

  lemma {:induction false} SinceIsSuffix(replies: seq<Reply>, seqNo: nat)
    requires Numbered(replies)
    ensures RepliesSince(replies, seqNo) == if seqNo <= |replies| then replies[seqNo..] else []
  {
    if replies != [] {
      var n := |replies| - 1;
      SinceIsSuffix(replies[..n], seqNo);
      if seqNo <= n {
        DropSnoc(replies, seqNo);
      } else if seqNo == |replies| {
        assert replies[seqNo..] == [];
      }
    }
  }

  // Forwards the replies it has not forwarded yet, poll after poll; a poll
  // whose query fails is skipped.
  method ForwardReplies(polls: seq<seq<Reply>>, fails: seq<bool>) returns (sent: seq<Reply>, lastSeq: nat)
    requires |fails| == |polls|
    requires forall i :: 0 <= i < |polls| ==> Numbered(polls[i])
    requires forall i, j :: 0 <= i < j < |polls| ==> polls[i] <= polls[j]
    ensures lastSeq == |sent|
    ensures forall i :: 0 <= i < |polls| && !fails[i] ==> polls[i] <= sent
    ensures if polls == [] then sent == [] else sent <= polls[|polls| - 1]
  {
    sent, lastSeq := [], 0;
    for i := 0 to |polls|
      invariant lastSeq == |sent|
      invariant forall j :: 0 <= j < i && !fails[j] ==> polls[j] <= sent
      invariant if i == 0 then sent == [] else sent <= polls[i - 1]
    {
      if i > 0 {
        assert polls[i - 1] <= polls[i];
      }
      assert sent <= polls[i];
      if !fails[i] {
        var replies := RepliesSince(polls[i], lastSeq);
        SinceIsSuffix(polls[i], lastSeq);
        sent, lastSeq := ForwardAll(replies, sent, lastSeq, polls[i]);
      }
    }
  }

  method ForwardAll(replies: seq<Reply>, before: seq<Reply>, seq0: nat, ghost all: seq<Reply>) returns (sent: seq<Reply>, lastSeq: nat)
    requires Numbered(all) && before <= all && seq0 == |before| && replies == all[seq0..]
    ensures sent == all && lastSeq == |sent|
  {
    sent, lastSeq := before, seq0;
    for i := 0 to |replies|
      invariant sent == all[..seq0 + i] && lastSeq == seq0 + i
    {
      var r := replies[i];
      sent := sent + [r];
      if r.seqNo > lastSeq {
        lastSeq := r.seqNo;
      }
    }
    assert all[..|all|] == all;
  }
}
