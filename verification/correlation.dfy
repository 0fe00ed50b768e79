/** The bus's correlation protocol.

A sender waiting for an answer matches incoming messages against its
request by identifier: an answer carries the request's identifier as its
parent identifier.  This module states what the derivations of the message
module promise about that matching, and records where the error derivation
breaks it.
 */
module Correlation {
  import opened Ids
  import opened Clock
  import opened Model

  /** `reply` answers `request`: its parent identifier is the request's identifier. */
  predicate RepliesTo(reply: Message, request: Message) {
    GetParentID(reply) == GetID(request)
  }

  /** A response always answers the message it was derived from. */
  lemma ResponseRepliesToRequest(m: Message, content: Content, g: IdGen, nanos: int64)
    ensures RepliesTo(NewRespByMessage(m, content, g, nanos).0, m)
    ensures GetOperation(NewRespByMessage(m, content, g, nanos).0) == ResponseOperation
  {
  }

  /** A clone is never taken for an answer to anything its original does not
      answer: the two answer exactly the same messages. */
  lemma CloneAnswersWhatOriginalAnswers(m: Message, g: IdGen, request: Message)
    ensures RepliesTo(Clone(m, g).0, request) <==> RepliesTo(m, request)
  {
  }

  /** A clone of a request is not taken for an answer to that request,
      unless the request is its own parent. */
  lemma CloneIsNoReplyToOriginal(m: Message, g: IdGen)
    requires GetParentID(m) != GetID(m)
    ensures !RepliesTo(Clone(m, g).0, m)
  {
  }

  /** Cloning one message twice gives two messages with distinct
      identifiers, both distinct from the original's when the original came
      from the same generator, and both with the original's route and
      content. */
  lemma CloneTwiceScenario(m: Message, g: IdGen)
    requires GetID(m) in Issued(g)
    ensures var (c1, g1) := Clone(m, g);
            var (c2, _) := Clone(m, g1);
            && GetID(c1) != GetID(c2)
            && GetID(c1) != GetID(m) && GetID(c2) != GetID(m)
            && c1.router == m.router == c2.router
            && GetContent(c1) == GetContent(m) == GetContent(c2)
  {
  }

  /** A request addressed from "edgehub" to "edged" to insert a pod, and the
      response to it: the response answers the request, keeps its
      addressing and carries the status as content. */
  lemma ResponseScenario(pod: Payload, status: Payload, g: IdGen, sent: int64, answered: int64)
    ensures var (root, g1) := NewMessage("", g, sent);
            var a := FillBody(BuildRouter(root, "edgehub", "edged", "pod", InsertOperation), Value(pod));
            var (b, _) := NewRespByMessage(a, Value(status), g1, answered);
            && RepliesTo(b, a)
            && GetOperation(b) == "response"
            && GetSource(b) == "edgehub" && GetGroup(b) == "edged" && GetResource(b) == "pod"
            && GetContent(b) == Value(status)
  {
  }

  /** As written, the error message for a root request (one with no parent)
      has an empty parent identifier, which is not the request's identifier:
      the sender waiting on the request never receives the error. */
  lemma RootErrorIsNotMatched(nanos: int64)
    ensures var (a, g1) := NewMessage("", Initial, nanos);
            var (c, _) := NewErrorMessage(a, "not found", g1, nanos);
            && GetParentID(c) == ""
            && GetOperation(c) == "error"
            && !RepliesTo(c, a)
  {
  }

  /** As written, the error message for any request that is not its own
      parent fails to answer it. */
  lemma ErrorMessageMissesRequest(m: Message, errContent: string, g: IdGen, nanos: int64)
    requires GetParentID(m) != GetID(m)
    ensures !RepliesTo(NewErrorMessage(m, errContent, g, nanos).0, m)
  {
  }

  /** The error message with the correlation the protocol asks of every
      answer: its parent is the failing message itself.  Everything else is
      as in `NewErrorMessage`. */
  function NewErrorReply(m: Message, errContent: string, g: IdGen, nanos: int64): (r: (Message, IdGen))
    ensures RepliesTo(r.0, m)
    ensures GetID(r.0) !in Issued(g)
    ensures Issued(r.1) == Issued(g) + {GetID(r.0)}
    ensures GetTimestamp(r.0) == UnixMilli(nanos) && !IsSync(r.0)
    ensures GetSource(r.0) == "" && GetGroup(r.0) == "" && GetResource(r.0) == GetResource(m)
    ensures GetOperation(r.0) == ResponseErrorOperation
    ensures GetContent(r.0) == Text(errContent)
  {
    var (base, g') := NewMessage(GetID(m), g, nanos);
    var intent := SetResourceOperation(base, GetResource(m), ResponseErrorOperation);
    (FillBody(intent, Text(errContent)), g')
  }

  /** The corrected error message differs from the one the code builds in
      the parent identifier alone. */
  lemma ErrorReplyDiffersOnlyInParent(m: Message, errContent: string, g: IdGen, nanos: int64)
    ensures var (written, g1) := NewErrorMessage(m, errContent, g, nanos);
            var (fixed, g2) := NewErrorReply(m, errContent, g, nanos);
            && g1 == g2
            && fixed == written.(header := written.header.(parentId := GetID(m)))
  {
  }

  /** With the corrected error message, every answer a consumer derives,
      success or failure, is matched to its request. */
  lemma EveryAnswerRepliesToRequest(m: Message, content: Content, errContent: string, g: IdGen, nanos: int64)
    ensures RepliesTo(NewRespByMessage(m, content, g, nanos).0, m)
    ensures RepliesTo(NewErrorReply(m, errContent, g, nanos).0, m)
  {
  }
}
