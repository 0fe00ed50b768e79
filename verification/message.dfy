/** The bus message envelope: a header (identity, correlation, time, sync
flag), a route (source, group, operation, resource) and an opaque content.

The Go code mutates a message in place and returns the same pointer so that
calls chain; here a message is an immutable value and every builder is a
function from the old message to the new one, so a chain of builders is a
composition of functions.  Operations that need a new identifier take the
identifier generator and return its next state; operations that stamp a
header take the clock reading in nanoseconds.
 */
module Model {
  import opened Ids
  import opened Clock

  // The fixed operation vocabulary.  Routes carry free strings; these are
  // the values the bus itself knows.
  const InsertOperation: string := "insert"
  const DeleteOperation: string := "delete"
  const QueryOperation: string := "query"
  const UpdateOperation: string := "update"
  const ResponseOperation: string := "response"
  const ResponseErrorOperation: string := "error"

  /** A producer's payload.  The bus passes it along and never looks inside,
      so nothing about it is known here. */
  type Payload

  /** What a message's content can hold.  The Go field is an empty
      interface: it is nil until filled, holds a plain string on the error
      messages this module derives, and otherwise holds a producer's payload. */
  datatype Content = Nil | Text(text: string) | Value(value: Payload)

  datatype MessageRoute = MessageRoute(
    source: string,     // the module the message comes from
    group: string,      // the subscriber group it is broadcast to
    operation: string,  // what to do with the resource
    resource: string    // what the operation is applied to
  )

  datatype MessageHeader = MessageHeader(
    id: string,         // this message's identifier
    parentId: string,   // the identifier of the message this one answers
    timestamp: int64,   // milliseconds since the epoch at creation
    sync: bool          // set by the synchronous sender
  )

  datatype Message = Message(header: MessageHeader, router: MessageRoute, content: Content)

  /* Read accessors. */

  function IsSync(m: Message): bool { m.header.sync }
  function GetResource(m: Message): string { m.router.resource }
  function GetOperation(m: Message): string { m.router.operation }
  function GetSource(m: Message): string { m.router.source }
  function GetGroup(m: Message): string { m.router.group }
  function GetID(m: Message): string { m.header.id }
  function GetParentID(m: Message): string { m.header.parentId }
  function GetTimestamp(m: Message): int64 { m.header.timestamp }
  function GetContent(m: Message): Content { m.content }

  /** The accessors see all of a message: two messages that agree on every
      accessor are the same message. */
  lemma AccessorsDetermineMessage(m: Message, n: Message)
    requires IsSync(m) == IsSync(n) && GetContent(m) == GetContent(n)
    requires GetID(m) == GetID(n) && GetParentID(m) == GetParentID(n) && GetTimestamp(m) == GetTimestamp(n)
    requires GetSource(m) == GetSource(n) && GetGroup(m) == GetGroup(n)
    requires GetResource(m) == GetResource(n) && GetOperation(m) == GetOperation(n)
    ensures m == n
  {
  }

  /** Two messages with the same header and content. */
  ghost predicate SameHeaderAndContent(m: Message, n: Message) {
    m.header == n.header && m.content == n.content
  }

  /* Builders.  Each writes a fixed set of fields and keeps the rest. */

  /** Addresses a message: sets where it comes from and which group it goes to. */
  function SetRoute(m: Message, source: string, group: string): (r: Message)
    ensures GetSource(r) == source && GetGroup(r) == group
    ensures GetResource(r) == GetResource(m) && GetOperation(r) == GetOperation(m)
    ensures SameHeaderAndContent(r, m)
  {
    m.(router := m.router.(source := source, group := group))
  }

  /** Sets what the message asks for: the operation and the resource it applies to. */
  function SetResourceOperation(m: Message, res: string, opr: string): (r: Message)
    ensures GetResource(r) == res && GetOperation(r) == opr
    ensures GetSource(r) == GetSource(m) && GetGroup(r) == GetGroup(m)
    ensures SameHeaderAndContent(r, m)
  {
    m.(router := m.router.(resource := res, operation := opr))
  }

  /** Sets the whole route: addressing first, then intent. */
  function BuildRouter(m: Message, source: string, group: string, res: string, opr: string): (r: Message)
    ensures r.router == MessageRoute(source, group, opr, res)
    ensures SameHeaderAndContent(r, m)
  {
    SetResourceOperation(SetRoute(m, source, group), res, opr)
  }

  /** Gives the message a new identifier, fresh from the generator; nothing
      else changes. */
  function UpdateID(m: Message, g: IdGen): (r: (Message, IdGen))
    ensures GetID(r.0) !in Issued(g)
    ensures Issued(r.1) == Issued(g) + {GetID(r.0)}
    ensures r.0 == m.(header := m.header.(id := GetID(r.0)))
  {
    var (id, g') := NewId(g);
    (m.(header := m.header.(id := id)), g')
  }

  /** Sets identity, correlation and time; keeps the sync flag, route and content. */
  function BuildHeader(m: Message, id: string, parentId: string, timestamp: int64): (r: Message)
    ensures GetID(r) == id && GetParentID(r) == parentId && GetTimestamp(r) == timestamp
    ensures IsSync(r) == IsSync(m)
    ensures r.router == m.router && r.content == m.content
  {
    m.(header := m.header.(id := id, parentId := parentId, timestamp := timestamp))
  }

  /** Replaces the content; keeps header and route. */
  function FillBody(m: Message, content: Content): (r: Message)
    ensures GetContent(r) == content
    ensures r.header == m.header && r.router == m.router
  {
    m.(content := content)
  }

  /* Constructors. */

  const EmptyRoute: MessageRoute := MessageRoute("", "", "", "")

  /** The zero message: every string empty, time zero, not sync, no content. */
  function NewRawMessage(): (r: Message)
    ensures GetID(r) == "" && GetParentID(r) == "" && GetTimestamp(r) == 0 && !IsSync(r)
    ensures GetSource(r) == "" && GetGroup(r) == "" && GetOperation(r) == "" && GetResource(r) == ""
    ensures GetContent(r) == Nil
  {
    Message(MessageHeader("", "", 0, false), EmptyRoute, Nil)
  }

  /** A new message answering (or, with an empty parent, starting) a
      conversation: fresh identifier, the given parent, stamped with the
      clock; no route and no content yet. */
  function NewMessage(parentId: string, g: IdGen, nanos: int64): (r: (Message, IdGen))
    ensures |GetID(r.0)| > 0
    ensures GetID(r.0) !in Issued(g)
    ensures Issued(r.1) == Issued(g) + {GetID(r.0)}
    ensures GetParentID(r.0) == parentId
    ensures GetTimestamp(r.0) == UnixMilli(nanos)
    ensures !IsSync(r.0)
    ensures r.0.router == EmptyRoute && GetContent(r.0) == Nil
  {
    var (id, g') := NewId(g);
    (BuildHeader(NewRawMessage(), id, parentId, UnixMilli(nanos)), g')
  }

  /* Derivations from a received message. */

  /** A copy of `m` under a new identifier: same parent, same time, same
      route, same content.  The copy is not sync, whatever `m` was. */
  function Clone(m: Message, g: IdGen): (r: (Message, IdGen))
    ensures GetID(r.0) !in Issued(g)
    ensures GetID(m) in Issued(g) ==> GetID(r.0) != GetID(m)
    ensures Issued(r.1) == Issued(g) + {GetID(r.0)}
    ensures GetParentID(r.0) == GetParentID(m) && GetTimestamp(r.0) == GetTimestamp(m)
    ensures r.0.router == m.router && GetContent(r.0) == GetContent(m)
    ensures !IsSync(r.0)
  {
    var (id, g') := NewId(g);
    var headed := BuildHeader(NewRawMessage(), id, GetParentID(m), GetTimestamp(m));
    var routed := BuildRouter(headed, GetSource(m), GetGroup(m), GetResource(m), GetOperation(m));
    (FillBody(routed, GetContent(m)), g')
  }

  /** The response to `m`: a new message whose parent is `m` itself, sent
      back along `m`'s source and group for the same resource, with
      operation "response" and the given content, stamped with the clock. */
  function NewRespByMessage(m: Message, content: Content, g: IdGen, nanos: int64): (r: (Message, IdGen))
    ensures GetID(r.0) !in Issued(g)
    ensures Issued(r.1) == Issued(g) + {GetID(r.0)}
    ensures GetParentID(r.0) == GetID(m)
    ensures GetTimestamp(r.0) == UnixMilli(nanos) && !IsSync(r.0)
    ensures GetSource(r.0) == GetSource(m) && GetGroup(r.0) == GetGroup(m) && GetResource(r.0) == GetResource(m)
    ensures GetOperation(r.0) == ResponseOperation
    ensures GetContent(r.0) == content
  {
    var (base, g') := NewMessage(GetID(m), g, nanos);
    var addressed := SetRoute(base, GetSource(m), GetGroup(m));
    var intent := SetResourceOperation(addressed, GetResource(m), ResponseOperation);
    (FillBody(intent, content), g')
  }

  /** The error message for `m`, as the code builds it: a new message whose
      parent is `m`'s parent (not `m`), for the same resource, with
      operation "error" and the error text as content.  It sets no source
      and no group. */
  function NewErrorMessage(m: Message, errContent: string, g: IdGen, nanos: int64): (r: (Message, IdGen))
    ensures GetID(r.0) !in Issued(g)
    ensures Issued(r.1) == Issued(g) + {GetID(r.0)}
    ensures GetParentID(r.0) == GetParentID(m)
    ensures GetTimestamp(r.0) == UnixMilli(nanos) && !IsSync(r.0)
    ensures GetSource(r.0) == "" && GetGroup(r.0) == "" && GetResource(r.0) == GetResource(m)
    ensures GetOperation(r.0) == ResponseErrorOperation
    ensures GetContent(r.0) == Text(errContent)
  {
    var (base, g') := NewMessage(m.header.parentId, g, nanos);
    var intent := SetResourceOperation(base, m.router.resource, ResponseErrorOperation);
    (FillBody(intent, Text(errContent)), g')
  }

  /* Laws of the builders. */

  /** Addressing and intent are independent: setting them in either order
      gives the same message, and that message is `BuildRouter`'s. */
  lemma BuildRouterInEitherOrder(m: Message, source: string, group: string, res: string, opr: string)
    ensures SetRoute(SetResourceOperation(m, res, opr), source, group) == BuildRouter(m, source, group, res, opr)
    ensures SetResourceOperation(SetRoute(m, source, group), res, opr) == BuildRouter(m, source, group, res, opr)
  {
  }

  /** `BuildRouter` forgets the previous route: messages that differ only
      in their route are equal after it. */
  lemma BuildRouterOverwritesRoute(m: Message, n: Message, source: string, group: string, res: string, opr: string)
    requires SameHeaderAndContent(m, n)
    ensures BuildRouter(m, source, group, res, opr) == BuildRouter(n, source, group, res, opr)
  {
  }

  /** A later builder call of the same kind wins over an earlier one. */
  lemma LastWriteWins(m: Message, s1: string, g1: string, s2: string, g2: string, c1: Content, c2: Content)
    ensures SetRoute(SetRoute(m, s1, g1), s2, g2) == SetRoute(m, s2, g2)
    ensures SetResourceOperation(SetResourceOperation(m, s1, g1), s2, g2) == SetResourceOperation(m, s2, g2)
    ensures FillBody(FillBody(m, c1), c2) == FillBody(m, c2)
  {
  }

  /** Writing back what the accessors read changes nothing. */
  lemma BuildersFixReadBack(m: Message)
    ensures SetRoute(m, GetSource(m), GetGroup(m)) == m
    ensures SetResourceOperation(m, GetResource(m), GetOperation(m)) == m
    ensures BuildHeader(m, GetID(m), GetParentID(m), GetTimestamp(m)) == m
    ensures FillBody(m, GetContent(m)) == m
  {
  }

  /** The documented way to assemble a message by hand,
      raw message, then header, then route, then body, determines every
      field but the sync flag, which stays off. */
  lemma RawChainDeterminesMessage(id: string, parentId: string, timestamp: int64,
                                     source: string, group: string, res: string, opr: string, content: Content)
    ensures FillBody(BuildRouter(BuildHeader(NewRawMessage(), id, parentId, timestamp), source, group, res, opr), content)
         == Message(MessageHeader(id, parentId, timestamp, false), MessageRoute(source, group, opr, res), content)
  {
  }

  /** A fresh message never has an identifier issued before it, and so never
      carries its parent's identifier when the parent was issued by the same
      generator. */
  lemma NewMessageIsNotItsParent(parentId: string, g: IdGen, nanos: int64)
    requires parentId in Issued(g)
    ensures GetID(NewMessage(parentId, g, nanos).0) != parentId
  {
  }

  /** `UpdateID` gives a message an identifier different from the one it had,
      when that one came from the same generator. */
  lemma UpdateIDChangesID(m: Message, g: IdGen)
    requires GetID(m) in Issued(g)
    ensures GetID(UpdateID(m, g).0) != GetID(m)
    ensures GetParentID(UpdateID(m, g).0) == GetParentID(m)
  {
  }
}
