# Beehive message envelope, modelled in Dafny

This project models the message envelope of the beehive module bus
(`beehive/pkg/core/model/message.go`). Every unit of traffic between modules is
wrapped in a `Message`. A message holds three parts:

- a `MessageHeader`: identifier, parent identifier, millisecond timestamp and sync flag;
- a `MessageRoute`: source module, destination group, operation and resource;
- an opaque content.

The model covers the builders that write fixed subsets of these fields, the read
accessors, the two constructors, and the three derivations (`Clone`,
`NewRespByMessage`, `NewErrorMessage`). The derivations carry the bus's
correlation protocol: an answer names the message it answers in its parent
identifier.

Files:

- `ids.dfy` (module `Ids`): the identifier generator that stands in for the uuid library.
  The k-th identifier is the decimal spelling of k. The ghost set `Issued` holds every
  identifier handed out so far. `NewId` returns an identifier outside `Issued` and adds it.
  Its freshness rests on `Decimal` being injective, which is proved by reading the
  spelling back (`ParseDecimalInvertsDecimal`).
- `clock.dfy` (module `Clock`): Go's `int64`, and the millisecond timestamp computed from a
  nanosecond clock reading with Go's division, which truncates toward zero.
- `message.dfy` (module `Model`): the records, the operation constants, the accessors,
  the builders, the constructors, the derivations and the builder laws.
- `correlation.dfy` (module `Correlation`): the "answers" relation (`RepliesTo`), what the
  derivations promise about it, worked examples of the protocol (a pod-insert request and its response,
  a root request and its error message, a message cloned twice), and the error-correlation finding.

In Go, every builder mutates the message in place and returns the same pointer, so calls
chain. Here a message is an immutable value, and each builder is a function from the old
message to the new one. A chain of builders is therefore a composition of functions.

Two inputs replace the non-deterministic calls:

- The uuid call becomes an `IdGen` state. It is passed in and returned by every operation
  that needs an identifier.
- The wall clock becomes a parameter `nanos: int64`, holding the value `time.Now().UnixNano()`
  would return.

`Content` has three cases: `Nil` (the zero value of Go's `interface{}`), `Text` (the string
that `NewErrorMessage` stores) and `Value(p)` (a producer payload of the opaque type `Payload`).
The bus never inspects a `Value`.

Three facts about the code that a reader might not expect:

- A response keeps the original's source and group unchanged (message.go:158); it does not
  swap them (`NewRespByMessage`).
- A clone is built from a raw message (message.go:151), so its sync flag is always off, whatever
  the original's was (`Clone`).
- The error message sets no source and no group (message.go:165-167), so both are empty
  (`NewErrorMessage`).

## Model

| member | source | states |
|---|---|---|
| Ids.NewId | beehive/pkg/core/model/message.go:141 | a newly generated identifier is non-empty and was never issued before; after the call, the issued set is the old one plus exactly that identifier |
| Clock.UnixMilli | beehive/pkg/core/model/message.go:143 | the timestamp is the number of whole milliseconds in the nanosecond reading, rounded toward zero for readings on either side of the epoch, as Go's `/` rounds |
| Clock.UnixMilliMonotone | beehive/pkg/core/model/message.go:143 | a later clock reading never gives an earlier timestamp |
| Clock.UnixMilliTruncatesTowardZero | beehive/pkg/core/model/message.go:143 | one nanosecond before the epoch stamps 0, not -1, so the division truncates rather than floors |
| Model.AccessorsDetermineMessage | beehive/pkg/core/model/message.go:76-110 | the nine read accessors `IsSync`, `GetResource`, `GetOperation`, `GetSource`, `GetGroup`, `GetID`, `GetParentID`, `GetTimestamp` and `GetContent` each read one field, and together they see the whole message: two messages that agree on all of them are equal |
| Model.SetRoute | beehive/pkg/core/model/message.go:69-73 | source and group become the arguments; resource, operation, the whole header and the content are unchanged |
| Model.SetResourceOperation | beehive/pkg/core/model/message.go:63-67 | resource and operation become the arguments; source, group, the whole header and the content are unchanged |
| Model.BuildRouter | beehive/pkg/core/model/message.go:57-61 | all four route fields equal the arguments; the header and the content are unchanged |
| Model.BuildRouterInEitherOrder | beehive/pkg/core/model/message.go:57-73 | setting addressing then intent, or intent then addressing, gives the same message, and that message is what `BuildRouter` gives |
| Model.BuildRouterOverwritesRoute | beehive/pkg/core/model/message.go:57-61 | the result of `BuildRouter` does not depend on the route the message had before |
| Model.LastWriteWins | beehive/pkg/core/model/message.go:63-129 | a second `SetRoute`, `SetResourceOperation` or `FillBody` call cancels the first one of the same kind |
| Model.BuildersFixReadBack | beehive/pkg/core/model/message.go:63-129 | writing back the values the accessors read leaves a message unchanged, for every builder |
| Model.UpdateID | beehive/pkg/core/model/message.go:112-115 | the identifier becomes one never issued before, and that identifier joins the issued set; every other field is unchanged |
| Model.UpdateIDChangesID | beehive/pkg/core/model/message.go:112-115 | a message whose identifier was issued by the generator gets a different identifier, and keeps its parent |
| Model.BuildHeader | beehive/pkg/core/model/message.go:117-123 | identifier, parent and timestamp become the arguments; the sync flag, the route and the content are unchanged |
| Model.FillBody | beehive/pkg/core/model/message.go:125-129 | the content becomes the argument; header and route are unchanged |
| Model.NewRawMessage | beehive/pkg/core/model/message.go:131-135 | every accessor reads its zero value: empty strings, timestamp 0, not sync, no content |
| Model.RawChainDeterminesMessage | beehive/pkg/core/model/message.go:131-135 | the documented chain (raw message, then header, then route, then body) determines every field; the sync flag stays off |
| Model.NewMessage | beehive/pkg/core/model/message.go:137-145 | the identifier is non-empty and was never issued before; the parent is the argument; the timestamp is the clock reading in milliseconds; not sync; empty route; no content |
| Model.NewMessageIsNotItsParent | beehive/pkg/core/model/message.go:139-145 | when the parent identifier came from the same generator, the new message's identifier differs from it |
| Model.Clone | beehive/pkg/core/model/message.go:147-154 | the identifier was never issued before, so it differs from the original's when that was issued; parent, timestamp, all four route fields and content equal the original's; the clone is not sync |
| Model.NewRespByMessage | beehive/pkg/core/model/message.go:156-161 | the parent is the original's identifier; the identifier is fresh; source, group and resource equal the original's; the operation is "response"; the content is the argument; the timestamp is the derivation-time clock reading |
| Model.NewErrorMessage | beehive/pkg/core/model/message.go:163-168 | the parent is the original's parent, not the original; the identifier is fresh; the resource is the original's; the operation is "error"; source and group are empty; the content is the error text |
| Correlation.ResponseRepliesToRequest | beehive/pkg/core/model/message.go:156-161 | a response always answers the message it was derived from |
| Correlation.CloneAnswersWhatOriginalAnswers | beehive/pkg/core/model/message.go:147-154 | a clone answers exactly the messages its original answers |
| Correlation.CloneIsNoReplyToOriginal | beehive/pkg/core/model/message.go:147-154 | a clone of a message that is not its own parent does not answer that message |
| Correlation.CloneTwiceScenario | beehive/pkg/core/model/message.go:147-154 | two clones of one message have distinct identifiers, both different from the original's; they share the original's route and content |
| Correlation.ResponseScenario | beehive/pkg/core/model/message.go:156-161 | for an "edgehub" to "edged" pod insert, the response answers the request, keeps source, group and resource, and carries the status |
| Correlation.RootErrorIsNotMatched | beehive/pkg/core/model/message.go:163-168 | the error message for a root request has an empty parent, so it does not answer that request |
| Correlation.ErrorMessageMissesRequest | beehive/pkg/core/model/message.go:163-168 | as written, the error message for a request that is not its own parent never answers it |
| Correlation.NewErrorReply | beehive/pkg/core/model/message.go:48-49 | the corrected error message answers the failing message; it keeps every other property of `NewErrorMessage` |
| Correlation.ErrorReplyDiffersOnlyInParent | beehive/pkg/core/model/message.go:163-168 | the corrected error message differs from the written one only in its parent identifier, and uses the generator the same way |
| Correlation.EveryAnswerRepliesToRequest | beehive/pkg/core/model/message.go:48-49 | with the correction, both kinds of answer, response and error, answer the request they were derived from |

## Left out

- JSON serialisation and the struct tags (lines 28-54) are not modelled. Their malformed
  `omitempty` options matter only to Go's `encoding/json`, which is not part of this model.
- The uuid algorithm is not modelled. `Ids.NewId` keeps only the property the bus relies on:
  a new identifier was never issued before. Identifier generation under concurrency is not modelled.
- The wall clock is not modelled. Its nanosecond reading is a parameter of each stamping operation.
- The dynamic type of `Content` is not modelled. The model distinguishes only nil, the error
  text, and an opaque producer payload.
- Aliasing of the returned pointer is not modelled. Builders return new values, so the model
  cannot observe two names for one message.
- The receiver of `Clone` and `NewRespByMessage` is not modelled. The Go methods never read
  it, so the model's functions do not take it.
- Who sets `Sync` is not modelled. That is the external synchronous-send helper; in this
  model every constructor and derivation leaves the flag off.
- Nil messages are not modelled. In Go every builder and accessor dereferences its receiver
  (lines 57-129), and `Clone`, `NewRespByMessage` and `NewErrorMessage` dereference their
  message argument (lines 151, 158, 165), so a nil pointer panics; the model's `Message` is a
  value and cannot be nil.
- The resource-type constants (lines 17-23) are not modelled. They are plain strings with no behaviour.

## Findings

| source | as written | input that shows it | evidently intended | confidence | as-written member | corrected member |
|---|---|---|---|---|---|---|
| beehive/pkg/core/model/message.go:165 | the error message takes the failing message's parent identifier as its own parent | a root request A (parent "") that fails: the error's parent is "", not A's identifier, so a sender waiting on A never sees the error | the error answers the failing message, as the header's comment (lines 48-49) asks of every answer and as `NewRespByMessage` does | medium; not executed | Correlation.ErrorMessageMissesRequest | Correlation.NewErrorReply |
