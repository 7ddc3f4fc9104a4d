# Chat detail function: a Dafny model

This project models the serverless function that serves one chat of a
user's stored conversation history (`functions/rag-get-chat-detail/app.py`).
Each user (the `sub` claim of the verified token) owns one stored item whose
`chats` attribute is an ordered list of chats; each chat has an `id` and an
ordered list of `messages`. The function answers:

- `GET /chats/{chatId}`: the messages of the first chat with that id, each
  turned into a sanitised record (defaults for `id`, `role` and `content`,
  optional `mode`, `model` and `attachment`, the attachment itself
  re-projected onto a fixed set of keys), or 404 when there is no such
  chat or it has no messages;
- `DELETE /chats/{chatId}`: removes every chat with that id from the user's
  item and writes the item's `chats` back only when something was removed,
  answering 404 otherwise;
- `OPTIONS`: a preflight answered 200 before any check of the caller;
- anything else: 405; a request without a method 400, without a subject 401,
  a GET or DELETE without a `chatId` path parameter 400.

Modules, one per concern of the file:

- `Values` (values.dfy): Python-level values (`Value`, `Dict`, `Option`),
  Python truthiness and `dict.get` with a default.
- `Chats` (chats.dfy): the stored aggregate (`StoredMessage`, `Chat`,
  `UserRecord`, `Table`), the first-match search, the removal filter and the
  table after a delete, with their lemmas.
- `Projection` (projection.dfy): `process_attachment` and the per-message
  projection as methods that build the output dictionary by conditional
  insertions, proved against relational specifications
  (`IsAttachmentView`, `IsMessageView`) that are shown to determine the
  output uniquely.
- `Store` (store.dfy): the table as a class `ChatTable` with one field
  `items`; `GetChatMessages` (the search loop with `break` and the
  projection loop) and `DeleteChat` (filter, then a conditional write).
- `Handler` (handler.dfy): the gateway event, method resolution by
  precedence and upper-casing, the route decision, the status-code table
  `ExpectedStatus`, and `Handle`, which carries out a request against a
  `ChatTable`.

Storage is the `items` field: `get_item` reads it and
`update_item ... SET chats = :chats` replaces the `chats` attribute of one
item and nothing else. A key that is absent from a stored dictionary is an
`Option` that is `None`.

## Model

| member | source | states |
|---|---|---|
| `Projection.ProcessAttachment` | functions/rag-get-chat-detail/app.py:28-58 | None exactly for a missing or empty attachment; otherwise its view: `fileName`/`fileType` (default `''`) and `size` (default `0`) always present, `s3Key`/`data` copied only when present and truthy, `displayUrl`/`note` copied whenever present, no other key |
| `Projection.AttachmentViewUnique` | functions/rag-get-chat-detail/app.py:34-56 | the attachment-view conditions leave no choice: two views of one attachment are equal |
| `Projection.ProcessMessage` | functions/rag-get-chat-detail/app.py:93-109 | the message view: `id`/`role`/`content` always present with default `''`, `mode`/`model` present exactly when stored, `attachment` present exactly when the stored attachment is a non-empty dictionary and then equal to its attachment view, no other key |
| `Projection.MessageViewUnique` | functions/rag-get-chat-detail/app.py:93-109 | two views of one message are equal |
| `Chats.FindChat` | functions/rag-get-chat-detail/app.py:78-82 | the chat found has the requested id and is in the list; nothing is found exactly when no chat has the id |
| `Chats.FindChatIsFirst` | functions/rag-get-chat-detail/app.py:79-82 | the chat found is the one at the first index whose id matches |
| `Chats.FindChatHasFirstIndex` | functions/rag-get-chat-detail/app.py:79-82 | conversely, a found chat sits at an index with a matching id and no matching id before it |
| `Chats.FindChatAppend` | functions/rag-get-chat-detail/app.py:79-82 | a match in an earlier part of the list hides every later duplicate; without one the search goes on into the later part |
| `Chats.ChatsOf` | functions/rag-get-chat-detail/app.py:74-75 | the user's chats list, empty both when the user has no item and when the item has no `chats` attribute |
| `Chats.TargetMessages` | functions/rag-get-chat-detail/app.py:78-86 | the `target_messages` left by the search: empty when no chat has the id; when non-empty, exactly the `messages` list of the chat the first-match search picks (at the first matching index, by `FindChatHasFirstIndex`) |
| `Chats.TargetMessagesAtFirst` | functions/rag-get-chat-detail/app.py:79-82 | the chat at the first matching index supplies the target messages: its `messages` list, or empty when the key is absent |
| `Chats.TargetMessagesIgnoresLater` | functions/rag-get-chat-detail/app.py:78-86 | once a chat with the id appears, later chats with that id never supply messages, even when the first one has none |
| `Store.ChatTable.GetChatMessages` | functions/rag-get-chat-detail/app.py:70-124 | None exactly when the first matching chat is missing or has an absent or empty message list; otherwise one view per stored message of that chat, in stored order |
| `Chats.WithoutChat` | functions/rag-get-chat-detail/app.py:143 | the filtered list is no longer than the original, holds only chats of the original and no chat with the id |
| `Chats.WithoutChatAppend` | functions/rag-get-chat-detail/app.py:143 | the filter works piecewise over concatenation, so the kept chats keep their relative order |
| `Chats.WithoutChatKeeps` | functions/rag-get-chat-detail/app.py:143 | every chat with another id is kept |
| `Chats.WithoutChatShrinks` | functions/rag-get-chat-detail/app.py:143-148 | the list gets shorter exactly when some chat has the id; when none does it is unchanged |
| `Chats.WithoutChatIdempotent` | functions/rag-get-chat-detail/app.py:143-148 | filtering twice is filtering once |
| `Chats.AfterDelete` | functions/rag-get-chat-detail/app.py:136-157 | after a delete no chat with the id remains for that user; other users' items and the user's other attributes are unchanged; when nothing matched, the table is unchanged |
| `Chats.DeletedChatIsGone` | functions/rag-get-chat-detail/app.py:130-160 | after a delete a read of the same chat finds no messages and a second delete changes nothing |
| `Store.ChatTable.DeleteChat` | functions/rag-get-chat-detail/app.py:130-160 | reports a removal exactly when the user has an item holding a chat with the id; the new table is the one `AfterDelete` describes |
| `Handler.ToUpper` | functions/rag-get-chat-detail/app.py:207-208 | the upper-cased method has the same length and each character upper-cased |
| `Handler.ToUpperIdempotent` | functions/rag-get-chat-detail/app.py:207-208 | upper-casing twice is upper-casing once |
| `Handler.RawMethod` | functions/rag-get-chat-detail/app.py:184-205 | the method is the value (possibly null or empty) of the first location whose key is present among `httpMethod`, `requestContext.httpMethod`, `requestContext.http.method`; none exactly when all three are absent |
| `Handler.ResolvedMethod` | functions/rag-get-chat-detail/app.py:207-208 | none exactly when the winning location is absent, null or empty (the falsy method of line 226); otherwise the raw method upper-cased by `ToUpper`, hence non-empty, of the same length and with no lower-case ASCII letter |
| `Handler.SubjectOf` | functions/rag-get-chat-detail/app.py:241-251 | the `sub` claim exactly when every key on `requestContext.authorizer.jwt.claims.sub` is present, otherwise none |
| `Handler.ChatIdOf` | functions/rag-get-chat-detail/app.py:256-265 | the `chatId` path parameter exactly when `pathParameters` and its `chatId` key are present (the same lookup as lines 285-294), otherwise none |
| `Handler.RouteOf` | functions/rag-get-chat-detail/app.py:216-318 | the early returns in order: preflight exactly for OPTIONS, a missing method exactly when none is resolved, the path parameter consulted only once a subject is known, storage reached only with the event's subject and chat id for GET or DELETE, any other method refused only for a known caller |
| `Handler.ErrorText` | functions/rag-get-chat-detail/app.py:231-317 | every route but the preflight has a non-empty error text, which the handler uses when the answer is not 200; the 405 text names the refused method |
| `Handler.ExpectedStatus` | functions/rag-get-chat-detail/app.py:216-318 | the status is one of 200/400/401/404/405: OPTIONS 200 before any auth check, no method 400, 401 exactly for a non-OPTIONS method without `sub`, GET/DELETE without `chatId` 400, GET 200 or 404 as the lookup finds messages, DELETE 200 or 404 as a chat with the id exists, 405 exactly for any other method of an authenticated caller |
| `Handler.EmptyTopLevelMethodShadows` | functions/rag-get-chat-detail/app.py:187-188 | a present but null or empty top-level `httpMethod` hides the request context's method and the answer is 400 |
| `Handler.MethodCaseInsensitive` | functions/rag-get-chat-detail/app.py:187-208 | two events alike in caller and chat id whose winning method location, whichever of the three it is, holds a method and its upper-cased form get the same answer |
| `Handler.Handle` | functions/rag-get-chat-detail/app.py:166-318 | the status is `ExpectedStatus` of the event and the table as it arrived; failures carry their error text; a successful GET carries the message views; only a DELETE writes, and exactly what `delete_chat` writes |

## Left out

- DynamoDB access, the client, region and table configuration: the table is the `items` field of `ChatTable`.
- Logging, `json.dumps` serialisation and the CORS headers: output plumbing with no decision in it.
- `DecimalEncoder`: numbers are modelled as integers only; the non-integral (float) case is not modelled.
- The `except` branches are not modelled, because the typed model cannot express malformed data and its storage cannot fail. Malformed stored or request values reach two of them (line numbers are those of `functions/rag-get-chat-detail/app.py`). A truthy attachment that is not a dictionary makes the per-message handler at lines 113-121 emit its fallback record. Other malformed values lead to the 500 answer at lines 328-337: a null `chats` attribute, a chat that is not a dictionary, a null `requestContext` without a top-level `httpMethod`, or a truthy method that is not a string. A failing `get_item` or `update_item` is re-raised by `get_chat_messages` and `delete_chat` and also answered 500; a failing `update_item` after a successful read writes nothing. The fallback attachment record at lines 63-68 and the `KeyError` 400 at lines 320-326 cannot be reached: every subscript outside the inner `try` blocks is guarded by an `in` test.
- The `resource` branch of method resolution only logs; it never sets a method and is not modelled.
- Handle: the debug listing of event keys in the body of the "method not found" answer is not modelled.
- ToUpper: upper-cases ASCII `a`-`z` only, while Python's `str.upper` also maps other scripts and can lengthen a string. This changes answers: Python upper-cases "optıons" (with the dotless ı, U+0131) to "OPTIONS" and answers 200, while the model keeps the ı and answers 401 or 405.
- SubjectOf, ChatIdOf: the claim and the path parameter are strings, as the gateway delivers them; a non-string value is not modelled.
- The unguarded read-modify-write in `delete_chat` can lose concurrent updates; the model is sequential.
- The streaming chat orchestrator, retrieval augmentation, model gateway and turn persistence of the wider system are not part of this model.
