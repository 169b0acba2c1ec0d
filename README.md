# Chat backend message store

A model of the backend of a small Telegram-style chat. The backend keeps every message in one in-memory list. It offers two operations on that list:

- `create_message` completes a submitted message. It gives a missing id a fresh UUID and a missing timestamp the current time. It then appends the message to the list. If the message is the user's own (`isMine`), it appends one synthetic reply after it. The reply is not the user's, and its text is one of seven canned strings. Finally it returns the completed message.
- `get_messages` returns the list as it is.

The model is one module, `ChatBackend` (`chat_backend.dfy`):

- `Message` is a datatype. Its constructor has the request model's defaults: `id := ""`, `timestamp := ""` and `isMine := true`. `text` has no default.
- `AutoResponses` holds the seven canned replies.
- `MessageStore` is a class whose field `messages: seq<Message>` is the shared list. Its methods `CreateMessage` and `GetMessages` are the two operations.
- The values that the UUID generator, the clock and the random choice produce during one request come in as a `Draws` argument. With that argument every operation is deterministic. `ValidDraws` says what those library calls guarantee: the text of each of the two UUIDs is never empty, the clock's two ISO-8601 texts are never empty, and a random choice is an index of the canned list.
- `Completed`, `AutoReply` and `Appended` state what one call of `create_message` does.
- `Replay` handles a sequence of submissions one after another. The lemmas about it state what holds for any history of requests.
- `Conversation` is the shape every store built this way has: a run of turns. A turn is either one message that is not the user's, or a user's message directly followed by a canned reply. Every message in it has a non-empty id and a non-empty timestamp.
- `MessageStore` keeps a ghost `history` of the submissions it has handled. Its invariant `Valid()` says that the stored messages are `Replay([], history)` and form a `Conversation`. So every lemma about `Replay` applies to the store that a run of `CreateMessage` calls builds.

What the code does and does not do (`backend/main.py`):

- The code does not reject a duplicate id. A client may submit an explicit id equal to a stored one, and both messages are kept.
- The code does not reject an empty `text`. Only a missing `text` is refused, by the request model.
- `get_messages` returns the messages in insertion order. It does not sort them by timestamp.
- The reply is inserted before `create_message` returns: the request waits out the delay.

## Model

| member | source | states |
|---|---|---|
| `ChatBackend.Completed` | backend/main.py:57-60 | the completed id and timestamp are never empty; the id is the fresh id when the submitted id is empty, and otherwise the submitted id unchanged; the timestamp is the current time when the submitted one is empty, and otherwise the submitted one unchanged; text and isMine are kept |
| `ChatBackend.AutoReply` | backend/main.py:67-72 | the reply is not the user's, has the drawn reply id and reply time, and its text is the chosen entry of the seven canned replies |
| `ChatBackend.Appended` | backend/main.py:62-73 | one call appends exactly two messages for a user's message and exactly one otherwise; the first is the completed message and the second, when present, is the canned reply |
| `ChatBackend.ConversationConcat` | backend/main.py:62-73 | appending one well-formed run of turns to another gives a well-formed run of turns |
| `ChatBackend.AppendedConversation` | backend/main.py:62-73 | what one call appends is a well-formed run of turns on its own |
| `ChatBackend.UserMessageAnswered` | backend/main.py:65-73 | in a store of that shape every user message is directly followed by a message that is not the user's and whose text is a canned reply |
| `ChatBackend.ReplayPrefix` | backend/main.py:62-73 | over any history of requests the store is append-only: the old store is a prefix of the new one |
| `ChatBackend.ReplayLength` | backend/main.py:65-73 | over any history of requests the store grows by one message per request plus one per user message, so a message that is not the user's never triggers a reply |
| `ChatBackend.ReplayConversation` | backend/main.py:55-75 | over any history of requests a well-formed store stays well-formed |
| `ChatBackend.CompletedIdempotent` | backend/main.py:57-60 | completing a message that was already completed changes nothing |
| `ChatBackend.UserCount` | backend/main.py:65 | the number of user messages in a history is at most its length, and is zero exactly when no submission is the user's |
| `ChatBackend.UserCountConcat` | backend/main.py:65 | the number of user messages in two histories joined is the sum of their numbers |
| `ChatBackend.ReplaySnoc` | backend/main.py:55-75 | handling one more request appends exactly what that one call of create_message appends, after the store the earlier requests built |
| `ChatBackend.ConversationStamped` | backend/main.py:57-60 | every message in a well-formed store has a non-empty id and a non-empty timestamp |
| `ChatBackend.TextOnlySubmission` | backend/main.py:34-38 | a message given only a text gets the fresh id and the current time, counts as the user's own, and is followed by the canned reply |
| `ChatBackend.MessageStore.constructor` | backend/main.py:42 | the store starts empty, with an empty history, and well-formed |
| `ChatBackend.MessageStore.GetMessages` | backend/main.py:50-52 | returns the stored messages in insertion order and changes nothing, so two calls with no creation between them return the same sequence |
| `ChatBackend.MessageStore.CreateMessage` | backend/main.py:55-75 | returns the completed message and appends exactly it, then the canned reply if it is the user's; the old contents are a prefix of the new, the store grows by 2 or 1, the request joins the history, and the store stays equal to the replay of its history and well-formed |

## Left out

- The FastAPI application, the `GET /` endpoint and the CORS middleware (backend/main.py:21-30, 45-47) are framework plumbing and are not modelled.
- The random delay of one to three seconds before the reply (backend/main.py:66) is a floating-point wall-clock wait. The model has the two appends happen one after the other.
- Concurrency is not modelled. While one request waits out its delay, other requests can append to the store. Then a reply need not sit directly after its trigger, and `Conversation` would not hold. The model handles requests one at a time.
- `uuid.uuid4()`, `datetime.now().isoformat()` and `random.choice` (backend/main.py:58, 60, 68-70) are library calls. Their results are the `Draws` argument. The model does not say that generated ids are distinct from each other or from stored ids, or that later times are larger.
- The request object is changed in place (backend/main.py:58, 60). The framework builds it afresh for each request and only the store keeps it. The model completes a value instead, and stores and returns that value.
- The request model's parsing and type checking of the JSON body is framework behaviour. The model keeps only its defaults and the fact that `text` is required, as the `Message` constructor.
- frontend/src/App.tsx is a React user interface (network calls, scrolling, time formatting, rendering) and is not part of this model.
