# Conversation store: a Dafny model

This project models the in-memory conversation store of a small chat
service built on a generative-model gateway (`conversation.py`). It has
two parts.

- `ConversationHistory` is an ordered log of role-tagged turns (`user` or
  `model`). Its compound `send_message` appends the user's turn, hands the
  whole log to the gateway, and then does one of two things. On success it
  appends a model turn holding text picked by a fixed precedence. On any
  `Exception` raised in between it pops the user turn again and re-raises.
- `ConversationManager` is a process-wide singleton. It maps string ids
  to histories and supports create, get, delete and send-to-conversation.

The model is imperative where the source is:

- the history is a class whose `seq<Turn>` field the methods reassign
  (append, pop, reset);
- the registry is a class whose `map<string, ConversationHistory>` field
  the methods update;
- the metaclass instance cache is a class with one nullable slot.

The only pure decision in the source is how the response text is picked.
It is the function `Gateway.ExtractText`. The exchange protocol is
specified on values by `History.ExchangeSpec`, and the method
`ConversationHistory.SendMessage` is proved against it.

Files:

- `wrappers.dfy`: `Option` and `Result`.
- `errors.dfy`: the exceptions the store raises or passes on.
- `gateway.dfy`: the response shapes, the text precedence and its lemmas.
- `history.dfy`: turns, the exchange specification, alternation lemmas and
  the `ConversationHistory` class.
- `manager.dfy`: the registry class, the key-set replay specification with
  its trace lemma, the fresh-id lemma and `SingletonBase`.
- `scenarios.dfy`: end-to-end client runs that follow the HTTP integration
  tests. Each is proved from the method contracts alone.

How the external world is represented:

- The gateway call (`client.models.generate_content`) is a parameter
  `generate: (model name, turns, config) -> Reply`. A `Reply` is either
  `Raised(error)` or `Returned(response)`. The generation configuration is
  an uninterpreted type parameter that is passed through.
- `uuid4()` is a non-deterministic choice of any id that is not yet a key.
  `Manager.FreshIdExists` proves such an id always exists.
- The locks make each registry operation atomic. Each operation is one
  method, and the methods run one after another.

Points where the code behaves differently from what one might expect, and
which the model reproduces:

- `send_message` returns the whole response object, not the text.
  `send_message_to_conversation` then reads `response.text` itself, after
  the exchange has finished and outside its rollback. For a response with
  no `text` attribute, the history already holds the user turn and the
  part text or sentinel, and that read raises `AttributeError` to the
  caller. `Scenarios.BlockedReplyIsRecordedButRaises` shows this.
- Rollback also happens when *reading* the response raises, not only when
  the gateway call raises. This is the case where the first candidate's
  `content` is None (an `AttributeError`).
- A block reason is used only when it is truthy. An empty reason falls
  through to the "no text" sentinel.

## Model

| member | source | states |
|---|---|---|
| Gateway.ExtractText | conversation.py:54-66 | reading raises (AttributeError) exactly when the response has no `text` attribute and its first candidate has no content; a recorded text that is neither sentinel and not the `text` attribute is the first part of the first candidate |
| Gateway.ExtractTextIsFirstOffer | conversation.py:54-66 | the recorded text is the first of consolidated text, first part of the first candidate, blocked sentinel, no-text sentinel that is present; reading raises (AttributeError) exactly when there is no consolidated text and the first candidate has no content |
| Gateway.ConsolidatedTextFirst | conversation.py:54-55 | a present consolidated text is recorded whatever the candidates and feedback hold |
| Gateway.FirstPartSecond | conversation.py:56-57 | without consolidated text, the text of the first part of the first candidate is recorded |
| Gateway.OnlyFirstCandidateCounts | conversation.py:56-57 | candidates after the first never change the outcome of reading the response |
| Gateway.SentinelsLast | conversation.py:58-66 | with neither text nor a usable first part: a truthy block reason gives "[Blocked by Safety Setting: reason]", otherwise "[No response text found]" |
| Gateway.BlockedSentinelInjective | conversation.py:62-64 | distinct block reasons give distinct recorded sentinels |
| Gateway.BlockedIsNotNoText | conversation.py:62-66 | the blocked sentinel never equals the no-text sentinel |
| History.ExchangeSpec | conversation.py:47-73 | on success the log grows by exactly two, keeps every earlier turn, and ends with the user turn and then the model turn holding the extracted text; on any exception (gateway or reading) the log is exactly the old one and the exception is passed on unchanged |
| History.AlternatingHasNoAdjacentUserTurns | conversation.py:47-73 | an alternating log never has two user turns in a row |
| History.ExchangeKeepsAlternating | conversation.py:47-73 | one exchange, successful or rolled back, keeps a user/model alternating log alternating |
| History.ExchangesAlternate | conversation.py:47-73 | any run of exchanges from an empty log yields a user/model alternating log |
| History.ExchangesOnlyExtend | conversation.py:47-73 | a run of exchanges never rewrites earlier turns: the old log is a prefix of the new |
| History.ConversationHistory.constructor | conversation.py:12-13 | a new history is empty |
| History.ConversationHistory.AddUserMessage | conversation.py:15-18 | appends exactly one user turn with the given text |
| History.ConversationHistory.AddModelResponse | conversation.py:20-31 | on an empty history raises ValueError and stays empty; otherwise appends exactly one model turn, also right after a model turn |
| History.ConversationHistory.Contents | conversation.py:33-38 | returns the stored turn list, of length `Length()` |
| History.ConversationHistory.SendMessage | conversation.py:40-73 | the gateway is called with the old log plus the user turn; result and new log are those of `ExchangeSpec`; on success the length grows by 2, on failure the log is unchanged |
| History.ConversationHistory.Clear | conversation.py:75-76 | the history becomes empty |
| History.ConversationHistory.Length | conversation.py:78-79 | the number of stored turns |
| History.ConversationHistory.Bool | conversation.py:81-82 | a history is truthy, also when empty |
| Manager.Truthy | conversation.py:144-145 | the lookup result counts as found exactly when an entry exists, however empty its history |
| Manager.ReplayMembership | conversation.py:106-131 | after any run of creates and deletes an id is registered iff its latest event is a create (or it had no event and was registered before) |
| Manager.FreshIdExists | conversation.py:107 | an id outside the current keys always exists |
| Manager.ConversationManager.constructor | conversation.py:97-104 | a new manager has an empty registry and is flagged initialised |
| Manager.ConversationManager.Initialize | conversation.py:97-104 | running the initialiser again on an initialised manager changes nothing, and the registry invariant still holds |
| Manager.ConversationManager.CreateConversation | conversation.py:106-111 | returns an id that was not a key; binds it to a new, empty, unshared history; leaves every other entry unchanged |
| Manager.ConversationManager.GetConversation | conversation.py:113-121 | returns the stored history for a present id and None for an absent one, changing nothing |
| Manager.ConversationManager.DeleteConversation | conversation.py:123-131 | returns whether the id was present and removes that key only |
| Manager.ConversationManager.SendMessageToConversation | conversation.py:133-171 | an unknown id raises ValueError and nothing changes; otherwise that conversation's log follows `ExchangeSpec`, other conversations and the map are unchanged, and the result is the exchange's exception passed on, or the response's own `text`, or AttributeError (with both turns kept) when the response has no `text` attribute |
| Manager.SingletonBase.constructor | conversation.py:85-87 | the cache starts without an instance |
| Manager.SingletonBase.Call | conversation.py:89-93 | the first call constructs a fresh, empty manager; every later call returns that same object, whose registry invariant holds |
| Scenarios.CreateThenGet | test_client.py:46-61 | a created conversation has an empty history of length 0 |
| Scenarios.SendThenGet | test_client.py:63-109 | after one successful message the history is the user turn, then the model turn with the returned text |
| Scenarios.BlockedReplyIsRecordedButRaises | conversation.py:151-171 | for a blocked response without a `text` attribute the history keeps the user turn and the sentinel while the caller gets AttributeError |
| Scenarios.TwoMessages | test_client.py:184-233 | two successful messages leave four turns: each message followed by the model turn holding the text returned for it |
| Scenarios.FailedSendRollsBack | conversation.py:70-73 | a gateway exception is surfaced and the history is empty again |
| Scenarios.SendToUnknown | test_client.py:153-165 | sending to an unknown id raises ValueError and registers nothing |
| Scenarios.DeleteThenLookup | test_client.py:111-133 | deleting twice returns true then false, and a later lookup finds nothing |
| Scenarios.SingletonIsShared | conversation.py:85-93 | two calls of the singleton give one manager sharing its entries |

## Left out

- Threads and locks: the registry lock, the metaclass lock and concurrent callers. Each registry operation is one atomic method. The source has no per-session lock, so two exchanges on one conversation can interleave; the model is sequential and does not represent that race.
- Exceptions outside `Exception` (`BaseException` subclasses such as `KeyboardInterrupt` or `SystemExit`) raised during the gateway call. The source's `except Exception` does not catch them, so they skip the rollback and leave the user turn in place. The model's `Reply` carries only exceptions that the rollback catches.
- Logging and `print` warnings, including the warning for a model turn right after a model turn. They have no effect on state.
- The real SDK call, model selection and the contents of the generation configuration. These are external; the gateway is a function parameter.
- UUID format and randomness. An id is any string not yet a key, so the model does not capture the 36-character canonical form.
- Aliasing of `contents`. The source hands the live list to the gateway, which could mutate it. The model passes the log as a value.
- A response whose `text` attribute exists but holds None. The source would record None as the model turn's text and return None to the caller; the model's `text` is either absent or a string. A part whose `text` is None is likewise not represented.
- How an enum block reason is rendered by the f-string. The reason is taken as the string it renders to.
- `SingletonBase._instances` is a dictionary keyed by class. Only one class uses it, so it is a single slot.
- The HTTP layer, the BigQuery service, the configuration builders and the vendor client construction. These are outside the store.
