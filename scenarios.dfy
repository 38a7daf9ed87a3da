/**
 * End-to-end runs of the store, each following one of the HTTP integration
 * tests or one of the documented scenarios, derived from the contracts of
 * the registry and history methods alone.
 */
module Scenarios {
  import opened Wrappers
  import opened Errors
  import opened Gateway
  import opened History
  import opened Manager

  /** A new conversation is registered with an empty history of length 0. */
  method CreateThenGet() returns (id: string, turns: seq<Turn>, length: nat)
    ensures turns == [] && length == 0
  {
    var manager := new ConversationManager();
    id := manager.CreateConversation();
    var found := manager.GetConversation(id);
    turns := found.value.Contents();
    length := found.value.Length();
  }

  /**
   * One successful message: the reply text comes back and the history is the
   * user's message followed by the model's turn holding that same text.
   */
  method SendThenGet<C>(generate: Generator<C>, modelName: string, message: string, config: C)
    returns (reply: Result<string, Error>, turns: seq<Turn>)
    requires generate(modelName, [Turn(User, message)], config).Returned?
    requires generate(modelName, [Turn(User, message)], config).response.text.Some?
    ensures reply.Success?
    ensures turns == [Turn(User, message), Turn(Model, reply.value)]
  {
    var manager := new ConversationManager();
    var id := manager.CreateConversation();
    assert [] + [Turn(User, message)] == [Turn(User, message)];
    reply := manager.SendMessageToConversation(id, modelName, generate, message, config);
    var found := manager.GetConversation(id);
    turns := found.value.Contents();
  }

  /**
   * A blocked response without a `text` attribute: the history keeps the
   * user turn and the blocked sentinel, yet the caller gets AttributeError.
   */
  method BlockedReplyIsRecordedButRaises<C>(generate: Generator<C>, modelName: string,
                                            message: string, config: C, reason: string)
    returns (reply: Result<string, Error>, turns: seq<Turn>)
    requires reason != ""
    requires generate(modelName, [Turn(User, message)], config) ==
             Returned(Response(None, [], Some(reason)))
    ensures reply == Failure(NoTextAttribute)
    ensures turns == [Turn(User, message), Turn(Model, BlockedSentinel(reason))]
  {
    var manager := new ConversationManager();
    var id := manager.CreateConversation();
    assert [] + [Turn(User, message)] == [Turn(User, message)];
    reply := manager.SendMessageToConversation(id, modelName, generate, message, config);
    var found := manager.GetConversation(id);
    turns := found.value.Contents();
  }

  /**
   * Two successful messages leave four turns, in order, each model turn
   * holding the text returned for its message.
   */
  method TwoMessages<C>(generate: Generator<C>, modelName: string, first: string, second: string,
                        config: C)
    returns (r1: Result<string, Error>, r2: Result<string, Error>, turns: seq<Turn>)
    requires generate(modelName, [Turn(User, first)], config).Returned?
    requires generate(modelName, [Turn(User, first)], config).response.text.Some?
    requires var t := generate(modelName, [Turn(User, first)], config).response.text.value;
             var asked := [Turn(User, first), Turn(Model, t), Turn(User, second)];
             generate(modelName, asked, config).Returned?
             && generate(modelName, asked, config).response.text.Some?
    ensures r1.Success? && r2.Success?
    ensures turns == [Turn(User, first), Turn(Model, r1.value), Turn(User, second), Turn(Model, r2.value)]
  {
    var manager := new ConversationManager();
    var id := manager.CreateConversation();
    assert [] + [Turn(User, first)] == [Turn(User, first)];
    r1 := manager.SendMessageToConversation(id, modelName, generate, first, config);
    var t := generate(modelName, [Turn(User, first)], config).response.text.value;
    assert manager.conversations[id].history == [Turn(User, first), Turn(Model, t)];
    assert manager.conversations[id].history + [Turn(User, second)]
        == [Turn(User, first), Turn(Model, t), Turn(User, second)];
    r2 := manager.SendMessageToConversation(id, modelName, generate, second, config);
    var found := manager.GetConversation(id);
    turns := found.value.Contents();
  }

  /** A gateway failure is surfaced and the history is empty again. */
  method FailedSendRollsBack<C>(generate: Generator<C>, modelName: string, message: string, config: C)
    returns (reply: Result<string, Error>, turns: seq<Turn>)
    requires generate(modelName, [Turn(User, message)], config).Raised?
    ensures reply == Failure(generate(modelName, [Turn(User, message)], config).error)
    ensures turns == []
  {
    var manager := new ConversationManager();
    var id := manager.CreateConversation();
    assert [] + [Turn(User, message)] == [Turn(User, message)];
    reply := manager.SendMessageToConversation(id, modelName, generate, message, config);
    var found := manager.GetConversation(id);
    turns := found.value.Contents();
  }

  /** Sending to an id that was never created fails and creates nothing. */
  method SendToUnknown<C>(generate: Generator<C>, modelName: string, message: string, config: C)
    returns (reply: Result<string, Error>, created: string, registered: set<string>)
    ensures reply.Failure? && reply.error.ValueError?
    ensures registered == {created}
  {
    var manager := new ConversationManager();
    created := manager.CreateConversation();
    var unknown := created + "-unknown";
    reply := manager.SendMessageToConversation(unknown, modelName, generate, message, config);
    registered := manager.conversations.Keys;
  }

  /** Deleting twice: true, then false, and the id is gone afterwards. */
  method DeleteThenLookup() returns (first: bool, second: bool, found: Option<ConversationHistory>)
    ensures first && !second && found == None
  {
    var manager := new ConversationManager();
    var id := manager.CreateConversation();
    first := manager.DeleteConversation(id);
    second := manager.DeleteConversation(id);
    found := manager.GetConversation(id);
  }

  /** Every call of the singleton yields the one manager and its entries. */
  method SingletonIsShared() returns (same: bool, seen: bool)
    ensures same && seen
  {
    var cache := new SingletonBase();
    var a := cache.Call();
    var id := a.CreateConversation();
    var b := cache.Call();
    same := a == b;
    seen := id in b.conversations;
  }
}
