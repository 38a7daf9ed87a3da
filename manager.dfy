/**
 * The process-wide registry (`ConversationManager`) mapping conversation ids
 * to histories, and the metaclass cache (`SingletonBase`) that makes it a
 * singleton. Each registry operation runs under the registry lock in the
 * source; here each is one atomic method.
 */
module Manager {
  import opened Wrappers
  import opened Errors
  import opened Gateway
  import opened History

  /** A change to the registry's key set. */
  datatype Event = Created(id: string) | Deleted(id: string)

  /** The key set after one event; deleting an absent id changes nothing. */
  function Apply(keys: set<string>, e: Event): set<string>
  {
    match e
    case Created(id) => keys + {id}
    case Deleted(id) => keys - {id}
  }

  /** The key set after a run of events, applied oldest first. */
  function Replay(keys: set<string>, events: seq<Event>): set<string>
  {
    if events == [] then keys
    else Apply(Replay(keys, events[..|events| - 1]), events[|events| - 1])
  }

  /** The most recent event about `id`, if any. */
  function LastEventFor(events: seq<Event>, id: string): (last: Option<Event>)
    ensures last.Some? ==> last.value.id == id && last.value in events
    ensures last.None? ==> forall e :: e in events ==> e.id != id
  {
    if events == [] then None
    else if events[|events| - 1].id == id then Some(events[|events| - 1])
    else LastEventFor(events[..|events| - 1], id)
  }

  /**
   * Whatever run of creates and deletes happened, an id is registered exactly
   * when its latest event is a create, or, if nothing happened to it, when it
   * was registered at the start: deleted ids are never found again and
   * created, not yet deleted ids are never lost.
   */
  lemma {:induction false} ReplayMembership(keys: set<string>, events: seq<Event>, id: string)
    ensures id in Replay(keys, events) <==>
              match LastEventFor(events, id)
              case None => id in keys
              case Some(e) => e.Created?
  {
    if events != [] {
      ReplayMembership(keys, events[..|events| - 1], id);
    }
  }

  /** However many ids are taken, there is a string that is not one of them. */
  lemma {:induction false} FreshIdExists(keys: set<string>)
    ensures exists id :: id !in keys
  {
    var n := LengthBound(keys);
    var id := seq(n, _ => 'x');
    assert id !in keys;
  }

  /** A length beyond that of every key. */
  lemma {:induction false} LengthBound(keys: set<string>) returns (n: nat)
    ensures forall k :: k in keys ==> |k| < n
  {
    if keys == {} {
      n := 0;
    } else {
      var k :| k in keys;
      var m := LengthBound(keys - {k});
      n := if m > |k| then m else |k| + 1;
    }
  }

  /**
   * Python truthiness of `get_conversation`'s result: None is falsy and a
   * history is truthy because its `__bool__` is always true, so a present
   * but empty history still counts as found.
   */
  function Truthy(found: Option<ConversationHistory>): (t: bool)
    ensures t <==> found.Some?
  {
    found.Some? && found.value.Bool()
  }

  class ConversationManager {
    var conversations: map<string, ConversationHistory>
    var initialized: bool

    /** No two ids share one history object. */
    ghost predicate Valid()
      reads this
    {
      forall a, b :: a in conversations && b in conversations && a != b ==>
        conversations[a] != conversations[b]
    }

    /** `__init__` on a fresh instance: an empty registry, flagged initialised. */
    constructor ()
      ensures Valid() && initialized && conversations == map[]
    {
      conversations := map[];
      initialized := true;
    }

    /** `__init__` run again on this instance: a no-op once initialised. */
    method Initialize()
      requires Valid()
      modifies this
      ensures Valid() && initialized
      ensures old(initialized) ==> conversations == old(conversations)
      ensures !old(initialized) ==> conversations == map[]
    {
      if initialized {
        return;
      }
      conversations := map[];
      initialized := true;
    }

    /**
     * Registers a new, empty history under an id that no conversation has;
     * every other entry stays as it was.
     */
    method CreateConversation() returns (id: string)
      requires Valid()
      modifies this
      ensures Valid() && initialized == old(initialized)
      ensures id !in old(conversations)
      ensures id in conversations && fresh(conversations[id]) && conversations[id].history == []
      ensures conversations == old(conversations)[id := conversations[id]]
      ensures conversations.Keys == Apply(old(conversations.Keys), Created(id))
    {
      // `uuid4()`: any id not yet registered.
      FreshIdExists(conversations.Keys);
      id :| id !in conversations.Keys;
      var history := new ConversationHistory();
      conversations := conversations[id := history];
    }

    /** A lookup that changes nothing: the stored history, or None. */
    method GetConversation(id: string) returns (found: Option<ConversationHistory>)
      ensures id in conversations ==> found == Some(conversations[id])
      ensures id !in conversations ==> found == None
    {
      if id in conversations {
        found := Some(conversations[id]);
      } else {
        found := None;
      }
    }

    /** Removes `id` and reports whether it was registered; other entries stay. */
    method DeleteConversation(id: string) returns (existed: bool)
      requires Valid()
      modifies this
      ensures Valid() && initialized == old(initialized)
      ensures existed == (id in old(conversations))
      ensures conversations == old(conversations) - {id}
      ensures conversations.Keys == Apply(old(conversations.Keys), Deleted(id))
    {
      if id in conversations {
        conversations := conversations - {id};
        return true;
      }
      existed := false;
    }

    /**
     * Rejects an unknown id before touching anything; otherwise runs the
     * exchange on that conversation alone and returns the response's own
     * `text` (not the text recorded in the history). Exceptions from the
     * exchange are passed on unchanged. Reading `text` from a response that
     * lacks it raises after the exchange has already recorded both turns.
     */
    method SendMessageToConversation<C>(id: string, modelName: string, generate: Generator<C>,
                                        message: string, config: C)
      returns (r: Result<string, Error>)
      requires Valid()
      modifies if id in conversations then {conversations[id]} else {}
      ensures conversations == old(conversations) && Valid()
      ensures id !in conversations ==> r == Failure(NotFound(id))
      ensures id in conversations ==>
                var before := old(conversations[id].history);
                var x := ExchangeSpec(before, message,
                                      generate(modelName, before + [Turn(User, message)], config));
                && conversations[id].history == x.after
                && r == (if x.result.Failure? then Failure(x.result.error)
                         else if x.result.value.text.None? then Failure(NoTextAttribute)
                         else Success(x.result.value.text.value))
      ensures forall k :: k in conversations && k != id ==>
                conversations[k].history == old(conversations[k].history)
    {
      var conversation := GetConversation(id);
      if !Truthy(conversation) {
        return Failure(NotFound(id));
      }
      var sent := conversation.value.SendMessage(modelName, generate, message, config);
      match sent {
        case Success(response) =>
          // `return response.text`, outside the exchange's rollback.
          if response.text.None? {
            r := Failure(NoTextAttribute);
          } else {
            r := Success(response.text.value);
          }
        case Failure(e) => r := Failure(e);
      }
    }
  }

  /**
   * The metaclass instance cache for the one class that uses it: the first
   * call constructs the manager, every later call returns that same object.
   */
  class SingletonBase {
    var instance: ConversationManager?

    /** A cached manager keeps its own invariant. */
    ghost predicate Valid()
      reads this, if instance != null then {instance} else {}
    {
      instance != null ==> instance.Valid()
    }

    constructor ()
      ensures Valid() && instance == null
    {
      instance := null;
    }

    method Call() returns (manager: ConversationManager)
      requires Valid()
      modifies this
      ensures Valid() && manager.Valid()
      ensures instance == manager
      ensures old(instance) != null ==> manager == old(instance)
      ensures old(instance) == null ==>
                fresh(manager) && manager.Valid() && manager.conversations == map[]
    {
      if instance == null {
        instance := new ConversationManager();
      }
      manager := instance;
    }
  }
}
