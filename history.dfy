/**
 * One conversation's turn log (`ConversationHistory`) and the exchange
 * protocol of `send_message`: append the user turn, ask the gateway with
 * the whole log, then record the model's turn or pop the user turn again.
 */
module History {
  import opened Wrappers
  import opened Errors
  import opened Gateway

  datatype Role = User | Model

  /** One `types.Content` entry: a role and the text of its single part. */
  datatype Turn = Turn(role: Role, text: string)

  /**
   * The gateway as `send_message` calls it: model name, the full ordered
   * history and the generation configuration in, a reply out.
   */
  type Generator<-C> = (string, seq<Turn>, C) -> Reply

  /** The outcome of one exchange: what the caller gets and the log afterwards. */
  datatype Exchange = Exchange(result: Result<Response, Error>, after: seq<Turn>)

  /**
   * The exchange protocol on values: `before` is the log before the call,
   * `reply` what the gateway did when handed `before` plus the user turn.
   * A success appends a user and a model turn; any exception leaves the log
   * exactly as it was and is passed on unchanged.
   */
  function ExchangeSpec(before: seq<Turn>, message: string, reply: Reply): (x: Exchange)
    ensures x.result.Failure? ==> x.after == before
    ensures x.result.Failure? ==>
              || (reply.Raised? && x.result.error == reply.error)
              || (reply.Returned? && ExtractText(reply.response) == Failure(x.result.error))
    ensures x.result.Success? <==> reply.Returned? && ExtractText(reply.response).Success?
    ensures x.result.Success? ==>
              && x.result.value == reply.response
              && |x.after| == |before| + 2
              && x.after[..|before|] == before
              && x.after[|before|] == Turn(User, message)
              && x.after[|before| + 1] == Turn(Model, ExtractText(reply.response).value)
  {
    match reply
    case Raised(e) => Exchange(Failure(e), before)
    case Returned(response) =>
      match ExtractText(response)
      case Failure(e) => Exchange(Failure(e), before)
      case Success(text) =>
        Exchange(Success(response), before + [Turn(User, message), Turn(Model, text)])
  }

  /** User turns at even positions, model turns at odd ones, even length. */
  ghost predicate Alternating(h: seq<Turn>)
  {
    |h| % 2 == 0 && forall i :: 0 <= i < |h| ==> h[i].role == (if i % 2 == 0 then User else Model)
  }

  /** An alternating log never holds two user turns in a row. */
  lemma AlternatingHasNoAdjacentUserTurns(h: seq<Turn>, i: nat)
    requires Alternating(h) && i + 1 < |h|
    ensures !(h[i].role == User && h[i + 1].role == User)
  {
  }

  /** Every exchange, successful or not, keeps an alternating log alternating. */
  lemma ExchangeKeepsAlternating(before: seq<Turn>, message: string, reply: Reply)
    requires Alternating(before)
    ensures Alternating(ExchangeSpec(before, message, reply).after)
  {
  }

  /** A sequence of exchanges, each with the message sent and the gateway's reply. */
  function RunExchanges(before: seq<Turn>, steps: seq<(string, Reply)>): seq<Turn>
  {
    if steps == [] then before
    else
      var last := steps[|steps| - 1];
      ExchangeSpec(RunExchanges(before, steps[..|steps| - 1]), last.0, last.1).after
  }

  /**
   * A conversation driven only through exchanges from an empty log alternates
   * user and model turns, whichever exchanges failed on the way.
   */
  lemma {:induction false} ExchangesAlternate(steps: seq<(string, Reply)>)
    ensures Alternating(RunExchanges([], steps))
  {
    if steps != [] {
      var last := steps[|steps| - 1];
      ExchangesAlternate(steps[..|steps| - 1]);
      ExchangeKeepsAlternating(RunExchanges([], steps[..|steps| - 1]), last.0, last.1);
    }
  }

  /**
   * Each exchange only ever extends the log: earlier turns are never
   * rewritten, so the log after a run starts with the log before it.
   */
  lemma {:induction false} ExchangesOnlyExtend(before: seq<Turn>, steps: seq<(string, Reply)>)
    ensures |before| <= |RunExchanges(before, steps)|
    ensures RunExchanges(before, steps)[..|before|] == before
  {
    if steps != [] {
      var last := steps[|steps| - 1];
      var mid := RunExchanges(before, steps[..|steps| - 1]);
      ExchangesOnlyExtend(before, steps[..|steps| - 1]);
      var x := ExchangeSpec(mid, last.0, last.1);
      if x.result.Success? {
        assert x.after[..|mid|] == mid;
        assert x.after[..|before|] == x.after[..|mid|][..|before|];
      }
    }
  }

  class ConversationHistory {
    var history: seq<Turn>

    /** A new history holds no turns. */
    constructor ()
      ensures history == []
    {
      history := [];
    }

    method AddUserMessage(text: string)
      modifies this
      ensures history == old(history) + [Turn(User, text)]
    {
      history := history + [Turn(User, text)];
    }

    /**
     * Fails fast on an empty history; otherwise appends one model turn,
     * even right after another model turn (the source only warns then).
     */
    method AddModelResponse(text: string) returns (raised: Option<Error>)
      modifies this
      ensures old(history) == [] ==> raised == Some(NoUserMessage) && history == []
      ensures old(history) != [] ==> raised == None && history == old(history) + [Turn(Model, text)]
    {
      if history == [] {
        return Some(NoUserMessage);
      }
      history := history + [Turn(Model, text)];
      raised := None;
    }

    /** The stored turn list itself, as handed to the gateway. */
    function Contents(): (turns: seq<Turn>)
      reads this
      ensures |turns| == Length() && turns == history
    {
      history
    }

    /**
     * The exchange protocol. The gateway sees the old log plus the user turn;
     * the new log and the outcome are those of `ExchangeSpec`.
     */
    method SendMessage<C>(modelName: string, generate: Generator<C>, message: string, config: C)
      returns (r: Result<Response, Error>)
      modifies this
      ensures var x := ExchangeSpec(old(history), message,
                                    generate(modelName, old(history) + [Turn(User, message)], config));
              r == x.result && history == x.after
      ensures r.Success? ==> Length() == old(Length()) + 2
      ensures r.Failure? ==> history == old(history)
    {
      AddUserMessage(message);
      // The body of the source's `try`: the gateway call, the text
      // extraction and the model turn. Any exception ends in the rollback.
      var outcome: Result<Response, Error>;
      var reply := generate(modelName, Contents(), config);
      match reply {
        case Raised(e) =>
          outcome := Failure(e);
        case Returned(response) =>
          match ExtractText(response) {
            case Failure(e) =>
              outcome := Failure(e);
            case Success(text) =>
              var raised := AddModelResponse(text);
              // The user turn was appended above, so the guard cannot fire.
              assert raised == None;
              outcome := Success(response);
          }
      }
      if outcome.Failure? {
        // `self._history.pop()`: drop the user turn appended above.
        history := history[..|history| - 1];
      }
      r := outcome;
    }

    method Clear()
      modifies this
      ensures history == []
    {
      history := [];
    }

    /** `len(history)`: the number of stored turns. */
    function Length(): (n: nat)
      reads this
      ensures n == |history|
    {
      |history|
    }

    /** `bool(history)`: always true, even for an empty history. */
    function Bool(): (b: bool)
      ensures b
    {
      true
    }
  }
}
