/**
 * The shape of what the model gateway (`client.models.generate_content`)
 * hands back, and the precedence by which `send_message` picks the text
 * it records as the model's turn.
 */
module Gateway {
  import opened Wrappers
  import opened Errors

  /** One content part; only its text matters here. */
  datatype Part = Part(text: string)

  /** A candidate's content: its list of parts (None and [] are both falsy). */
  datatype Content = Content(parts: seq<Part>)

  /** A candidate whose `content` may be None. */
  datatype Candidate = Candidate(content: Option<Content>)

  /**
   * A generation response: its `text` attribute (None when the response has
   * no such attribute, so that `hasattr(response, 'text')` is false), the
   * list of candidates, and `prompt_feedback.block_reason` (None when there
   * is no feedback or no reason).
   */
  datatype Response = Response(
    text: Option<string>,
    candidates: seq<Candidate>,
    blockReason: Option<string>)

  /** What a call of the gateway does: raise an exception or return a response. */
  datatype Reply = Raised(error: Error) | Returned(response: Response)

  const NoTextSentinel: string := "[No response text found]"

  function BlockedSentinel(reason: string): string
  {
    "[Blocked by Safety Setting: " + reason + "]"
  }

  /** One of the two texts `send_message` makes up when the response has none. */
  ghost predicate IsSentinel(t: string)
  {
    t == NoTextSentinel || exists reason :: t == BlockedSentinel(reason)
  }

  /** `candidates[0].content` is None: reading its `parts` raises. */
  predicate FirstContentMissing(r: Response)
  {
    |r.candidates| > 0 && r.candidates[0].content.None?
  }

  /** The text of `candidates[0].content.parts[0]` when that part exists. */
  function FirstPartText(r: Response): Option<string>
  {
    if |r.candidates| > 0 && r.candidates[0].content.Some?
       && |r.candidates[0].content.value.parts| > 0
    then Some(r.candidates[0].content.value.parts[0].text)
    else None
  }

  /** The block-reason sentinel when the reason is truthy (a non-empty string). */
  function BlockedText(r: Response): Option<string>
  {
    if r.blockReason.Some? && r.blockReason.value != ""
    then Some(BlockedSentinel(r.blockReason.value))
    else None
  }

  /**
   * The text `send_message` records for a response, or the exception that
   * reading the response raises. The branches follow the source's
   * `if`/`elif`/`else` in order.
   */
  function ExtractText(r: Response): (t: Result<string, Error>)
    ensures t.Failure? <==> r.text.None? && FirstContentMissing(r)
    ensures t.Failure? ==> t.error == NoPartsAttribute
    ensures t.Success? && r.text.None? && !IsSentinel(t.value) ==> FirstPartText(r) == Some(t.value)
  {
    if r.text.Some? then Success(r.text.value)
    else if FirstContentMissing(r) then Failure(NoPartsAttribute)
    else if FirstPartText(r).Some? then Success(FirstPartText(r).value)
    else if BlockedText(r).Some? then Success(BlockedText(r).value)
    else Success(NoTextSentinel)
  }

  /** The texts a response offers, most preferred first; the last always exists. */
  function Offers(r: Response): seq<Option<string>>
  {
    [r.text, FirstPartText(r), BlockedText(r), Some(NoTextSentinel)]
  }

  /** The first present entry of `offers`, or `fallback` when none is present. */
  function FirstOffered(offers: seq<Option<string>>, fallback: string): (t: string)
    ensures t == fallback || exists i :: 0 <= i < |offers| && offers[i] == Some(t)
  {
    if offers == [] then fallback
    else if offers[0].Some? then offers[0].value
    else FirstOffered(offers[1..], fallback)
  }

  /**
   * Precedence, stated against the independent reading "take the first text
   * the response offers": unless the first candidate has no content (the one
   * case that raises), the recorded text is the first offer present.
   */
  lemma {:induction false} ExtractTextIsFirstOffer(r: Response)
    ensures FirstContentMissing(r) && r.text.None? <==> ExtractText(r).Failure?
    ensures ExtractText(r).Failure? ==> ExtractText(r).error == NoPartsAttribute
    ensures ExtractText(r).Success? ==>
              ExtractText(r).value == FirstOffered(Offers(r), NoTextSentinel)
  {
    var o := Offers(r);
    var o1, o2, o3 := o[1..], o[1..][1..], o[1..][1..][1..];
    assert o3 == [Some(NoTextSentinel)];
    assert FirstOffered(o3, NoTextSentinel) == NoTextSentinel;
    assert o2 == [BlockedText(r)] + o3;
    assert o1 == [FirstPartText(r)] + o2;
    if r.text.None? && !FirstContentMissing(r) {
      assert FirstOffered(o, NoTextSentinel) == FirstOffered(o1, NoTextSentinel);
      if FirstPartText(r).None? {
        assert FirstOffered(o1, NoTextSentinel) == FirstOffered(o2, NoTextSentinel);
      }
    }
  }

  /** A consolidated text always wins, whatever the candidates or feedback hold. */
  lemma ConsolidatedTextFirst(r: Response)
    requires r.text.Some?
    ensures ExtractText(r) == Success(r.text.value)
  {
  }

  /** Without consolidated text, the first part of the first candidate is taken. */
  lemma FirstPartSecond(r: Response)
    requires r.text.None? && FirstPartText(r).Some?
    ensures ExtractText(r) == Success(r.candidates[0].content.value.parts[0].text)
  {
  }

  /**
   * Only the first candidate is consulted: candidates after it never change
   * the recorded text or whether reading the response raises.
   */
  lemma OnlyFirstCandidateCounts(r: Response, extra: seq<Candidate>)
    requires |r.candidates| > 0
    ensures ExtractText(r.(candidates := r.candidates[..1] + extra)) == ExtractText(r)
  {
  }

  /**
   * With no consolidated text and no usable first part, a truthy block reason
   * yields the blocked sentinel, otherwise the no-text sentinel.
   */
  lemma SentinelsLast(r: Response)
    requires r.text.None? && !FirstContentMissing(r) && FirstPartText(r).None?
    ensures r.blockReason.Some? && r.blockReason.value != "" ==>
              ExtractText(r) == Success(BlockedSentinel(r.blockReason.value))
    ensures r.blockReason.None? || r.blockReason.value == "" ==>
              ExtractText(r) == Success(NoTextSentinel)
  {
  }

  /** The blocked sentinel names its reason unambiguously. */
  lemma {:induction false} BlockedSentinelInjective(a: string, b: string)
    requires BlockedSentinel(a) == BlockedSentinel(b)
    ensures a == b
  {
    var prefix := "[Blocked by Safety Setting: ";
    assert |a| == |b|;
    assert a == BlockedSentinel(a)[|prefix|..|prefix| + |a|];
    assert b == BlockedSentinel(b)[|prefix|..|prefix| + |b|];
  }

  /** The two sentinels never coincide, so a block is told apart from silence. */
  lemma BlockedIsNotNoText(reason: string)
    ensures BlockedSentinel(reason) != NoTextSentinel
  {
  }
}
