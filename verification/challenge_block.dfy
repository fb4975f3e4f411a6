/**
 The challenge block: a content idea generated as text, with a fallback
 picked at random from a fixed list when generation fails; and the block's
 challenge, loading and error state.
 */
module ChallengeBlock {
  import opened Js
  import opened Types
  import opened Services
  import opened Prompts

  const SmileFallback := "🛑 Create content about something that made you smile today"
  const AiCategory := "AI Generated"
  const FailureMessage := "Failed to generate challenge. Please try again."

  const FallbackIdeas: seq<string> := [
    "🛑 Write about a skill you learned by accident and how it changed your perspective",
    "🛑 Document the story behind your most treasured possession and why it matters",
    "🛑 Create content explaining your creative process using only food analogies",
    "🛑 Share three things you believed as a child that turned out to be hilariously wrong",
    "🛑 Write about a conversation that completely changed your mind about something important"
  ]

  /**
   `getCreativeBlogIdea`: `gen` is the outcome of text generation and `r`
   the random number that picks a fallback idea when generation fails.
   */
  function GetCreativeBlogIdea(gen: TextReply, r: UnitRandom): (idea: Settled<string>)
    ensures idea.Resolved? && idea.value != ""
    ensures gen.Replied? && Truthy(gen.text) ==> idea.value == gen.text.value
    ensures gen.Replied? && !Truthy(gen.text) ==> idea.value == SmileFallback
    ensures gen.Failed? ==> idea.value in FallbackIdeas
  {
    match gen
    case Replied(text) => Resolved(Or(text, SmileFallback))
    case Failed =>
      assert |FallbackIdeas| == 5;
      assert forall i :: 0 <= i < |FallbackIdeas| ==> FallbackIdeas[i] != "";
      Resolved(GetRandomElement(FallbackIdeas, r).value)
  }

  /** The block's state: the challenge shown (`None` for null), loading, and the error shown. */
  datatype ChallengeState = ChallengeState(currentChallenge: Option<Challenge>, isLoading: bool, error: Option<string>)

  const Initial := ChallengeState(None, false, None)

  /** The synchronous start of `generateChallenge`. */
  function StartGenerate(s: ChallengeState): (t: ChallengeState)
    ensures t.isLoading && t.error.None? && t.currentChallenge == s.currentChallenge
  {
    s.(isLoading := true, error := None)
  }

  /**
   The end of `generateChallenge` once the idea's promise settled; `id` is
   the string the clock gives the new challenge.
   */
  function FinishGenerate(s: ChallengeState, idea: Settled<string>, id: string): (t: ChallengeState)
    ensures !t.isLoading
    ensures idea.Resolved? ==> t.currentChallenge == Some(Challenge(id, idea.value, AiCategory)) && t.error == s.error
    ensures idea.Rejected? ==> t.currentChallenge == s.currentChallenge && t.error == Some(FailureMessage)
  {
    match idea
    case Resolved(text) => s.(currentChallenge := Some(Challenge(id, text, AiCategory)), isLoading := false)
    case Rejected => s.(error := Some(FailureMessage), isLoading := false)
  }

  /** A click, or the settling of the run a click started, with its generation outcome, random number and clock id. */
  datatype Event = Click | Settle(gen: TextReply, r: UnitRandom, id: string)

  /** The button is disabled while loading; a run settles only while loading. */
  predicate Delivered(s: ChallengeState, e: Event) {
    if e.Click? then !s.isLoading else s.isLoading
  }

  /** `generateChallenge`, split at its `await`. */
  function Step(s: ChallengeState, e: Event): (t: ChallengeState)
    ensures !Delivered(s, e) ==> t == s
    ensures Delivered(s, e) && e.Settle? ==>
      && !t.isLoading && t.error == s.error
      && t.currentChallenge == Some(Challenge(e.id, GetCreativeBlogIdea(e.gen, e.r).value, AiCategory))
  {
    if !Delivered(s, e) then s
    else
      match e
      case Click => StartGenerate(s)
      case Settle(gen, r, id) => FinishGenerate(s, GetCreativeBlogIdea(gen, r), id)
  }

  /** The state after a sequence of events. */
  function Run(s: ChallengeState, events: seq<Event>): ChallengeState
    decreases |events|
  {
    if events == [] then s else Run(Step(s, events[0]), events[1..])
  }

  /** No error is shown, and a shown challenge is a non-empty generated idea. */
  predicate Inv(s: ChallengeState) {
    && s.error.None?
    && (s.currentChallenge.Some? ==> s.currentChallenge.value.text != "" && s.currentChallenge.value.category == AiCategory)
  }

  /**
   Every reachable state satisfies the invariant: the error branch of the
   handler is never taken, because the idea's promise never rejects.
   */
  lemma {:induction false} RunKeepsInv(s: ChallengeState, events: seq<Event>)
    requires Inv(s)
    ensures Inv(Run(s, events))
    decreases |events|
  {
    if events != [] {
      RunKeepsInv(Step(s, events[0]), events[1..]);
    }
  }

  /** Once a challenge is shown it stays shown: nothing hides it again. */
  lemma {:induction false} ChallengeStaysShown(s: ChallengeState, events: seq<Event>)
    requires s.currentChallenge.Some?
    ensures Run(s, events).currentChallenge.Some?
    decreases |events|
  {
    if events != [] {
      ChallengeStaysShown(Step(s, events[0]), events[1..]);
    }
  }
}
