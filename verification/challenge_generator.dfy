/**
 The stand-alone challenge generator. It is not mounted by the application,
 but it repeats the challenge block's idea builder and handler (logging
 aside); this module restates them as written there and proves that they
 agree with the challenge block on every input.
 */
module ChallengeGenerator {
  import opened Js
  import opened Types
  import opened Services
  import opened Prompts
  import ChallengeBlock

  const SmileFallback := "🛑 Create content about something that made you smile today"
  const AiCategory := "AI Generated"
  const FailureMessage := "Failed to generate challenge. Please try again."

  const FallbackIdeas: seq<string> := [
    "🛑 Write about a skill you learned by accident and how it changed your perspective",
    "🛑 Document the story behind your most treasured possession and why it matters",
    "🛑 Create content explaining your creative process using only food analogies",
    "🛑 Share three things you believed as a child that turned out to be hilariously wrong",
    "🛑 Write about a conversation that completely changed your mind about something important"
  ]

  /** This component's `getCreativeBlogIdea`; it maps every outcome as the challenge block's does. */
  function GetCreativeBlogIdea(gen: TextReply, r: UnitRandom): (idea: Settled<string>)
    ensures idea.Resolved? && idea.value != ""
    ensures gen.Replied? && !Truthy(gen.text) ==> idea.value == SmileFallback
    ensures gen.Failed? ==> idea.value in FallbackIdeas
    ensures idea == ChallengeBlock.GetCreativeBlogIdea(gen, r)
  {
    assert FallbackIdeas == ChallengeBlock.FallbackIdeas;
    match gen
    case Replied(text) => Resolved(Or(text, SmileFallback))
    case Failed =>
      assert |FallbackIdeas| == 5;
      assert forall i :: 0 <= i < |FallbackIdeas| ==> FallbackIdeas[i] != "";
      Resolved(GetRandomElement(FallbackIdeas, r).value)
  }

  /** This component's `generateChallenge`, split at its `await`. */
  function Step(s: ChallengeBlock.ChallengeState, e: ChallengeBlock.Event): (t: ChallengeBlock.ChallengeState)
    ensures !ChallengeBlock.Delivered(s, e) ==> t == s
    ensures ChallengeBlock.Delivered(s, e) && e.Click? ==> t.isLoading && t.error.None?
    ensures ChallengeBlock.Delivered(s, e) && e.Settle? ==> !t.isLoading
    ensures t == ChallengeBlock.Step(s, e)
  {
    if !ChallengeBlock.Delivered(s, e) then s
    else
      match e
      case Click => s.(isLoading := true, error := None)
      case Settle(gen, r, id) =>
        match GetCreativeBlogIdea(gen, r)
        case Resolved(text) => s.(currentChallenge := Some(Challenge(id, text, AiCategory)), isLoading := false)
        case Rejected => s.(error := Some(FailureMessage), isLoading := false)
  }

  /** The state after a sequence of events. */
  function Run(s: ChallengeBlock.ChallengeState, events: seq<ChallengeBlock.Event>): ChallengeBlock.ChallengeState
    decreases |events|
  {
    if events == [] then s else Run(Step(s, events[0]), events[1..])
  }

  /** Both components go through the same states for every sequence of events. */
  lemma {:induction false} SameRuns(s: ChallengeBlock.ChallengeState, events: seq<ChallengeBlock.Event>)
    ensures Run(s, events) == ChallengeBlock.Run(s, events)
    decreases |events|
  {
    if events != [] {
      SameRuns(Step(s, events[0]), events[1..]);
    }
  }
}
