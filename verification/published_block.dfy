/**
 The published block: a congratulation generated as text, with a fallback
 when generation fails; and the block's button state.
 */
module PublishedBlock {
  import opened Js
  import opened Types
  import opened Services
  import opened Prompts

  const Title := "Congratulations! 🎉"
  const ShortFallback := "🛑 You are amazing!"
  const EvergreenFallback := "🛑 Amazing work! You've just shared your creativity with the world. Every piece of content you publish is a step forward in your creative journey. Keep creating and keep being awesome!"

  const PromptInstructions: seq<string> := [
    "Say something uplifting to a blogger who just published a new video.",
    "Send kind words to a content creator finishing a project.",
    "Cheer on a YouTuber who just shared something vulnerable.",
    "What would a kind coach say to a blogger hitting publish?",
    "Praise a blogger who feels nervous after publishing."
  ]

  /** The instruction picked for the prompt; the pick never reads past the list. */
  function SelectInstruction(r: UnitRandom): (i: string)
    ensures i in PromptInstructions
  {
    assert |PromptInstructions| == 5;
    GetRandomElement(PromptInstructions, r).value
  }

  /**
   `sendMotivationalMessage`: `gen` is the outcome of text generation. The
   random instruction only shapes the prompt, so it is `SelectInstruction`.
   */
  function SendMotivationalMessage(gen: TextReply): (res: Settled<MediaContent>)
    ensures res.Resolved? && res.value.Text?
    ensures res.value.title == Title && res.value.text != ""
    ensures gen.Replied? && Truthy(gen.text) ==> res.value.text == gen.text.value
    ensures gen.Replied? && !Truthy(gen.text) ==> res.value.text == ShortFallback
    ensures gen.Failed? ==> res.value.text == EvergreenFallback
  {
    match gen
    case Replied(text) => Resolved(Text(Title, Or(text, ShortFallback)))
    case Failed => Resolved(Text(Title, EvergreenFallback))
  }

  /** A click, or the settling of the run a click started, with its generation outcome. */
  datatype Event = Click | Settle(gen: TextReply)

  /** The button is disabled while loading; a run settles only while loading. */
  predicate Delivered(b: ButtonState, e: Event) {
    if e.Click? then !b.isLoading else b.isLoading
  }

  /** `handleClick`, split at its `await`. */
  function Step(b: ButtonState, e: Event): (t: ButtonState)
    ensures !Delivered(b, e) ==> t == b
    ensures Delivered(b, e) && e.Settle? ==>
      && t.content == Some(SendMotivationalMessage(e.gen).value)
      && t.isActive == !b.isActive && !t.isLoading
  {
    if !Delivered(b, e) then b
    else
      match e
      case Click => StartLoading(b)
      case Settle(gen) => FinishLoading(b, SendMotivationalMessage(gen))
  }

  /** The state after a sequence of events. */
  function Run(b: ButtonState, events: seq<Event>): ButtonState
    decreases |events|
  {
    if events == [] then b else Run(Step(b, events[0]), events[1..])
  }

  /** An active button has content, and all content is a non-empty congratulation text. */
  predicate Inv(b: ButtonState) {
    && (b.isActive ==> b.content.Some?)
    && (b.content.Some? ==> b.content.value.Text? && b.content.value.title == Title && b.content.value.text != "")
  }

  /**
   Every reachable state satisfies the invariant: the block never shows
   audio or video, and never an empty message.
   */
  lemma {:induction false} RunKeepsInv(b: ButtonState, events: seq<Event>)
    requires Inv(b)
    ensures Inv(Run(b, events))
    decreases |events|
  {
    if events != [] {
      RunKeepsInv(Step(b, events[0]), events[1..]);
    }
  }

  /**
   Once the block has content it keeps content through every sequence of
   events: the reset of the handler's `catch` never happens.
   */
  lemma {:induction false} ContentNeverCleared(b: ButtonState, events: seq<Event>)
    requires b.content.Some?
    ensures Run(b, events).content.Some?
    decreases |events|
  {
    if events != [] {
      ContentNeverCleared(Step(b, events[0]), events[1..]);
    }
  }
}
