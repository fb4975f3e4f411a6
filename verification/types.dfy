/**
 The shared records of the application: a challenge, the content shown in a
 block's panel, and a block's button state.
 */
module Types {
  import opened Js

  /** A generated content idea. */
  datatype Challenge = Challenge(id: string, text: string, category: string)

  /** The two playable content kinds that share one record shape. */
  datatype PlayableKind = Audio | Video

  /**
   Content shown in a panel, discriminated by its type tag: playable content
   always has a source and a title and may carry a caption (its optional
   `text` field); text content always has a title and a text and no source.
   */
  datatype MediaContent =
    | AudioVideo(kind: PlayableKind, src: string, title: string, caption: Option<string>)
    | Text(title: string, text: string)

  /**
   The state behind a block's action button. Nothing in the record itself
   ties `content` to `isActive`; the blocks' transitions do.
   */
  datatype ButtonState = ButtonState(isLoading: bool, isActive: bool, content: Option<MediaContent>)

  /** The state every block starts in: not loading, not active, no content. */
  const InitialButton: ButtonState := ButtonState(false, false, None)

  /** The start of a block's click handler: only `isLoading` changes. */
  function StartLoading(b: ButtonState): (t: ButtonState)
    ensures t.isLoading && t.isActive == b.isActive && t.content == b.content
  {
    b.(isLoading := true)
  }

  /**
   The end of a block's click handler once its builder's promise settled:
   a result toggles the panel and replaces the content (also when the click
   closes the panel), a rejection resets the button.
   */
  function FinishLoading(b: ButtonState, built: Settled<MediaContent>): (t: ButtonState)
    ensures !t.isLoading
    ensures built.Resolved? ==> t.isActive == !b.isActive && t.content == Some(built.value)
    ensures built.Rejected? ==> t == InitialButton
  {
    match built
    case Resolved(content) => ButtonState(false, !b.isActive, Some(content))
    case Rejected => InitialButton
  }

  /** The message a content record carries, when it carries one. */
  function MessageOf(c: MediaContent): (m: Option<string>)
    ensures c.Text? ==> m.Some?
  {
    match c
    case Text(_, text) => Some(text)
    case AudioVideo(_, _, _, caption) => caption
  }
}

/**
 The external services, reduced to what the components observe of them.
 Requests and response parsing are abstracted into these outcomes.
 */
module Services {
  import opened Js

  /**
   The outcome of a text-generation request: the request failed (rejected
   promise, or any exception before the text was read), or it answered and
   the text at `candidates[0].content.parts[0].text` is present or absent.
   */
  datatype TextReply = Failed | Replied(text: Option<string>)

  /**
   The outcome of the speech-synthesis request followed by the base64
   encoding of its audio payload; a failure of either is `SpeechFailed`.
   */
  datatype SpeechReply = SpeechFailed | Encoded(base64: string)
}
