/**
 The support block: a motivational message generated as text, then spoken
 when a voice is configured, with a fallback at each of the two stages; and
 the block's button, panel and playback state.
 */
module SupportBlock {
  import opened Js
  import opened Types
  import opened Services
  import Env
  import AudioPlayer

  const SupportTitle := "Motivational Support 💪"
  const AudioTitle := "Motivational Message"
  const ShortFallback := "🛑 You are doing amazing work! Take a breath and remember why you started creating."
  const EvergreenFallback := "🛑 You are doing amazing work! Take a breath and remember why you started creating. Every edit brings you closer to your vision. Keep going!"
  const AudioDataPrefix := "data:audio/mpeg;base64,"

  /** The payload of an `audio/mpeg` base64 data URL, `None` for any other string. */
  function DataUrlPayload(src: string): (p: Option<string>)
    ensures p.Some? ==> src == AudioDataPrefix + p.value
  {
    if |src| >= |AudioDataPrefix| && src[..|AudioDataPrefix|] == AudioDataPrefix then
      Some(src[|AudioDataPrefix|..])
    else
      None
  }

  /** The message of a successful generation: its text, or the short fallback when that is missing or empty. */
  function GeneratedMessage(text: Option<string>): (m: string)
    ensures m != ""
    ensures Truthy(text) ==> m == text.value
    ensures !Truthy(text) ==> m == ShortFallback
  {
    Or(text, ShortFallback)
  }

  /**
   `createSupportMessageAndAudio`: `voiceId` is the configured voice id,
   `gen` the outcome of text generation and `speech` the outcome of speech
   synthesis (only requested when a voice id is configured).
   */
  function CreateSupportMessageAndAudio(voiceId: Option<string>, gen: TextReply, speech: SpeechReply): (r: Settled<MediaContent>)
    ensures r.Resolved?
    ensures MessageOf(r.value).Some? && MessageOf(r.value).value != ""
    ensures r.value.AudioVideo? <==> gen.Replied? && Truthy(voiceId) && speech.Encoded?
    ensures r.value.Text? ==> r.value.title == SupportTitle
    ensures r.value.AudioVideo? ==>
      && r.value.kind == Audio && r.value.title == AudioTitle
      && DataUrlPayload(r.value.src) == Some(speech.base64)
    ensures gen.Replied? ==> MessageOf(r.value) == Some(GeneratedMessage(gen.text))
    ensures gen.Failed? ==> r.value == Text(SupportTitle, EvergreenFallback)
  {
    match gen
    case Failed => Resolved(Text(SupportTitle, EvergreenFallback))
    case Replied(text) =>
      var message := GeneratedMessage(text);
      if Truthy(voiceId) then
        match speech
        case Encoded(base64) =>
          assert (AudioDataPrefix + base64)[..|AudioDataPrefix|] == AudioDataPrefix;
          assert (AudioDataPrefix + base64)[|AudioDataPrefix|..] == base64;
          Resolved(AudioVideo(Audio, AudioDataPrefix + base64, AudioTitle, Some(message)))
        case SpeechFailed => Resolved(Text(SupportTitle, message))
      else
        Resolved(Text(SupportTitle, message))
  }

  /** A voice id the configuration rejects as a placeholder yields text-only support. */
  lemma PlaceholderVoiceGivesText(raw: string, gen: TextReply, speech: SpeechReply)
    requires Env.LooksLikePlaceholder(raw)
    ensures CreateSupportMessageAndAudio(Env.ElevenLabsVoiceId(Some(raw)), gen, speech).value.Text?
  {
  }

  /** The block's state: its button state and whether its media should play. */
  datatype SupportState = SupportState(button: ButtonState, isMediaPlaying: bool)

  const Initial := SupportState(InitialButton, false)

  /** The synchronous start of `handleClick`. */
  function StartClick(s: SupportState): (t: SupportState)
    ensures t.button.isLoading && !t.isMediaPlaying
    ensures t.button.isActive == s.button.isActive && t.button.content == s.button.content
  {
    SupportState(StartLoading(s.button), false)
  }

  /** The end of `handleClick` once the builder's promise has settled. */
  function FinishClick(s: SupportState, built: Settled<MediaContent>): (t: SupportState)
    ensures !t.button.isLoading && t.isMediaPlaying == s.isMediaPlaying
    ensures built.Resolved? ==> t.button.isActive == !s.button.isActive && t.button.content == Some(built.value)
    ensures built.Rejected? ==> !t.button.isActive && t.button.content.None?
  {
    s.(button := FinishLoading(s.button, built))
  }

  /** `handleToggleMedia`. */
  function ToggleMedia(s: SupportState): (t: SupportState)
    ensures t.isMediaPlaying != s.isMediaPlaying && t.button == s.button
  {
    s.(isMediaPlaying := !s.isMediaPlaying)
  }

  /** `handleAudioEnded`. */
  function AudioEnded(s: SupportState): (t: SupportState)
    ensures !t.isMediaPlaying && t.button == s.button
  {
    s.(isMediaPlaying := false)
  }

  /** The content panel is rendered. */
  predicate PanelVisible(s: SupportState) {
    s.button.isActive && s.button.content.Some?
  }

  /** The play/pause control is rendered: the panel shows non-text content. */
  predicate PlayControlVisible(s: SupportState) {
    PanelVisible(s) && !s.button.content.value.Text?
  }

  /** The audio player is mounted: the panel shows audio with a non-empty source. */
  predicate PlayerMounted(s: SupportState) {
    && PanelVisible(s)
    && s.button.content.value.AudioVideo?
    && s.button.content.value.kind == Audio
    && s.button.content.value.src != ""
  }

  /** The props passed to the mounted audio player. */
  function PlayerProps(s: SupportState): (p: AudioPlayer.Props)
    requires PlayerMounted(s)
    ensures p.src != "" && (p.isPlaying <==> s.isMediaPlaying)
  {
    AudioPlayer.Props(s.button.content.value.src, s.isMediaPlaying)
  }

  /** What can happen to the block: a click, the settling of the builder run a click started, a press of the play control, the end of the audio. */
  datatype Event = Click | Settle(gen: TextReply, speech: SpeechReply) | Toggle | Ended

  /**
   Whether an event can reach the block: the button is disabled while
   loading, a run settles only while it is loading, and the play control
   and player exist only while rendered.
   */
  predicate Delivered(s: SupportState, e: Event) {
    match e
    case Click => !s.button.isLoading
    case Settle(_, _) => s.button.isLoading
    case Toggle => PlayControlVisible(s)
    case Ended => PlayerMounted(s)
  }

  /** The block's reaction to one event, with `voiceId` the configured voice id. */
  function Step(voiceId: Option<string>, s: SupportState, e: Event): (t: SupportState)
    ensures !Delivered(s, e) ==> t == s
    ensures Delivered(s, e) && e.Settle? ==>
      && t.button.content == Some(CreateSupportMessageAndAudio(voiceId, e.gen, e.speech).value)
      && t.button.isActive == !s.button.isActive
  {
    if !Delivered(s, e) then s
    else
      match e
      case Click => StartClick(s)
      case Settle(gen, speech) => FinishClick(s, CreateSupportMessageAndAudio(voiceId, gen, speech))
      case Toggle => ToggleMedia(s)
      case Ended => AudioEnded(s)
  }

  /** The state after a sequence of events. */
  function Run(voiceId: Option<string>, s: SupportState, events: seq<Event>): SupportState
    decreases |events|
  {
    if events == [] then s else Run(voiceId, Step(voiceId, s, events[0]), events[1..])
  }

  /** Content the builder can produce. */
  predicate Buildable(c: MediaContent) {
    && MessageOf(c).Some? && MessageOf(c).value != ""
    && (c.Text? ==> c.title == SupportTitle)
    && (c.AudioVideo? ==> c.kind == Audio && c.title == AudioTitle && DataUrlPayload(c.src).Some?)
  }

  /**
   The invariant of the block: an active button has content, that content
   is buildable, and while a run that will open the panel is loading the
   media flag is off.
   */
  predicate Inv(s: SupportState) {
    && (s.button.isActive ==> s.button.content.Some?)
    && (s.button.content.Some? ==> Buildable(s.button.content.value))
    && (s.button.isLoading && !s.button.isActive ==> !s.isMediaPlaying)
  }

  lemma StepKeepsInv(voiceId: Option<string>, s: SupportState, e: Event)
    requires Inv(s)
    ensures Inv(Step(voiceId, s, e))
  {
  }

  /** Every state reachable from the initial one satisfies the invariant. */
  lemma {:induction false} RunKeepsInv(voiceId: Option<string>, s: SupportState, events: seq<Event>)
    requires Inv(s)
    ensures Inv(Run(voiceId, s, events))
    decreases |events|
  {
    if events != [] {
      StepKeepsInv(voiceId, s, events[0]);
      RunKeepsInv(voiceId, Step(voiceId, s, events[0]), events[1..]);
    }
  }

  /**
   In every reachable state the panel is shown exactly when the button is
   active, and the play control is shown exactly when the audio player is
   mounted (the builder never produces video or an empty source).
   */
  lemma {:induction false} ReachableVisibility(voiceId: Option<string>, events: seq<Event>)
    ensures PanelVisible(Run(voiceId, Initial, events)) <==> Run(voiceId, Initial, events).button.isActive
    ensures PlayControlVisible(Run(voiceId, Initial, events)) <==> PlayerMounted(Run(voiceId, Initial, events))
  {
    RunKeepsInv(voiceId, Initial, events);
  }

  /**
   The end of the audio reaches the block through the player's `onEnded`;
   the re-render that follows pauses the element and rewinds it.
   */
  lemma EndedStopsElement(voiceId: Option<string>, s: SupportState, el: AudioPlayer.Element)
    requires PlayerMounted(s) && s.isMediaPlaying
    ensures PlayerMounted(Step(voiceId, s, Ended))
    ensures AudioPlayer.Commit(Some(el), Some(PlayerProps(s)), PlayerProps(Step(voiceId, s, Ended)))
            == Some(el.(paused := true, currentTime := 0.0))
  {
  }

  /**
   The media flag can outlive its panel: a click on an open audio panel keeps
   the play control on screen while loading, a press turns the flag on, and
   the run then closes the panel with the flag still set. The next click
   clears it.
   */
  lemma MediaFlagOutlivesPanel()
    ensures var events := [Click, Settle(Replied(Some("Hi")), Encoded("SUQz")), Click, Toggle,
                           Settle(Replied(Some("Hi")), Encoded("SUQz"))];
            var s := Run(Some("voice"), Initial, events);
            && s.isMediaPlaying && !PanelVisible(s)
            && !Step(Some("voice"), s, Click).isMediaPlaying
  {
  }

  /**
   The audio player is always mounted with its media flag off, so the first
   commit pauses the element, and nothing starts playback before the
   source effect writes `src`.
   */
  lemma MountsPaused(voiceId: Option<string>, s: SupportState, e: Event)
    requires Inv(s) && !PlayerMounted(s) && PlayerMounted(Step(voiceId, s, e))
    ensures !Step(voiceId, s, e).isMediaPlaying
    ensures !PlayerProps(Step(voiceId, s, e)).isPlaying
  {
  }

  /**
   While the player stays mounted its source never changes, so the source
   effect runs only when the player mounts.
   */
  lemma SourceStableWhileMounted(voiceId: Option<string>, s: SupportState, e: Event)
    requires PlayerMounted(s) && PlayerMounted(Step(voiceId, s, e))
    ensures PlayerProps(Step(voiceId, s, e)).src == PlayerProps(s).src
  {
  }
}
