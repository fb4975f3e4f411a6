# be-dare-ai: content builders and block state, in Dafny

be-dare-ai is a small React application for content creators. Each of its
blocks has a button. A click asks a generative text service for a message or
an idea. The support block may also have the message spoken by a speech
service. The result is shown in a panel under the button. This project
models the decisions in those components as pure functions over abstract
service outcomes:

- **Content builders** (`createSupportMessageAndAudio`,
  `sendMotivationalMessage`, `getCreativeBlogIdea`). A service outcome is
  one of: the request failed, it answered without text, or it answered
  with text `s`. Each builder is a total function of these outcomes. Its
  result is the way its promise settles, and the contracts prove that the
  promise never rejects and that its text is never empty. They also prove
  which fallback is used in each case.
- **Block state** (`ButtonState` plus `isMediaPlaying` in the support block,
  `ButtonState` in the published block, and `{currentChallenge, isLoading,
  error}` in the challenge block and the challenge generator). An `async`
  click handler is split at its `await` into a *click* event and a *settle*
  event. A click is only delivered while the block is not loading, because
  the button is disabled while loading
  (`src/components/blocks/BlockActionButton.tsx:23`). A settle is only
  delivered while the block is loading. So runs of one block never overlap.
  Invariants are proved over every sequence of events.
- **Audio player** effects, as transitions on an abstract element with
  fields `paused`, `currentTime` and `src`.
- **`getEnvVariable`**. It models the blank check (with JavaScript's `trim`
  white-space set) and the placeholder filter for the voice id.
- **`getRandomElement`** and the `Math.floor(Math.random() * n)` pattern.
  A random number is a ratio `num / den` with `num < den`.

Modules follow the source files. `Js` holds the JavaScript semantics the
code relies on: `undefined`, settled promises, truthiness, `||`, `trim` and
`includes`. `Types` is `src/types/index.ts`. `Services` holds the abstract
service outcomes. The other modules are `Prompts`, `Env`, `AudioPlayer`,
`SupportBlock`, `PublishedBlock`, `ChallengeBlock` and `ChallengeGenerator`.

The data types carry the record promises by construction:

- `MediaContent` is either `AudioVideo` (audio or video; it has `src` and
  `title`, and its optional `text` is the field `caption`) or `Text` (it has
  `title` and `text` and no `src`).
- `Challenge` has the string fields `id`, `text` and `category`.
- `ButtonState` is two booleans and an optional content. The record alone
  does not tie `content` to `isActive`. The blocks' invariants (`Inv`) tie
  them in every reachable state.

The code has no rule that keeps only one panel open across blocks. It has no
request tokens that drop stale results, no job poller, and no coordinator for
all media playback. So none of these appear in the model. Each block owns
independent state. A click on an open panel runs the builder again and
closes the panel. Only the support block holds playback state.

## Model

| member | source | states |
|---|---|---|
| Js.TrimStart | src/config/env.ts:9 | the leading part it removes is all white space and what remains is a suffix that starts with a non-white-space character |
| Js.TrimEnd | src/config/env.ts:9 | the trailing part it removes is all white space and what remains is a prefix that ends with a non-white-space character |
| Js.TrimEmptyIffBlank | src/config/env.ts:9 | `value.trim() === ''` holds exactly when every character is white space |
| Js.Includes | src/config/env.ts:19-21 | `s.includes(sub)` is true exactly when `sub` occurs at some position of `s` |
| Types.StartLoading | src/components/blocks/PublishedBlock.tsx:64 | the start of a click handler sets `isLoading` and leaves `isActive` and `content` unchanged |
| Types.FinishLoading | src/components/blocks/PublishedBlock.tsx:67-74 | once the builder has settled, `isLoading` is false; a result flips `isActive` and replaces `content`, also when the panel closes; a rejection resets the button to inactive with no content |
| Prompts.FloorScaled | src/config/gemini_prompts.ts:35 | `Math.floor(r * n)` is the floor of `r * n`, so it lies in `[0, n)` for `n > 0` |
| Prompts.GetRandomElement | src/config/gemini_prompts.ts:35 | the pick is defined exactly when the list is non-empty, and it is then an element of the list |
| Prompts.EveryPositionReachable | src/config/gemini_prompts.ts:35 | every position `i` of a non-empty list is picked by `r = i / n` |
| Prompts.SupportPhrases | src/components/blocks/SupportBlock.tsx:38-44 | the three prompt picks come from the start, middle and end phrase lists, and none reads past its list |
| Env.GetEnvVariable | src/config/env.ts:6-28 | a value is accepted exactly when it is present and not blank, and (for the voice-id key only) not placeholder-like; accepted values are returned verbatim and are non-blank; an error is logged exactly when a non-optional value is missing; a warning is logged exactly when a voice id is rejected as a placeholder |
| Env.OptionalOnlyAffectsLogging | src/config/env.ts:9-13 | `isOptional` changes only whether the missing-value error is logged, never the returned value |
| Env.AcceptedIsTruthy | src/components/blocks/SupportBlock.tsx:69 | a value is accepted exactly when it is truthy, so `if (ELEVENLABS_VOICE_ID)` tests whether the value is present |
| Env.PlaceholderContainsMarker | src/config/env.ts:19-21 | the literal placeholder also contains `your_` and `_here`, so the equality test is subsumed |
| Env.OtherKeysKeepPlaceholders | src/config/env.ts:18-27 | for keys other than the voice id, any non-blank value is returned unchanged, including placeholder-like ones |
| Env.ElevenLabsVoiceId | src/config/env.ts:39 | a configured voice id is the raw value, is truthy, and is never placeholder-like |
| AudioPlayer.PlaybackEffect | src/components/AudioPlayer.tsx:14-23 | with an element: `isPlaying` requests play and leaves `currentTime`; otherwise the element is paused and rewound to 0; `src` is untouched; with a null ref nothing happens |
| AudioPlayer.SourceEffect | src/components/AudioPlayer.tsx:25-29 | the element's `src` becomes the prop, and its playing state and time are kept; with a null ref nothing happens |
| AudioPlayer.Commit | src/components/AudioPlayer.tsx:14-29 | the play/pause effect runs on mount or when `isPlaying` or `src` changes; the source effect runs on mount or when `src` changes; when no dependency changed, the element is unchanged |
| AudioPlayer.CommitKeepsSync | src/components/AudioPlayer.tsx:14-29 | after mount the element's `src` and paused state agree with the props, and every later render keeps them in agreement |
| SupportBlock.GeneratedMessage | src/components/blocks/SupportBlock.tsx:67 | a non-empty generated text is the message; a missing or empty one becomes the short fixed message |
| SupportBlock.CreateSupportMessageAndAudio | src/components/blocks/SupportBlock.tsx:37-115 | never rejects, and its message is never empty; it is audio exactly when generation answered, a voice id is configured and speech succeeded; audio has title 'Motivational Message' and a data URL whose payload is the encoding; text is titled 'Motivational Support 💪'; after a successful generation the generated message is kept even when speech fails; a failed generation gives the long fixed fallback |
| SupportBlock.PlaceholderVoiceGivesText | src/components/blocks/SupportBlock.tsx:69 | with a placeholder-like voice id the support result is always text |
| SupportBlock.StartClick | src/components/blocks/SupportBlock.tsx:118-119 | a click sets `isLoading` and clears `isMediaPlaying`, and leaves `isActive` and `content` unchanged |
| SupportBlock.FinishClick | src/components/blocks/SupportBlock.tsx:120-129 | on completion `isLoading` is false and `isMediaPlaying` is kept; a result flips `isActive` and replaces `content`; a rejection clears both |
| SupportBlock.ToggleMedia | src/components/blocks/SupportBlock.tsx:132-134 | flips `isMediaPlaying` and leaves the button state unchanged |
| SupportBlock.AudioEnded | src/components/blocks/SupportBlock.tsx:136-138 | clears `isMediaPlaying` and leaves the button state unchanged |
| SupportBlock.PlayerProps | src/components/blocks/SupportBlock.tsx:210-216 | the mounted player gets a non-empty source and plays exactly when `isMediaPlaying` |
| SupportBlock.Step | src/components/blocks/SupportBlock.tsx:117-138 | an event the UI cannot deliver changes nothing; a settled run always takes the result branch, with the builder's content and a flipped `isActive` |
| SupportBlock.StepKeepsInv | src/components/blocks/SupportBlock.tsx:117-138 | every event keeps the invariant: an active button has content, that content is one the builder can produce, and the media flag is off while a run that will open the panel is loading |
| SupportBlock.RunKeepsInv | src/components/blocks/SupportBlock.tsx:117-138 | the invariant holds after every sequence of events |
| SupportBlock.ReachableVisibility | src/components/blocks/SupportBlock.tsx:161-216 | in reachable states the panel shows exactly when the button is active, and the play control shows exactly when the audio player is mounted |
| SupportBlock.EndedStopsElement | src/components/AudioPlayer.tsx:39 | the player's ended event clears the flag, and the next render pauses the element and rewinds it to 0 |
| SupportBlock.MediaFlagOutlivesPanel | src/components/blocks/SupportBlock.tsx:117-134 | a concrete run in which `isMediaPlaying` stays true after the panel closes, and the next click clears it |
| SupportBlock.MountsPaused | src/components/blocks/SupportBlock.tsx:118-126 | in a state satisfying the invariant, the audio player only becomes mounted with the media flag off, so it mounts with `isPlaying` false |
| SupportBlock.SourceStableWhileMounted | src/components/blocks/SupportBlock.tsx:210-216 | while the audio player stays mounted, the `src` it gets never changes |
| PublishedBlock.SelectInstruction | src/components/blocks/PublishedBlock.tsx:26 | the random instruction is always one of the five listed |
| PublishedBlock.SendMotivationalMessage | src/components/blocks/PublishedBlock.tsx:24-61 | never rejects; always non-empty text titled 'Congratulations! 🎉', never audio or video; non-empty generated text is used as it is; missing or empty text becomes '🛑 You are amazing!'; a failed request gives the long fixed fallback |
| PublishedBlock.Step | src/components/blocks/PublishedBlock.tsx:63-75 | an event the UI cannot deliver changes nothing; a settled run clears `isLoading`, flips `isActive` and stores the builder's content |
| PublishedBlock.RunKeepsInv | src/components/blocks/PublishedBlock.tsx:63-75 | after every sequence of events, an active button has content, and the content is always a non-empty congratulation text, never audio or video |
| PublishedBlock.ContentNeverCleared | src/components/blocks/PublishedBlock.tsx:72-74 | once the block has content, no sequence of events removes it, so the reset in `catch` never happens |
| ChallengeBlock.GetCreativeBlogIdea | src/components/blocks/ChallengeBlock.tsx:18-58 | never rejects and is never empty; non-empty generated text is returned as it is; missing or empty text becomes the 'smile today' idea; a failure returns one of the five fallback ideas |
| ChallengeBlock.StartGenerate | src/components/blocks/ChallengeBlock.tsx:60-62 | sets `isLoading`, clears `error`, and keeps the current challenge |
| ChallengeBlock.FinishGenerate | src/components/blocks/ChallengeBlock.tsx:64-78 | `isLoading` is false on every exit; a result replaces the challenge with the idea in category 'AI Generated'; a rejection sets the error message and keeps the previous challenge |
| ChallengeBlock.Step | src/components/blocks/ChallengeBlock.tsx:60-79 | an event the UI cannot deliver changes nothing; a settled run always stores a new challenge built from the idea and leaves `error` as it was |
| ChallengeBlock.RunKeepsInv | src/components/blocks/ChallengeBlock.tsx:60-79 | after every sequence of events no error is shown, and any challenge shown is a non-empty 'AI Generated' idea |
| ChallengeBlock.ChallengeStaysShown | src/components/blocks/ChallengeBlock.tsx:111 | once a challenge is shown, no sequence of events hides it |
| ChallengeGenerator.GetCreativeBlogIdea | src/components/ChallengeGenerator.tsx:16-57 | never rejects and is never empty; uses the same fallbacks; equals the challenge block's builder on every input |
| ChallengeGenerator.Step | src/components/ChallengeGenerator.tsx:59-78 | the start sets `isLoading` and clears `error`, and `finally` clears `isLoading`; it equals the challenge block's handler on every state and event |
| ChallengeGenerator.SameRuns | src/components/ChallengeGenerator.tsx:59-78 | the generator and the challenge block reach the same state after every sequence of events |

## Left out

- The HTTP calls, their URLs and headers, and reading the response shape. They are replaced by the outcomes `Failed`, `Replied(None)` and `Replied(Some(s))`. A response whose `data` is itself missing throws inside the `try`, so it counts as `Failed`. A non-string `text` field is not modelled.
- `arrayBufferToBase64` (Blob and FileReader). It is an opaque encoding that may fail, and its failure is part of `SpeechFailed`.
- The wording of the prompts. The random picks that build the prompts are modelled (`SupportPhrases`, `SelectInstruction`), but the prompt text is not.
- A request that never answers is a `Settle` event that never arrives. None of the requests sets a timeout, so such a block stays loading with its button disabled.
- `Math.random` and `Date.now` are inputs. A random number is an exact ratio in [0, 1). The id of a challenge is any string. Floating-point rounding of `Math.random() * n` is not modelled.
- Console logging. The model keeps only which kind of message `getEnvVariable` logs (error, warning or none).
- The real behaviour of an audio element. `play()` is modelled as clearing `paused`. Its returned promise, loading a new source, and an element pausing itself at its end are not modelled.
- AudioPlayer.CommitKeepsSync: the element's agreement with the props holds only for the abstract element, which only the two effects change. Two changes of the real element are not modelled. First, the element shows native `controls`, and the support block passes no `onPlay` or `onPause`, so the user can play or pause it without changing `isMediaPlaying`. Second, writing `src` starts a new load, which pauses and rewinds the element, and this write comes after `play()`. In the application the second change never leaves the element out of agreement. `SupportBlock.MountsPaused` shows that the player mounts with `isPlaying` false. `SupportBlock.SourceStableWhileMounted` shows that `src` never changes while the player is mounted.
- React scheduling. Each `setState` is applied at once, in program order. The `src` attribute written while rendering matches what the source effect writes, so it is not modelled separately.
- Markup and styling apart from the visibility predicates. This covers Header, Footer, WelcomeSection, App, ActionButtons, BlockHeader and the BlockActionButton markup. Only its `disabled` rule is kept.
- SupportGenerator.tsx is not part of this model. It only presents values passed in as props.
- src/config/mock.ts is not part of this model. Nothing uses its static data.
- `getRandomElement` does not modify its list. This holds by construction, because every function here is pure.
