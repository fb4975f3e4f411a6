/**
 The audio player component: two effects that keep an audio element in line
 with the `src` and `isPlaying` props.
 */
module AudioPlayer {
  import opened Js

  /** The parts of an audio element the effects touch. */
  datatype Element = Element(paused: bool, currentTime: real, src: string)

  /** The props the effects depend on. */
  datatype Props = Props(src: string, isPlaying: bool)

  /**
   The first effect: request playback, or pause and rewind. `el` is the
   element behind the ref (`None` while the ref is null).
   */
  function PlaybackEffect(el: Option<Element>, isPlaying: bool): (r: Option<Element>)
    ensures r.Some? <==> el.Some?
    ensures el.Some? ==> r.value.src == el.value.src
    ensures el.Some? && isPlaying ==> !r.value.paused && r.value.currentTime == el.value.currentTime
    ensures el.Some? && !isPlaying ==> r.value.paused && r.value.currentTime == 0.0
  {
    match el
    case None => None
    case Some(e) =>
      if isPlaying then Some(e.(paused := false))
      else Some(e.(paused := true, currentTime := 0.0))
  }

  /** The second effect: write `src` onto the element. */
  function SourceEffect(el: Option<Element>, src: string): (r: Option<Element>)
    ensures r.Some? <==> el.Some?
    ensures el.Some? ==> r.value.src == src
    ensures el.Some? ==> r.value.paused == el.value.paused && r.value.currentTime == el.value.currentTime
  {
    match el
    case None => None
    case Some(e) => Some(e.(src := src))
  }

  /**
   The effects that run after a render with props `next`, where `prev` are
   the props of the previous render (`None` on mount). Each effect runs when
   one of its dependencies changed, the playback effect (on `isPlaying` and
   `src`) before the source effect (on `src`).
   */
  function Commit(el: Option<Element>, prev: Option<Props>, next: Props): (r: Option<Element>)
    ensures el.None? ==> r.None?
    ensures prev == Some(next) ==> r == el
    ensures el.Some? && prev != Some(next) ==> r.Some? && r.value.paused == !next.isPlaying
    ensures el.Some? && prev != Some(next) && !next.isPlaying ==> r.value.currentTime == 0.0
    ensures el.Some? && next.isPlaying ==> r.value.currentTime == el.value.currentTime
    ensures el.Some? && (prev.None? || prev.value.src != next.src) ==> r.value.src == next.src
    ensures el.Some? && prev.Some? && prev.value.src == next.src ==> r.value.src == el.value.src
  {
    var afterPlayback := if prev != Some(next) then PlaybackEffect(el, next.isPlaying) else el;
    if prev.None? || prev.value.src != next.src then SourceEffect(afterPlayback, next.src) else afterPlayback
  }

  /** The element plays exactly when asked to and holds the current source. */
  predicate InSync(e: Element, p: Props) {
    e.src == p.src && e.paused == !p.isPlaying
  }

  /**
   Once in sync, the element stays in sync through every re-render, and a
   freshly mounted element is brought in sync by the first commit.
   */
  lemma CommitKeepsSync(e: Element, prev: Option<Props>, next: Props)
    requires prev.Some? ==> InSync(e, prev.value)
    ensures Commit(Some(e), prev, next).Some?
    ensures InSync(Commit(Some(e), prev, next).value, next)
  {
  }
}
