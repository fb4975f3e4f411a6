/**
 Random selection from a list, `arr[Math.floor(Math.random() * arr.length)]`,
 and the three phrase lists that feed the support prompt.
 */
module Prompts {
  import opened Js

  /** A rational number `num / den`. */
  datatype Ratio = Ratio(num: nat, den: nat)

  /** A value `Math.random()` can return: a number in [0, 1). */
  type UnitRandom = r: Ratio | r.num < r.den witness Ratio(0, 1)

  /** `Math.floor(r * n)` for a random `r` and a length `n`. */
  function FloorScaled(r: UnitRandom, n: nat): (i: nat)
    ensures i * r.den <= r.num * n < (i + 1) * r.den
    ensures n > 0 ==> i < n
    ensures n == 0 ==> i == 0
  {
    var i := (r.num * n) / r.den;
    FloorBounds(r.num, r.den, n, i);
    i
  }

  /** Integer division of a product by a larger denominator, as a floor. */
  lemma FloorBounds(num: nat, den: nat, n: nat, i: nat)
    requires num < den && i == (num * n) / den
    ensures i * den <= num * n < (i + 1) * den
    ensures n > 0 ==> i < n
  {
  }

  /**
   `getRandomElement(arr)`: the element at `Math.floor(r * arr.length)`, or
   `undefined` (`None`) when that index is out of range.
   */
  function GetRandomElement(arr: seq<string>, r: UnitRandom): (e: Option<string>)
    ensures e.Some? <==> |arr| > 0
    ensures e.Some? ==> e.value in arr
  {
    var i := FloorScaled(r, |arr|);
    if i < |arr| then Some(arr[i]) else None
  }

  /** Every position of a non-empty list is chosen by `r = i / |arr|`. */
  lemma EveryPositionReachable(arr: seq<string>, i: nat)
    requires i < |arr|
    ensures GetRandomElement(arr, Ratio(i, |arr|)) == Some(arr[i])
  {
  }

  const MotivationalPhrasesStart: seq<string> := [
    "Hey, creative warrior!",
    "To the amazing creator,",
    "Feeling the weight of the editing grind?",
    "Take a deep breath, talented editor.",
    "It's okay to feel overwhelmed sometimes,",
    "Just a little reminder, superstar:",
    "Your dedication truly shines,",
    "Remember this, creative soul:"
  ]

  const MotivationalPhrasesMiddle: seq<string> := [
    "every cut brings you closer to your vision.",
    "your passion is your superpower.",
    "even small breaks make a huge difference.",
    "the final product will be worth every effort.",
    "you're building something incredible, one step at a time.",
    "your unique perspective is what makes your work special.",
    "don't forget the joy of creation.",
    "your audience truly appreciates you."
  ]

  const MotivationalPhrasesEnd: seq<string> := [
    "You've got this!",
    "Keep that creative fire burning!",
    "We believe in you.",
    "Take a break, you've earned it.",
    "Your art matters.",
    "Push through, you're almost there!",
    "Remember your 'why'.",
    "You're making magic!"
  ]

  /** The three phrases the support prompt is assembled from. */
  datatype PromptPhrases = PromptPhrases(opening: string, idea: string, closing: string)

  /**
   The three picks of the support prompt, one from each phrase list; none of
   them ever reads past the end of its list.
   */
  function SupportPhrases(r1: UnitRandom, r2: UnitRandom, r3: UnitRandom): (p: PromptPhrases)
    ensures p.opening in MotivationalPhrasesStart
    ensures p.idea in MotivationalPhrasesMiddle
    ensures p.closing in MotivationalPhrasesEnd
  {
    assert |MotivationalPhrasesStart| == |MotivationalPhrasesMiddle| == |MotivationalPhrasesEnd| == 8;
    PromptPhrases(
      GetRandomElement(MotivationalPhrasesStart, r1).value,
      GetRandomElement(MotivationalPhrasesMiddle, r2).value,
      GetRandomElement(MotivationalPhrasesEnd, r3).value)
  }
}
