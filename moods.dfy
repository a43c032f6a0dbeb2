/**
 * The five mood identifiers that the form offers and that every reduction
 * recognises. The database column itself accepts any text, so a mood
 * outside this set is a value every consumer has to tolerate.
 */
module Moods {

  import opened Wrappers

  const SuperHappy: string := "super-happy"
  const Happy: string := "happy"
  const Neutral: string := "neutral"
  const Anxious: string := "anxious"
  const Sad: string := "sad"

  /** The five identifiers, in the order the form lists them. */
  const KnownMoods: seq<string> := [SuperHappy, Happy, Neutral, Anxious, Sad]

  predicate IsKnownMood(m: string) {
    m == SuperHappy || m == Happy || m == Neutral || m == Anxious || m == Sad
  }

  lemma KnownMoodsAreTheFive(m: string)
    ensures IsKnownMood(m) <==> m in KnownMoods
  {
  }

  /** One counter per known mood: the record a trend bucket holds. */
  datatype MoodTally = MoodTally(superHappy: nat, happy: nat, neutral: nat, anxious: nat, sad: nat) {

    /** The counter kept for mood `m`; none is kept for an unknown mood. */
    function Get(m: string): (r: Option<nat>)
      ensures r.Some? <==> IsKnownMood(m)
      ensures m == SuperHappy ==> r == Some(superHappy)
      ensures m == Happy ==> r == Some(happy)
      ensures m == Neutral ==> r == Some(neutral)
      ensures m == Anxious ==> r == Some(anxious)
      ensures m == Sad ==> r == Some(sad)
    {
      if m == SuperHappy then Some(superHappy)
      else if m == Happy then Some(happy)
      else if m == Neutral then Some(neutral)
      else if m == Anxious then Some(anxious)
      else if m == Sad then Some(sad)
      else None
    }

    /** Increments the counter of mood `m`, if there is one. */
    function Bump(m: string): (r: MoodTally)
      ensures r.Sum() == Sum() + (if IsKnownMood(m) then 1 else 0)
      ensures IsKnownMood(m) ==> r.Get(m) == Some(Get(m).value + 1)
      ensures forall k :: k != m ==> r.Get(k) == Get(k)
    {
      if m == SuperHappy then this.(superHappy := superHappy + 1)
      else if m == Happy then this.(happy := happy + 1)
      else if m == Neutral then this.(neutral := neutral + 1)
      else if m == Anxious then this.(anxious := anxious + 1)
      else if m == Sad then this.(sad := sad + 1)
      else this
    }

    function Sum(): nat {
      superHappy + happy + neutral + anxious + sad
    }
  }

  const ZeroTally: MoodTally := MoodTally(0, 0, 0, 0, 0)
}
