/** The sentiment classifier of the feedback model: emotion tags, the
    alias normalisation and the first-match-wins rule over (rating, emotion). */
module Sentiment {

  /** The three labels a feedback record can carry. */
  datatype Label = Positive | Neutral | Negative

  // Canonical emotion tags and their emoji aliases.
  const Happy: string := "happy"
  const NeutralTag: string := "neutral"
  const Unhappy: string := "unhappy"
  const HappyEmoji: string := "\U{1F600}"
  const NeutralEmoji: string := "\U{1F610}"
  const UnhappyEmoji: string := "\U{1F621}"

  /** True of the three canonical tags. */
  predicate IsCanonical(tag: string) {
    tag == Happy || tag == NeutralTag || tag == Unhappy
  }

  /** True of the three emoji aliases. */
  predicate IsAlias(emotion: string) {
    emotion == HappyEmoji || emotion == NeutralEmoji || emotion == UnhappyEmoji
  }

  /** Maps each emoji alias to its canonical tag; every other value passes through. */
  function Normalize(emotion: string): (tag: string)
    ensures IsAlias(emotion) ==> IsCanonical(tag)
    ensures !IsAlias(emotion) ==> tag == emotion
    ensures emotion == HappyEmoji ==> tag == Happy
    ensures emotion == NeutralEmoji ==> tag == NeutralTag
    ensures emotion == UnhappyEmoji ==> tag == Unhappy
  {
    if emotion == HappyEmoji then Happy
    else if emotion == NeutralEmoji then NeutralTag
    else if emotion == UnhappyEmoji then Unhappy
    else emotion
  }

  /** Normalising twice is normalising once: no canonical tag is an alias. */
  lemma NormalizeIdempotent(emotion: string)
    ensures Normalize(Normalize(emotion)) == Normalize(emotion)
  {
  }

  /** The classifier, first match wins: a high rating or a happy emotion is
      positive; otherwise a low rating or an unhappy emotion is negative;
      everything else is neutral. */
  function Categorize(rating: int, emotion: string): (l: Label)
    // a rating of 4 or more wins over any emotion
    ensures rating >= 4 ==> l == Positive
    // a happy emotion wins over any rating
    ensures Normalize(emotion) == Happy ==> l == Positive
    // negative exactly when neither positive trigger holds and a negative trigger does
    ensures l == Negative <==>
              rating < 4 && Normalize(emotion) != Happy
              && (rating <= 2 || Normalize(emotion) == Unhappy)
    // neutral exactly at rating 3 with an emotion that is neither happy nor unhappy
    ensures l == Neutral <==>
              rating == 3 && Normalize(emotion) != Happy && Normalize(emotion) != Unhappy
  {
    var tag := Normalize(emotion);
    if rating >= 4 || tag == Happy then Positive
    else if rating <= 2 || tag == Unhappy then Negative
    else Neutral
  }

  /** Orders labels from worst to best. */
  function Rank(l: Label): nat {
    match l
    case Negative => 0
    case Neutral => 1
    case Positive => 2
  }

  /** Each emoji alias classifies exactly like its canonical tag, at every rating. */
  lemma AliasEquivalence(rating: int)
    ensures Categorize(rating, HappyEmoji) == Categorize(rating, Happy)
    ensures Categorize(rating, NeutralEmoji) == Categorize(rating, NeutralTag)
    ensures Categorize(rating, UnhappyEmoji) == Categorize(rating, Unhappy)
  {
  }

  /** An emotion that is neither happy nor unhappy after normalisation,
      recognised or not, classifies like "neutral". */
  lemma OtherEmotionsActNeutral(rating: int, emotion: string)
    requires Normalize(emotion) != Happy && Normalize(emotion) != Unhappy
    ensures Categorize(rating, emotion) == Categorize(rating, NeutralTag)
  {
  }

  /** Raising the rating never makes the label worse. */
  lemma MonotoneInRating(low: int, high: int, emotion: string)
    requires low <= high
    ensures Rank(Categorize(low, emotion)) <= Rank(Categorize(high, emotion))
  {
  }

  /** At a fixed rating, unhappy classifies no better than neutral, and neutral
      no better than happy. */
  lemma MonotoneInEmotion(rating: int)
    ensures Rank(Categorize(rating, Unhappy)) <= Rank(Categorize(rating, NeutralTag))
    ensures Rank(Categorize(rating, NeutralTag)) <= Rank(Categorize(rating, Happy))
  {
  }

  /** Cases where the rating and the emotion point different ways. */
  lemma PrecedenceExamples()
    ensures Categorize(5, Unhappy) == Positive
    ensures Categorize(2, Happy) == Positive
    ensures Categorize(3, Happy) == Positive
    ensures Categorize(4, NeutralTag) == Positive
    ensures Categorize(3, Unhappy) == Negative
    ensures Categorize(3, NeutralTag) == Neutral
  {
  }
}
