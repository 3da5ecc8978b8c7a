/** Resolution of free-text emotion scores from journey data to wheel
    colours: lower-case, trim, follow an alias, then look the id up. */
module Scores {

  import JsString
  import Registry

  /** Free-text score labels seen in journey data, mapped to emotion ids. */
  const SCORE_ALIASES: map<string, string> := map[
    "alarm" := "fear",
    "hope" := "anticipation",
    "grief" := "sadness",
    "ecstasy" := "joy",
    "admiration" := "trust",
    "terror" := "fear",
    "amazement" := "surprise",
    "loathing" := "disgust",
    "rage" := "anger",
    "vigilance" := "anticipation"
  ]

  /** Lower-case, then trim: the result has no capital letter and no white
      space at either end. */
  function Normalize(score: string): (r: string)
    ensures forall i :: 0 <= i < |r| ==> !JsString.IsUpper(r[i])
    ensures r != [] ==> !JsString.IsSpace(r[0]) && !JsString.IsSpace(r[|r| - 1])
  {
    JsString.TrimLowerHasNoUpper(score);
    JsString.Trim(JsString.Lower(score))
  }

  /** The id used for the colour lookup. An alias always leads to an emotion
      of the table; any other score is looked up as it normalises. */
  function ScoreToId(score: string): (id: string)
    ensures Normalize(score) in SCORE_ALIASES ==> Registry.WheelPosition(id) >= 0
    ensures Normalize(score) !in SCORE_ALIASES ==> id == Normalize(score)
  {
    var normalized := Normalize(score);
    AliasTargetsAreEmotions();
    if normalized in SCORE_ALIASES then SCORE_ALIASES[normalized] else normalized
  }

  /** Colour of a raw score from journey data; `None` stands for a missing
      (null or undefined) score. */
  function PlutchikScoreToColor(score: Registry.Option<string>): (c: string)
    ensures score.None? ==> c == Registry.FALLBACK_COLOR
    ensures c == Registry.FALLBACK_COLOR || exists i :: 0 <= i < |Registry.EMOTIONS| && c == Registry.EMOTIONS[i].color
  {
    if score.None? then Registry.FALLBACK_COLOR
    else Registry.EmotionColor(ScoreToId(score.value))
  }

  /** Every alias names an emotion of the table. */
  lemma AliasTargetsAreEmotions()
    ensures forall a :: a in SCORE_ALIASES ==> Registry.WheelPosition(SCORE_ALIASES[a]) >= 0
  {
  }

  /** No canonical emotion id is itself an alias key. */
  lemma EmotionIdsAreNotAliases()
    ensures forall i :: 0 <= i < |Registry.EMOTIONS| ==> Registry.EMOTIONS[i].id !in SCORE_ALIASES
  {
  }

  /** A score that normalises to an alias takes the colour of the alias
      target's emotion, never the fallback. */
  lemma AliasHitNeverFallsBack(score: string)
    requires Normalize(score) in SCORE_ALIASES
    ensures Registry.WheelPosition(SCORE_ALIASES[Normalize(score)]) >= 0
    ensures PlutchikScoreToColor(Registry.Some(score))
      == Registry.EMOTIONS[Registry.WheelPosition(SCORE_ALIASES[Normalize(score)])].color
    ensures PlutchikScoreToColor(Registry.Some(score)) != Registry.FALLBACK_COLOR
  {
    var id := SCORE_ALIASES[Normalize(score)];
    assert ScoreToId(score) == id;
    AliasTargetsAreEmotions();
    assert Registry.WheelPosition(id) >= 0;
    Registry.EmotionColorsAreNotFallback();
  }

  /** A score that normalises to an alias is looked up under the alias
      target. */
  lemma AliasResolves(score: string, alias: string)
    requires Normalize(score) == alias && alias in SCORE_ALIASES
    ensures PlutchikScoreToColor(Registry.Some(score)) == Registry.EmotionColor(SCORE_ALIASES[alias])
  {
  }

  /** A score that normalises to a canonical id takes that emotion's colour. */
  lemma CanonicalScoreResolves(score: string, i: nat)
    requires i < |Registry.EMOTIONS| && Normalize(score) == Registry.EMOTIONS[i].id
    ensures PlutchikScoreToColor(Registry.Some(score)) == Registry.EMOTIONS[i].color
  {
    EmotionIdsAreNotAliases();
  }

  /** Anything else gets the fallback. */
  lemma UnknownScoreFallsBack(score: string)
    requires Normalize(score) !in SCORE_ALIASES
    requires Registry.WheelPosition(Normalize(score)) == -1
    ensures PlutchikScoreToColor(Registry.Some(score)) == Registry.FALLBACK_COLOR
  {
  }

  /** Normalising twice is normalising once. */
  lemma NormalizeIdempotent(score: string)
    ensures Normalize(Normalize(score)) == Normalize(score)
  {
    var x := JsString.Lower(score);
    JsString.TrimLowerCommute(x);
    JsString.LowerIdempotent(score);
    JsString.TrimIdempotent(x);
  }

  /** Resolving an already normalised score gives the same colour. */
  lemma NormalizedScoreSameColor(score: string)
    ensures PlutchikScoreToColor(Registry.Some(Normalize(score))) == PlutchikScoreToColor(Registry.Some(score))
  {
    var n := Normalize(score);
    assert ScoreToId(n) == ScoreToId(score) by {
      NormalizeIdempotent(score);
    }
    assert PlutchikScoreToColor(Registry.Some(n)) == Registry.EmotionColor(ScoreToId(n));
    assert PlutchikScoreToColor(Registry.Some(score)) == Registry.EmotionColor(ScoreToId(score));
  }

  /** A word padded with white space on either side normalises to the word
      in lower case. */
  lemma NormalizePadded(p: string, w: string, q: string)
    requires JsString.AllSpace(p)
    requires JsString.AllSpace(q)
    requires w != [] && !JsString.IsSpace(w[0]) && !JsString.IsSpace(w[|w| - 1])
    ensures Normalize(p + w + q) == JsString.Lower(w)
  {
    var lp, lw, lq := JsString.Lower(p), JsString.Lower(w), JsString.Lower(q);
    assert JsString.Lower(p + w + q) == lp + lw + lq;
    JsString.TrimPadded(lp, lw, lq);
  }

  lemma LowerExamples()
    ensures JsString.Lower("Grief") == "grief"
    ensures JsString.Lower("RAGE") == "rage"
  {
  }

  lemma AliasLookups()
    ensures "grief" in SCORE_ALIASES && SCORE_ALIASES["grief"] == "sadness"
    ensures "rage" in SCORE_ALIASES && SCORE_ALIASES["rage"] == "anger"
  {
  }

  /** "Grief", with any white space around it, is an alias of sadness. */
  lemma PaddedGriefIsSadness(p: string, q: string)
    requires JsString.AllSpace(p)
    requires JsString.AllSpace(q)
    ensures PlutchikScoreToColor(Registry.Some(p + "Grief" + q)) == Registry.EmotionColor("sadness")
  {
    var score := p + "Grief" + q;
    NormalizePadded(p, "Grief", q);
    LowerExamples();
    AliasLookups();
    AliasResolves(score, "grief");
  }

  /** "RAGE", with any white space around it, is an alias of anger. */
  lemma PaddedRageIsAnger(p: string, q: string)
    requires JsString.AllSpace(p)
    requires JsString.AllSpace(q)
    ensures PlutchikScoreToColor(Registry.Some(p + "RAGE" + q)) == Registry.EmotionColor("anger")
  {
    var score := p + "RAGE" + q;
    NormalizePadded(p, "RAGE", q);
    LowerExamples();
    AliasLookups();
    AliasResolves(score, "rage");
  }

  lemma MissingScoreFallsBack()
    ensures PlutchikScoreToColor(Registry.None) == Registry.FALLBACK_COLOR
    ensures PlutchikScoreToColor(Registry.Some("")) == Registry.FALLBACK_COLOR
  {
    assert JsString.Lower("") == "";
  }
}
