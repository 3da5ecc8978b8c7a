/** Plutchik emotion registry: the eight primary emotions and twenty-four
    dyads, lookups by id, colour lookups that fall back to fixed defaults
    and the invariants of the static tables. */
module Registry {


  datatype Option<T> = None | Some(value: T)

  datatype Valence = Positive | Negative | Neutral

  /** A primary emotion; `name` is the display label. */
  datatype Emotion = Emotion(
    id: string,
    name: string,
    color: string,
    textColor: string,
    wheelAngle: int,
    valence: Valence)

  /** Primary dyads blend wheel neighbours, secondary ones emotions one
      apart, tertiary ones emotions two apart. */
  datatype DyadKind = Primary | Secondary | Tertiary

  /** A blend of two primary emotions, in blend order. */
  datatype Dyad = Dyad(id: string, name: string, primary: (string, string), kind: DyadKind)

  /** Clockwise from joy at 12 o'clock. */
  const EMOTIONS: seq<Emotion> := [
    Emotion("joy", "Joy", "#FFE953", "#5A3E28", 0, Positive),
    Emotion("trust", "Trust", "#53FF53", "#1a3a1a", 45, Positive),
    Emotion("fear", "Fear", "#442568", "#ffffff", 90, Negative),
    Emotion("surprise", "Surprise", "#008AE1", "#ffffff", 135, Neutral),
    Emotion("sadness", "Sadness", "#0000C9", "#ffffff", 180, Negative),
    Emotion("disgust", "Disgust", "#DF00DF", "#ffffff", 225, Negative),
    Emotion("anger", "Anger", "#D50000", "#ffffff", 270, Negative),
    Emotion("anticipation", "Anticipation", "#FF7E00", "#ffffff", 315, Positive)
  ]

  const DYADS: seq<Dyad> := [
    Dyad("love", "Love", ("joy", "trust"), Primary),
    Dyad("submission", "Submission", ("trust", "fear"), Primary),
    Dyad("awe", "Awe", ("fear", "surprise"), Primary),
    Dyad("disapproval", "Disapproval", ("surprise", "sadness"), Primary),
    Dyad("remorse", "Remorse", ("sadness", "disgust"), Primary),
    Dyad("contempt", "Contempt", ("disgust", "anger"), Primary),
    Dyad("aggressiveness", "Aggressiveness", ("anger", "anticipation"), Primary),
    Dyad("optimism", "Optimism", ("anticipation", "joy"), Primary),

    Dyad("hope", "Hope", ("joy", "anticipation"), Secondary),
    Dyad("guilt", "Guilt", ("joy", "fear"), Secondary),
    Dyad("curiosity", "Curiosity", ("trust", "surprise"), Secondary),
    Dyad("despair", "Despair", ("fear", "sadness"), Secondary),
    Dyad("unbelief", "Unbelief", ("surprise", "disgust"), Secondary),
    Dyad("envy", "Envy", ("sadness", "anger"), Secondary),
    Dyad("cynicism", "Cynicism", ("disgust", "anticipation"), Secondary),
    Dyad("pride", "Pride", ("anger", "joy"), Secondary),

    Dyad("delight", "Delight", ("joy", "surprise"), Tertiary),
    Dyad("sentimentality", "Sentimentality", ("trust", "sadness"), Tertiary),
    Dyad("shame", "Shame", ("fear", "disgust"), Tertiary),
    Dyad("outrage", "Outrage", ("surprise", "anger"), Tertiary),
    Dyad("pessimism", "Pessimism", ("sadness", "anticipation"), Tertiary),
    Dyad("morbidness", "Morbidness", ("disgust", "joy"), Tertiary),
    Dyad("dominance", "Dominance", ("anger", "trust"), Tertiary),
    Dyad("anxiety", "Anxiety", ("anticipation", "fear"), Tertiary)
  ]

  const FALLBACK_COLOR: string := "#BFA080"
  const FALLBACK_TEXT_COLOR: string := "#5A3E28"

  // ---------------------------------------------------------------------
  // Id maps

  /** Entry `i` is the last one whose key is `k`. */
  predicate LastWithKey<T>(entries: seq<T>, key: T -> string, i: int, k: string)
  {
    0 <= i < |entries| && key(entries[i]) == k &&
    forall j :: i < j < |entries| ==> key(entries[j]) != k
  }

  /** Entries keyed by `key`, a later entry replacing an earlier one with the
      same key. */
  function FromEntries<T>(entries: seq<T>, key: T -> string): map<string, T>
  {
    if entries == [] then map[]
    else
      var last := entries[|entries| - 1];
      FromEntries(entries[..|entries| - 1], key)[key(last) := last]
  }

  /** Whatever the keys: every entry's key is in the map, and every key of
      the map holds the last entry with that key. */
  lemma {:induction false} FromEntriesLastWins<T>(entries: seq<T>, key: T -> string)
    ensures forall i :: 0 <= i < |entries| ==> key(entries[i]) in FromEntries(entries, key)
    ensures forall k :: k in FromEntries(entries, key) ==>
      exists i :: LastWithKey(entries, key, i, k) && FromEntries(entries, key)[k] == entries[i]
  {
    if entries != [] {
      var n := |entries| - 1;
      var prefix := entries[..n];
      FromEntriesLastWins(prefix, key);
      var prev := FromEntries(prefix, key);
      LastWithKeyExtends(entries, prefix, key, prev);
      assert LastWithKey(entries, key, n, key(entries[n]));
      forall i | 0 <= i < n
        ensures key(entries[i]) in FromEntries(entries, key)
      {
        assert entries[i] == prefix[i];
      }
    }
  }

  /** A key other than the new last entry's keeps its last entry when an
      entry is appended. */
  lemma LastWithKeyExtends<T>(entries: seq<T>, prefix: seq<T>, key: T -> string, prev: map<string, T>)
    requires entries != [] && prefix == entries[..|entries| - 1]
    requires forall k :: k in prev ==>
      exists i :: LastWithKey(prefix, key, i, k) && prev[k] == prefix[i]
    ensures forall k :: k in prev && k != key(entries[|entries| - 1]) ==>
      exists i :: LastWithKey(entries, key, i, k) && prev[k] == entries[i]
  {
    var n := |entries| - 1;
    forall k | k in prev && k != key(entries[n])
      ensures exists i :: LastWithKey(entries, key, i, k) && prev[k] == entries[i]
    {
      var i :| LastWithKey(prefix, key, i, k) && prev[k] == prefix[i];
      assert LastWithKey(entries, key, i, k);
    }
  }

  predicate UniqueKeys<T>(entries: seq<T>, key: T -> string)
  {
    forall i, j :: 0 <= i < j < |entries| ==> key(entries[i]) != key(entries[j])
  }

  /** With unique keys, every entry is found under its own key and nothing
      else is in the map. */
  lemma {:induction false} FromEntriesLookup<T>(entries: seq<T>, key: T -> string)
    requires UniqueKeys(entries, key)
    ensures forall i :: 0 <= i < |entries| ==>
      key(entries[i]) in FromEntries(entries, key) &&
      FromEntries(entries, key)[key(entries[i])] == entries[i]
    ensures forall k :: k in FromEntries(entries, key) <==>
      exists i :: 0 <= i < |entries| && key(entries[i]) == k
  {
    if entries != [] {
      var n := |entries| - 1;
      var prefix := entries[..n];
      assert UniqueKeys(prefix, key) by {
        forall i, j | 0 <= i < j < |prefix| ensures key(prefix[i]) != key(prefix[j]) {
          assert prefix[i] == entries[i] && prefix[j] == entries[j];
        }
      }
      FromEntriesLookup(prefix, key);
      forall k | k in FromEntries(entries, key)
        ensures exists i :: 0 <= i < |entries| && key(entries[i]) == k
      {
        if k != key(entries[n]) {
          var i :| 0 <= i < |prefix| && key(prefix[i]) == k;
          assert key(entries[i]) == k;
        }
      }
      forall i | 0 <= i < |entries|
        ensures key(entries[i]) in FromEntries(entries, key)
        ensures FromEntries(entries, key)[key(entries[i])] == entries[i]
      {
        if i < n {
          assert entries[i] == prefix[i];
        }
      }
    }
  }

  function EmotionKey(e: Emotion): string { e.id }
  function DyadKey(d: Dyad): string { d.id }

  const EMOTION_BY_ID: map<string, Emotion> := FromEntries(EMOTIONS, EmotionKey)
  const DYAD_BY_ID: map<string, Dyad> := FromEntries(DYADS, DyadKey)

  lemma EmotionIdsUnique()
    ensures UniqueKeys(EMOTIONS, EmotionKey)
  {
  }

  /** Position of a dyad id in the table, -1 for any other string. */
  function DyadIndex(id: string): int
  {
    if id == "love" then 0
    else if id == "submission" then 1
    else if id == "awe" then 2
    else if id == "disapproval" then 3
    else if id == "remorse" then 4
    else if id == "contempt" then 5
    else if id == "aggressiveness" then 6
    else if id == "optimism" then 7
    else if id == "hope" then 8
    else if id == "guilt" then 9
    else if id == "curiosity" then 10
    else if id == "despair" then 11
    else if id == "unbelief" then 12
    else if id == "envy" then 13
    else if id == "cynicism" then 14
    else if id == "pride" then 15
    else if id == "delight" then 16
    else if id == "sentimentality" then 17
    else if id == "shame" then 18
    else if id == "outrage" then 19
    else if id == "pessimism" then 20
    else if id == "morbidness" then 21
    else if id == "dominance" then 22
    else if id == "anxiety" then 23
    else -1
  }

  lemma PrimaryDyadIndex()
    ensures forall i :: 0 <= i < 8 ==> DyadIndex(DYADS[i].id) == i
  {
    forall i | 0 <= i < 8 ensures DyadIndex(DYADS[i].id) == i {
      if i == 0 { assert DYADS[0].id == "love"; }
      else if i == 1 { assert DYADS[1].id == "submission"; }
      else if i == 2 { assert DYADS[2].id == "awe"; }
      else if i == 3 { assert DYADS[3].id == "disapproval"; }
      else if i == 4 { assert DYADS[4].id == "remorse"; }
      else if i == 5 { assert DYADS[5].id == "contempt"; }
      else if i == 6 { assert DYADS[6].id == "aggressiveness"; }
      else if i == 7 { assert DYADS[7].id == "optimism"; }
    }
  }

  lemma SecondaryDyadIndex()
    ensures forall i :: 8 <= i < 16 ==> DyadIndex(DYADS[i].id) == i
  {
    forall i | 8 <= i < 16 ensures DyadIndex(DYADS[i].id) == i {
      if i == 8 { assert DYADS[8].id == "hope"; }
      else if i == 9 { assert DYADS[9].id == "guilt"; }
      else if i == 10 { assert DYADS[10].id == "curiosity"; }
      else if i == 11 { assert DYADS[11].id == "despair"; }
      else if i == 12 { assert DYADS[12].id == "unbelief"; }
      else if i == 13 { assert DYADS[13].id == "envy"; }
      else if i == 14 { assert DYADS[14].id == "cynicism"; }
      else if i == 15 { assert DYADS[15].id == "pride"; }
    }
  }

  lemma TertiaryDyadIndex()
    ensures forall i :: 16 <= i < 24 ==> DyadIndex(DYADS[i].id) == i
  {
    forall i | 16 <= i < 24 ensures DyadIndex(DYADS[i].id) == i {
      if i == 16 { assert DYADS[16].id == "delight"; }
      else if i == 17 { assert DYADS[17].id == "sentimentality"; }
      else if i == 18 { assert DYADS[18].id == "shame"; }
      else if i == 19 { assert DYADS[19].id == "outrage"; }
      else if i == 20 { assert DYADS[20].id == "pessimism"; }
      else if i == 21 { assert DYADS[21].id == "morbidness"; }
      else if i == 22 { assert DYADS[22].id == "dominance"; }
      else if i == 23 { assert DYADS[23].id == "anxiety"; }
    }
  }

  lemma DyadIdsUnique()
    ensures UniqueKeys(DYADS, DyadKey)
  {
    PrimaryDyadIndex();
    SecondaryDyadIndex();
    TertiaryDyadIndex();
  }

  /** Wheel position of an emotion id, -1 for any other string. */
  function WheelPosition(id: string): (p: int)
    ensures -1 <= p < |EMOTIONS|
  {
    if id == "joy" then 0
    else if id == "trust" then 1
    else if id == "fear" then 2
    else if id == "surprise" then 3
    else if id == "sadness" then 4
    else if id == "disgust" then 5
    else if id == "anger" then 6
    else if id == "anticipation" then 7
    else -1
  }

  /** A non-negative position holds the emotion with that id; -1 means no
      emotion has it. */
  lemma WheelPositionSpec(id: string)
    ensures WheelPosition(id) >= 0 ==> EMOTIONS[WheelPosition(id)].id == id
    ensures WheelPosition(id) == -1 ==> forall i :: 0 <= i < |EMOTIONS| ==> EMOTIONS[i].id != id
  {
  }

  /** Exact lookup of an emotion in the table. */
  function EmotionById(id: string): (r: Option<Emotion>)
    ensures forall i :: 0 <= i < |EMOTIONS| && EMOTIONS[i].id == id ==> r == Some(EMOTIONS[i])
    ensures WheelPosition(id) == -1 ==> r == None
  {
    EmotionIdsUnique();
    FromEntriesLookup(EMOTIONS, EmotionKey);
    WheelPositionSpec(id);
    if id in EMOTION_BY_ID then Some(EMOTION_BY_ID[id]) else None
  }

  /** Exact lookup of a dyad in the table. */
  function DyadById(id: string): (r: Option<Dyad>)
    ensures forall i :: 0 <= i < |DYADS| && DYADS[i].id == id ==> r == Some(DYADS[i])
    ensures (forall i :: 0 <= i < |DYADS| ==> DYADS[i].id != id) ==> r == None
  {
    DyadIdsUnique();
    FromEntriesLookup(DYADS, DyadKey);
    if id in DYAD_BY_ID then Some(DYAD_BY_ID[id]) else None
  }

  // ---------------------------------------------------------------------
  // Colour lookups

  /** Wheel colour of an emotion id, or the neutral parchment fallback. */
  function EmotionColor(id: string): (c: string)
    ensures WheelPosition(id) >= 0 ==> c == EMOTIONS[WheelPosition(id)].color
    ensures WheelPosition(id) == -1 ==> c == FALLBACK_COLOR
  {
    match EmotionById(id)
    case Some(e) => e.color
    case None => FALLBACK_COLOR
  }

  /** Label colour for text drawn on an emotion's background, or the dark
      brown fallback. */
  function EmotionTextColor(id: string): (c: string)
    ensures WheelPosition(id) >= 0 ==> c == EMOTIONS[WheelPosition(id)].textColor
    ensures WheelPosition(id) == -1 ==> c == FALLBACK_TEXT_COLOR
  {
    match EmotionById(id)
    case Some(e) => e.textColor
    case None => FALLBACK_TEXT_COLOR
  }

  /** No wheel colour coincides with the fallback, so a fallback colour
      always means the id was not found. */
  lemma EmotionColorsAreNotFallback()
    ensures forall i :: 0 <= i < |EMOTIONS| ==> EMOTIONS[i].color != FALLBACK_COLOR
  {
  }

  /** The canonical colours for the eight emotions, as documented next to
      the registry. */
  lemma DocumentedColors()
    ensures EmotionColor("anger") == "#D50000"
    ensures EmotionTextColor("joy") == "#5A3E28"
    ensures EmotionColor("joy") == "#FFE953" && EmotionColor("sadness") == "#0000C9"
    ensures EmotionColor("unknown") == FALLBACK_COLOR && EmotionTextColor("") == FALLBACK_TEXT_COLOR
  {
    assert EMOTIONS[0].id == "joy" && EMOTIONS[4].id == "sadness" && EMOTIONS[6].id == "anger";
  }

  // ---------------------------------------------------------------------
  // Invariants of the static tables

  /** Eight emotions, 45 degrees apart clockwise from joy at 0. */
  lemma WheelAnglesEvenlySpaced()
    ensures |EMOTIONS| == 8
    ensures forall i :: 0 <= i < |EMOTIONS| ==> EMOTIONS[i].wheelAngle == 45 * i
  {
  }

  lemma DyadIdsDisjointFromEmotionIds()
    ensures forall i, j :: 0 <= i < |DYADS| && 0 <= j < |EMOTIONS| ==> DYADS[i].id != EMOTIONS[j].id
  {
  }

  /** Each dyad blends two different emotions of the table. */
  predicate BlendsTwoEmotions(d: Dyad)
  {
    d.primary.0 != d.primary.1 && WheelPosition(d.primary.0) >= 0 && WheelPosition(d.primary.1) >= 0
  }

  lemma PrimaryPairsAreEmotions()
    ensures forall i :: 0 <= i < 8 ==> BlendsTwoEmotions(DYADS[i])
  {
  }

  lemma SecondaryPairsAreEmotions()
    ensures forall i :: 8 <= i < 16 ==> BlendsTwoEmotions(DYADS[i])
  {
  }

  lemma TertiaryPairsAreEmotions()
    ensures forall i :: 16 <= i < 24 ==> BlendsTwoEmotions(DYADS[i])
  {
  }

  lemma DyadPairsAreEmotions()
    ensures forall i :: 0 <= i < |DYADS| ==> BlendsTwoEmotions(DYADS[i])
  {
    PrimaryPairsAreEmotions();
    SecondaryPairsAreEmotions();
    TertiaryPairsAreEmotions();
  }

  function CountKind(ds: seq<Dyad>, k: DyadKind): nat
  {
    if ds == [] then 0
    else CountKind(ds[..|ds| - 1], k) + (if ds[|ds| - 1].kind == k then 1 else 0)
  }

  lemma {:induction false} CountKindAppend(a: seq<Dyad>, b: seq<Dyad>, k: DyadKind)
    ensures CountKind(a + b, k) == CountKind(a, k) + CountKind(b, k)
    decreases |b|
  {
    if b == [] {
      assert a + b == a;
    } else {
      assert (a + b)[..|a + b| - 1] == a + b[..|b| - 1];
      CountKindAppend(a, b[..|b| - 1], k);
    }
  }

  /** A block of dyads of one kind counts fully for it and not at all for the
      others. */
  lemma {:induction false} CountKindBlock(ds: seq<Dyad>, k: DyadKind, q: DyadKind)
    requires forall i :: 0 <= i < |ds| ==> ds[i].kind == k
    ensures CountKind(ds, q) == if q == k then |ds| else 0
  {
    if ds != [] {
      CountKindBlock(ds[..|ds| - 1], k, q);
    }
  }

  /** Kinds laid out as three blocks of eight: primary, secondary, tertiary. */
  predicate ThreeBlocksOfEight(ds: seq<Dyad>)
  {
    |ds| == 24 &&
    (forall i :: 0 <= i < 8 ==> ds[i].kind == Primary) &&
    (forall i :: 8 <= i < 16 ==> ds[i].kind == Secondary) &&
    (forall i :: 16 <= i < 24 ==> ds[i].kind == Tertiary)
  }

  lemma EightOfEachKind(ds: seq<Dyad>, k: DyadKind)
    requires ThreeBlocksOfEight(ds)
    ensures CountKind(ds, k) == 8
  {
    var a, b, c := ds[..8], ds[8..16], ds[16..];
    assert ds == a + b + c;
    CountKindBlock(a, Primary, k);
    CountKindBlock(b, Secondary, k);
    CountKindBlock(c, Tertiary, k);
    CountKindAppend(a, b, k);
    CountKindAppend(a + b, c, k);
  }

  lemma DyadsInThreeBlocks()
    ensures ThreeBlocksOfEight(DYADS)
  {
  }

  /** The table has 8 primary, 8 secondary and 8 tertiary dyads. */
  lemma EightDyadsOfEachKind(k: DyadKind)
    ensures |DYADS| == 24
    ensures CountKind(DYADS, k) == 8
  {
    DyadsInThreeBlocks();
    EightOfEachKind(DYADS, k);
  }

  // ---------------------------------------------------------------------
  // Wheel distance of a dyad's two emotions

  /** Steps between two wheel positions, the shorter way round. */
  function WheelDistance(p: int, q: int): (n: int)
    requires 0 <= p < 8 && 0 <= q < 8
    ensures 0 <= n <= 4
    ensures n == 0 <==> p == q
  {
    var steps := if p >= q then p - q else q - p;
    if steps > 4 then 8 - steps else steps
  }

  /** The distance each kind of dyad is meant to span. */
  function KindDistance(k: DyadKind): int
  {
    match k
    case Primary => 1
    case Secondary => 2
    case Tertiary => 3
  }

  /** Wheel distance between a dyad's two emotions. */
  function DyadSpan(d: Dyad): (n: int)
    requires BlendsTwoEmotions(d)
    ensures 1 <= n <= 4
  {
    WheelDistance(WheelPosition(d.primary.0), WheelPosition(d.primary.1))
  }

  predicate SpansItsKind(d: Dyad)
  {
    BlendsTwoEmotions(d) && DyadSpan(d) == KindDistance(d.kind)
  }

  lemma DyadsSpanTheirKindsFrom0To8()
    ensures forall i :: 0 <= i < 8 ==> SpansItsKind(DYADS[i])
  {
    PrimaryPairsAreEmotions();
  }

  lemma DyadsSpanTheirKindsFrom9To12()
    ensures forall i :: 9 <= i < 12 ==> SpansItsKind(DYADS[i])
  {
    SecondaryPairsAreEmotions();
  }

  lemma DyadsSpanTheirKindsFrom12To16()
    ensures forall i :: 12 <= i < 16 ==> SpansItsKind(DYADS[i])
  {
    SecondaryPairsAreEmotions();
  }

  lemma DyadsSpanTheirKindsFrom16To20()
    ensures forall i :: 16 <= i < 20 ==> SpansItsKind(DYADS[i])
  {
    TertiaryPairsAreEmotions();
  }

  lemma DyadsSpanTheirKindsFrom20To24()
    ensures forall i :: 20 <= i < 24 ==> SpansItsKind(DYADS[i])
  {
    TertiaryPairsAreEmotions();
  }

  /** Every dyad spans the distance its kind promises, except 'hope'. */
  lemma DyadSpansMatchKindExceptHope()
    ensures forall i :: 0 <= i < |DYADS| && DYADS[i].id != "hope" ==> SpansItsKind(DYADS[i])
  {
    DyadsSpanTheirKindsFrom0To8();
    DyadsSpanTheirKindsFrom9To12();
    DyadsSpanTheirKindsFrom12To16();
    DyadsSpanTheirKindsFrom16To20();
    DyadsSpanTheirKindsFrom20To24();
    assert DYADS[8].id == "hope";
  }

  /** 'hope' is typed secondary but blends the wheel neighbours joy and
      anticipation: the pair of 'optimism' in the other order. */
  lemma HopeIsMistyped()
    ensures DyadById("hope") == Some(DYADS[8])
    ensures DyadById("optimism") == Some(DYADS[7])
    ensures DYADS[8].kind == Secondary && BlendsTwoEmotions(DYADS[8])
    ensures DyadSpan(DYADS[8]) == 1 != KindDistance(Secondary)
    ensures DYADS[8].primary == (DYADS[7].primary.1, DYADS[7].primary.0)
  {
    assert DYADS[8].id == "hope" && DYADS[7].id == "optimism";
  }

  /** The table with 'hope' blending anticipation and trust, one apart on
      the wheel, as Plutchik's secondary dyad of that name does. */
  const CORRECTED_DYADS: seq<Dyad> :=
    DYADS[8 := Dyad("hope", "Hope", ("anticipation", "trust"), Secondary)]

  /** In the corrected table every dyad blends two emotions and spans the
      distance of its kind. */
  lemma CorrectedDyadsSpanTheirKinds()
    ensures forall i :: 0 <= i < |CORRECTED_DYADS| ==> SpansItsKind(CORRECTED_DYADS[i])
  {
    DyadSpansMatchKindExceptHope();
    forall i | 0 <= i < |CORRECTED_DYADS| ensures SpansItsKind(CORRECTED_DYADS[i]) {
      if i != 8 {
        assert CORRECTED_DYADS[i] == DYADS[i];
      }
    }
  }

  /** The correction changes only the pair of 'hope'. */
  lemma CorrectedDyadsMatchIdsAndKinds()
    ensures |CORRECTED_DYADS| == |DYADS|
    ensures forall i :: 0 <= i < |DYADS| ==>
      CORRECTED_DYADS[i].id == DYADS[i].id && CORRECTED_DYADS[i].kind == DYADS[i].kind
  {
    assert DYADS[8].id == "hope" && DYADS[8].kind == Secondary;
  }

  /** The correction keeps ids unique and eight dyads of each kind. */
  lemma CorrectedDyadsKeepShape(k: DyadKind)
    ensures UniqueKeys(CORRECTED_DYADS, DyadKey)
    ensures CountKind(CORRECTED_DYADS, k) == 8
  {
    DyadIdsUnique();
    DyadsInThreeBlocks();
    CorrectedDyadsMatchIdsAndKinds();
    assert ThreeBlocksOfEight(CORRECTED_DYADS);
    EightOfEachKind(CORRECTED_DYADS, k);
  }
}
