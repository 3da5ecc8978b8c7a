/** Stage colour assignment: each distinct stage id of a journey gets the next
    palette colour in first-seen order, the palette index wrapping modulo its
    length. */
module StageColors {

  const STAGE_COLORS: seq<string> := [
    "#006363ff", "#237674ff", "#468A85ff", "#699D97ff",
    "#8CB0A8ff", "#AFC4B9ff", "#D2D7CAff"
  ]

  /** The palette colour for the k-th distinct stage: the index wraps
      around the palette. */
  function PaletteColor(k: nat): string
  {
    STAGE_COLORS[k % |STAGE_COLORS|]
  }

  /** One step of journey data; only its stage id matters here. */
  datatype StageRecord = StageRecord(stageId: string)

  function StageIds(data: seq<StageRecord>): seq<string>
  {
    seq(|data|, i requires 0 <= i < |data| => data[i].stageId)
  }

  /** No element occurs twice. */
  predicate NoDuplicates(s: seq<string>)
  {
    forall i, j :: 0 <= i < j < |s| ==> s[i] != s[j]
  }

  /** The distinct ids of `ids`, each once, in the order of their first
      occurrence. */
  function FirstSeen(ids: seq<string>): seq<string>
    decreases |ids|
  {
    if ids == [] then []
    else
      var prior := FirstSeen(ids[..|ids| - 1]);
      var last := ids[|ids| - 1];
      if last in prior then prior else prior + [last]
  }

  /** FirstSeen holds every id of its input exactly once. */
  lemma {:induction false} FirstSeenSpec(ids: seq<string>)
    ensures NoDuplicates(FirstSeen(ids))
    ensures forall x :: x in FirstSeen(ids) <==> x in ids
    ensures |FirstSeen(ids)| <= |ids|
    decreases |ids|
  {
    if ids != [] {
      var prefix := ids[..|ids| - 1];
      FirstSeenSpec(prefix);
      assert ids == prefix + [ids[|ids| - 1]];
    }
  }

  /** Index of the first occurrence of `x` in a sequence that contains it. */
  function IndexOf(s: seq<string>, x: string): (k: nat)
    requires x in s
    ensures k < |s| && s[k] == x
    ensures forall j :: 0 <= j < k ==> s[j] != x
  {
    if s[0] == x then 0 else 1 + IndexOf(s[1..], x)
  }

  /** The stage colour map as a value: every stage id of the data, mapped to
      the palette colour of its rank in first-seen order. */
  function StageColorMapOf(data: seq<StageRecord>): map<string, string>
  {
    var order := FirstSeen(StageIds(data));
    map id | id in order :: PaletteColor(IndexOf(order, id))
  }

  /** Builds the stage colour map in one pass over the data. */
  method BuildStageColorMap(data: seq<StageRecord>) returns (m: map<string, string>)
    ensures m == StageColorMapOf(data)
    ensures forall id :: id in m <==> id in StageIds(data)
  {
    ghost var ids := StageIds(data);
    ghost var order: seq<string> := [];
    var seen: map<string, string> := map[];
    var gi := 0;
    var i := 0;
    while i < |data|
      invariant 0 <= i <= |data|
      invariant order == FirstSeen(ids[..i])
      invariant gi == |order|
      invariant forall x :: x in seen <==> x in order
      invariant forall k :: 0 <= k < gi ==> seen[order[k]] == PaletteColor(k)
    {
      var d := data[i];
      FirstSeenSnoc(ids, i);
      if d.stageId !in seen {
        ghost var before := seen;
        ghost var orderBefore := order;
        seen := seen[d.stageId := PaletteColor(gi)];
        order := order + [d.stageId];
        gi := gi + 1;
        forall k | 0 <= k < gi ensures seen[order[k]] == PaletteColor(k) {
          if k < gi - 1 {
            assert order[k] == orderBefore[k] && order[k] in before;
          }
        }
      }
      i := i + 1;
    }
    assert ids[..|data|] == ids;
    m := seen;
    OrderedColorsAreTheMap(data, order, m);
  }

  /** A map that holds exactly the first-seen ids, each with the palette
      colour of its rank, is the stage colour map. */
  lemma OrderedColorsAreTheMap(data: seq<StageRecord>, order: seq<string>, m: map<string, string>)
    requires order == FirstSeen(StageIds(data))
    requires forall x :: x in m <==> x in order
    requires forall k :: 0 <= k < |order| ==> m[order[k]] == PaletteColor(k)
    ensures m == StageColorMapOf(data)
    ensures forall id :: id in m <==> id in StageIds(data)
  {
    FirstSeenSpec(StageIds(data));
    forall id | id in m ensures m[id] == StageColorMapOf(data)[id] {
      var k := IndexOf(order, id);
      assert m[order[k]] == PaletteColor(k);
    }
  }

  /** How FirstSeen grows by one element. */
  lemma FirstSeenSnoc(ids: seq<string>, i: nat)
    requires i < |ids|
    ensures FirstSeen(ids[..i + 1]) ==
      if ids[i] in FirstSeen(ids[..i]) then FirstSeen(ids[..i])
      else FirstSeen(ids[..i]) + [ids[i]]
  {
    assert ids[..i + 1][..i] == ids[..i];
  }

  /** A duplicate-free sequence has as many distinct elements as entries. */
  lemma {:induction false} SizeOfDistinct(s: seq<string>)
    requires NoDuplicates(s)
    ensures |set x | x in s| == |s|
  {
    if s != [] {
      var tail := s[..|s| - 1];
      SizeOfDistinct(tail);
      assert (set x | x in s) == (set x | x in tail) + {s[|s| - 1]};
    }
  }

  // ---------------------------------------------------------------------
  // What the map holds

  /** Its keys are exactly the stage ids of the data. */
  lemma StageColorMapKeys(data: seq<StageRecord>)
    ensures forall id :: id in StageColorMapOf(data) <==>
      exists i :: 0 <= i < |data| && data[i].stageId == id
  {
    var ids := StageIds(data);
    FirstSeenSpec(ids);
    forall id | id in ids ensures exists i :: 0 <= i < |data| && data[i].stageId == id {
      var i :| 0 <= i < |ids| && ids[i] == id;
      assert data[i].stageId == id;
    }
    forall id, i | 0 <= i < |data| && data[i].stageId == id ensures id in ids {
      assert ids[i] == id;
    }
  }

  /** The k-th distinct stage id in first-seen order gets palette colour
      k modulo the palette size. */
  lemma StageColorMapRank(data: seq<StageRecord>, k: nat)
    requires k < |FirstSeen(StageIds(data))|
    ensures FirstSeen(StageIds(data))[k] in StageColorMapOf(data)
    ensures StageColorMapOf(data)[FirstSeen(StageIds(data))[k]] == STAGE_COLORS[k % 7]
  {
    FirstSeenSpec(StageIds(data));
    var order := FirstSeen(StageIds(data));
    assert IndexOf(order, order[k]) == k;
  }

  /** One entry per distinct stage id, never more entries than records. */
  lemma StageColorMapSize(data: seq<StageRecord>)
    ensures |StageColorMapOf(data)| == |FirstSeen(StageIds(data))| <= |data|
  {
    FirstSeenSpec(StageIds(data));
    var order := FirstSeen(StageIds(data));
    assert StageColorMapOf(data).Keys == set x | x in order;
    SizeOfDistinct(order);
  }

  /** Every colour handed out comes from the palette. */
  lemma StageColorMapValuesInPalette(data: seq<StageRecord>, id: string)
    requires id in StageColorMapOf(data)
    ensures StageColorMapOf(data)[id] in STAGE_COLORS
  {
    var order := FirstSeen(StageIds(data));
    var k := IndexOf(order, id) % |STAGE_COLORS|;
    assert StageColorMapOf(data)[id] == STAGE_COLORS[k];
  }

  lemma EmptyDataEmptyMap()
    ensures StageColorMapOf([]) == map[]
  {
    assert StageIds([]) == [];
  }

  // ---------------------------------------------------------------------
  // First-seen order

  /** FirstSeen lists ids by their first occurrence: wherever a later-listed
      id occurs in the data, every earlier-listed id has occurred before. */
  lemma {:induction false} FirstSeenOrder(ids: seq<string>, j: nat, k: nat, p: nat)
    requires j < k < |FirstSeen(ids)|
    requires p < |ids| && ids[p] == FirstSeen(ids)[k]
    ensures FirstSeen(ids)[j] in ids[..p]
    decreases |ids|
  {
    var n := |ids| - 1;
    var prefix := ids[..n];
    FirstSeenSnoc(ids, n);
    assert ids[..n + 1] == ids;
    FirstSeenSpec(prefix);
    var pfs := FirstSeen(prefix);
    if p < n {
      assert prefix[p] == ids[p];
      assert k < |pfs|;
      FirstSeenOrder(prefix, j, k, p);
      assert prefix[..p] == ids[..p];
    } else {
      assert pfs[j] in prefix;
    }
  }

  /** Appending data only ever extends FirstSeen at its end. */
  lemma {:induction false} FirstSeenPrefix(ids: seq<string>, more: seq<string>)
    ensures FirstSeen(ids) <= FirstSeen(ids + more)
    decreases |more|
  {
    if more == [] {
      assert ids + more == ids;
    } else {
      var all := ids + more;
      var n := |all| - 1;
      FirstSeenPrefix(ids, more[..|more| - 1]);
      assert all[..n] == ids + more[..|more| - 1];
      FirstSeenSnoc(all, n);
      assert all[..n + 1] == all;
    }
  }

  /** Appending records never changes a colour already assigned. */
  lemma AppendKeepsColors(data: seq<StageRecord>, more: seq<StageRecord>, id: string)
    requires id in StageColorMapOf(data)
    ensures id in StageColorMapOf(data + more)
    ensures StageColorMapOf(data + more)[id] == StageColorMapOf(data)[id]
  {
    var ids := StageIds(data);
    var all := StageIds(data + more);
    assert all == ids + StageIds(more);
    FirstSeenPrefix(ids, StageIds(more));
    FirstSeenSpec(all);
    var order := FirstSeen(ids);
    var k := IndexOf(order, id);
    assert FirstSeen(all)[k] == id;
    assert IndexOf(FirstSeen(all), id) == k;
  }

  /** A repeated id neither takes a new colour nor advances the palette. */
  lemma RepeatChangesNothing(data: seq<StageRecord>, r: StageRecord)
    requires exists i :: 0 <= i < |data| && data[i].stageId == r.stageId
    ensures StageColorMapOf(data + [r]) == StageColorMapOf(data)
  {
    var ids := StageIds(data);
    var all := StageIds(data + [r]);
    assert all == ids + [r.stageId];
    var i :| 0 <= i < |data| && data[i].stageId == r.stageId;
    assert ids[i] == r.stageId;
    FirstSeenSpec(ids);
    assert r.stageId in FirstSeen(ids);
    FirstSeenSnoc(all, |ids|);
    assert all[..|ids|] == ids && all[..|ids| + 1] == all;
    assert FirstSeen(all) == FirstSeen(ids);
  }

  // ---------------------------------------------------------------------
  // Examples and the palette wrap

  lemma FirstSeenOfABAC()
    ensures FirstSeen(["a", "b", "a", "c"]) == ["a", "b", "c"]
  {
    var ids := ["a", "b", "a", "c"];
    FirstSeenSnoc(ids, 0);
    FirstSeenSnoc(ids, 1);
    FirstSeenSnoc(ids, 2);
    FirstSeenSnoc(ids, 3);
    assert ids[..0] == [];
    assert ids[..4] == ids;
  }

  /** Stage ids "a", "b", "a", "c" give the first three palette colours. */
  lemma FirstSeenExample()
    ensures StageColorMapOf([StageRecord("a"), StageRecord("b"), StageRecord("a"), StageRecord("c")])
      == map["a" := STAGE_COLORS[0], "b" := STAGE_COLORS[1], "c" := STAGE_COLORS[2]]
  {
    var data := [StageRecord("a"), StageRecord("b"), StageRecord("a"), StageRecord("c")];
    assert StageIds(data) == ["a", "b", "a", "c"];
    FirstSeenOfABAC();
    IndexesOfABC();
    var m := StageColorMapOf(data);
    assert m.Keys == {"a", "b", "c"};
    assert m["a"] == PaletteColor(0) == STAGE_COLORS[0];
    assert m["b"] == PaletteColor(1) == STAGE_COLORS[1];
    assert m["c"] == PaletteColor(2) == STAGE_COLORS[2];
  }

  lemma IndexesOfABC()
    ensures IndexOf(["a", "b", "c"], "a") == 0
    ensures IndexOf(["a", "b", "c"], "b") == 1
    ensures IndexOf(["a", "b", "c"], "c") == 2
  {
    var order: seq<string> := ["a", "b", "c"];
    assert order[1..] == ["b", "c"] && order[1..][1..] == ["c"];
  }

  /** The eighth distinct stage wraps around to the first colour. */
  lemma EighthStageWraps(data: seq<StageRecord>)
    requires |FirstSeen(StageIds(data))| >= 8
    ensures StageColorMapOf(data)[FirstSeen(StageIds(data))[7]] == STAGE_COLORS[0]
    ensures StageColorMapOf(data)[FirstSeen(StageIds(data))[7]]
      == StageColorMapOf(data)[FirstSeen(StageIds(data))[0]]
  {
    StageColorMapRank(data, 7);
    StageColorMapRank(data, 0);
  }

  /** The first seven distinct stages get seven different colours. */
  lemma FirstSevenDistinct(data: seq<StageRecord>, j: nat, k: nat)
    requires j < k < |FirstSeen(StageIds(data))| && k < 7
    ensures StageColorMapOf(data)[FirstSeen(StageIds(data))[j]]
      != StageColorMapOf(data)[FirstSeen(StageIds(data))[k]]
  {
    StageColorMapRank(data, j);
    StageColorMapRank(data, k);
    PaletteDistinct(j, k);
  }

  /** The seven palette colours are pairwise different. */
  lemma PaletteDistinct(j: nat, k: nat)
    requires j < k < 7
    ensures STAGE_COLORS[j % 7] != STAGE_COLORS[k % 7]
  {
    // the colours already differ in their second character
    assert j == 0 || j == 1 || j == 2 || j == 3 || j == 4 || j == 5;
    assert k == 1 || k == 2 || k == 3 || k == 4 || k == 5 || k == 6;
    assert STAGE_COLORS[j][1] != STAGE_COLORS[k][1];
  }
}
