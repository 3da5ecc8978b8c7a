/** The hover-highlight cell of the emotion wheel: a set of emotion ids that
    three helpers overwrite wholesale. Nothing hovered is the empty set, a
    petal hover a single id, a dyad row hover the pair of its emotions. */
module Hover {

  /** What a helper call asks for. */
  datatype HoverAction = One(id: string) | Pair(first: string, second: string) | Clear

  /** What the cell may hold: nothing, one id or a pair. */
  predicate AtMostPair(s: set<string>)
  {
    |s| <= 2
  }

  /** The set a helper call leaves in the cell; the prior contents play no
      part. */
  function Hovered(action: HoverAction): (s: set<string>)
    ensures AtMostPair(s)
  {
    match action
    case One(id) => {id}
    case Pair(a, b) => {a, b}
    case Clear => {}
  }

  /** The three sizes and what each means. */
  lemma HoveredSizes(action: HoverAction)
    ensures |Hovered(action)| == 0 <==> action.Clear?
    ensures |Hovered(action)| == 2 <==> action.Pair? && action.first != action.second
    ensures |Hovered(action)| == 1 <==>
      action.One? || (action.Pair? && action.first == action.second)
  {
    if action.Pair? && action.first != action.second {
      assert {action.first, action.second} == {action.first} + {action.second};
    }
  }

  /** One helper call on a cell holding `current`: the set is replaced. */
  function Step(current: set<string>, action: HoverAction): set<string>
  {
    Hovered(action)
  }

  /** The cell after a sequence of helper calls, starting from `init`. */
  function Replay(init: set<string>, actions: seq<HoverAction>): set<string>
    decreases |actions|
  {
    if actions == [] then init
    else Step(Replay(init, actions[..|actions| - 1]), actions[|actions| - 1])
  }

  /** Only the last call matters: nothing from the starting set or from an
      earlier call survives it. */
  lemma LastCallWins(init: set<string>, actions: seq<HoverAction>, a: HoverAction)
    ensures Replay(init, actions + [a]) == Hovered(a)
  {
    assert (actions + [a])[..|actions|] == actions;
  }

  /** If only the helpers write the cell, starting from a valid cell it
      never holds more than two ids. */
  lemma {:induction false} ReplayStaysSmall(init: set<string>, actions: seq<HoverAction>)
    requires AtMostPair(init)
    ensures AtMostPair(Replay(init, actions))
    decreases |actions|
  {
    if actions != [] {
      ReplayStaysSmall(init, actions[..|actions| - 1]);
    }
  }

  /** The cell itself. */
  class HoverState {
    var hovered: set<string>

    /** Empty, a singleton or a pair. */
    predicate Valid()
      reads this
    {
      AtMostPair(hovered)
    }

    /** The cell starts with nothing hovered. */
    constructor ()
      ensures hovered == {}
      ensures Valid()
    {
      hovered := {};
    }

    /** Petal hover. */
    method HoverOne(id: string)
      modifies this
      ensures hovered == {id} == Step(old(hovered), One(id))
      ensures |hovered| == 1
      ensures Valid()
    {
      hovered := {id};
    }

    /** Dyad row hover. */
    method HoverPair(a: string, b: string)
      modifies this
      ensures hovered == {a, b} == Step(old(hovered), Pair(a, b))
      ensures |hovered| == if a == b then 1 else 2
      ensures Valid()
    {
      hovered := {a, b};
      HoveredSizes(Pair(a, b));
    }

    /** Nothing hovered. */
    method HoverClear()
      modifies this
      ensures hovered == {} == Step(old(hovered), Clear)
      ensures Valid()
    {
      hovered := {};
    }
  }
}
