/**
 * The obstacle store: whether an obstacle currently blocks the player, and
 * the scroll ceiling `maxScrollPosition`, which starts at `Infinity` and only
 * ever ratchets upward through `updateMaxScroll`.
 */
module ObstacleStore {

  /** A JavaScript number that is either finite or `Infinity`. */
  datatype ExtReal = Finite(value: real) | Infinity

  /** `a <= b` on extended reals, `Infinity` above everything. */
  predicate Le(a: ExtReal, b: ExtReal) {
    b.Infinity? || (a.Finite? && a.value <= b.value)
  }

  /** A finite position lies at or below a ceiling. */
  predicate Below(p: real, ceiling: ExtReal) {
    Le(Finite(p), ceiling)
  }

  /** `Math.max(ceiling, position)`: the least extended real above both. */
  function Max(ceiling: ExtReal, position: real): (r: ExtReal)
    ensures Le(ceiling, r) && Below(position, r)
    ensures r == ceiling || r == Finite(position)
  {
    match ceiling
    case Infinity => Infinity
    case Finite(c) => if c >= position then ceiling else Finite(position)
  }

  /** Nothing below the maximum lies above both arguments. */
  lemma MaxIsLeast(ceiling: ExtReal, position: real, bound: ExtReal)
    requires Le(ceiling, bound) && Below(position, bound)
    ensures Le(Max(ceiling, position), bound)
  {
  }

  lemma LeTransitive(a: ExtReal, b: ExtReal, c: ExtReal)
    requires Le(a, b) && Le(b, c)
    ensures Le(a, c)
  {
  }

  /** The store's two fields. */
  datatype State = State(isBlocked: bool, maxScrollPosition: ExtReal)

  const INITIAL: State := State(false, Infinity)

  function AfterSetBlocked(s: State, blocked: bool): (t: State)
    ensures t.isBlocked == blocked
    ensures t.maxScrollPosition == s.maxScrollPosition
  {
    s.(isBlocked := blocked)
  }

  function AfterUpdateMaxScroll(s: State, position: real): (t: State)
    ensures t.isBlocked == s.isBlocked
    ensures Le(s.maxScrollPosition, t.maxScrollPosition)
    ensures Below(position, t.maxScrollPosition)
    ensures Below(position, s.maxScrollPosition) ==> t == s
  {
    s.(maxScrollPosition := Max(s.maxScrollPosition, position))
  }

  function AfterReset(s: State): (t: State)
    ensures t == INITIAL
  {
    State(false, Infinity)
  }

  /** Raising the ceiling twice to the same position raises it once. */
  lemma UpdateIdempotent(s: State, position: real)
    ensures AfterUpdateMaxScroll(AfterUpdateMaxScroll(s, position), position) == AfterUpdateMaxScroll(s, position)
  {
  }

  /** The ceiling after a sequence of `updateMaxScroll` calls. */
  function UpdateAll(s: State, positions: seq<real>): State
    decreases |positions|
  {
    if |positions| == 0 then s else UpdateAll(AfterUpdateMaxScroll(s, positions[0]), positions[1..])
  }

  /** However many updates run, the ceiling never drops and covers every position passed. */
  lemma {:induction false} CeilingNeverDecreases(s: State, positions: seq<real>)
    ensures Le(s.maxScrollPosition, UpdateAll(s, positions).maxScrollPosition)
    ensures forall i :: 0 <= i < |positions| ==> Below(positions[i], UpdateAll(s, positions).maxScrollPosition)
    ensures UpdateAll(s, positions).isBlocked == s.isBlocked
    decreases |positions|
  {
    if |positions| > 0 {
      var s1 := AfterUpdateMaxScroll(s, positions[0]);
      var rest := positions[1..];
      CeilingNeverDecreases(s1, rest);
      var t := UpdateAll(s, positions);
      LeTransitive(s.maxScrollPosition, s1.maxScrollPosition, t.maxScrollPosition);
      LeTransitive(Finite(positions[0]), s1.maxScrollPosition, t.maxScrollPosition);
      forall i | 0 < i < |positions|
        ensures Below(positions[i], t.maxScrollPosition)
      {
        assert positions[i] == rest[i - 1];
      }
    }
  }

  /** From the initial `Infinity`, no update ever changes the ceiling. */
  lemma {:induction false} InfinityAbsorbs(s: State, positions: seq<real>)
    requires s.maxScrollPosition == Infinity
    ensures UpdateAll(s, positions) == s
    decreases |positions|
  {
    if |positions| > 0 {
      InfinityAbsorbs(AfterUpdateMaxScroll(s, positions[0]), positions[1..]);
    }
  }

  /** The store object, its fields replaced by its three actions. */
  class Store {
    var isBlocked: bool
    var maxScrollPosition: ExtReal

    function Snapshot(): State
      reads this
    {
      State(isBlocked, maxScrollPosition)
    }

    constructor ()
      ensures Snapshot() == INITIAL
    {
      isBlocked := false;
      maxScrollPosition := Infinity;
    }

    method SetBlocked(blocked: bool)
      modifies this
      ensures Snapshot() == AfterSetBlocked(old(Snapshot()), blocked)
    {
      isBlocked := blocked;
    }

    method UpdateMaxScroll(position: real)
      modifies this
      ensures Snapshot() == AfterUpdateMaxScroll(old(Snapshot()), position)
    {
      maxScrollPosition := Max(maxScrollPosition, position);
    }

    method Reset()
      modifies this
      ensures Snapshot() == AfterReset(old(Snapshot()))
    {
      isBlocked := false;
      maxScrollPosition := Infinity;
    }
  }
}
