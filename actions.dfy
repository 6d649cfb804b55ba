/**
 * The three actions of the puzzle: empty a container, fill it up, pour one
 * container into another.
 *
 * An action captures the container values it was built from; its precondition
 * is judged on those captured values, while its effect looks the containers up
 * by name in whatever state it is applied to and returns a new state.
 */
module Actions {
  import opened Wrappers
  import opened Containers

  datatype Action =
    | Dump(container: Container)
    | FillUp(container: Container)
    | Pour(from: Container, to: Container)

  /** The precondition of each action, on the containers it captured. */
  predicate CanPerform(a: Action)
  {
    match a
    case Dump(c) => c.amount != 0
    case FillUp(c) => c.amount != c.capacity
    case Pour(from, to) => from.amount != 0 && to.amount != to.capacity
  }

  /** The names an action resolves in the state it is applied to. */
  function ActionNames(a: Action): set<string>
  {
    match a
    case Dump(c) => {c.name}
    case FillUp(c) => {c.name}
    case Pour(from, to) => {from.name, to.name}
  }

  /** Dump: the first container called c.name is emptied, nothing else changes. */
  function PerformDump(c: Container, oldState: State): (r: Option<State>)
    ensures r.Some? <==> FindIndex(oldState, c.name).Some?
    ensures r.Some? ==> SameShape(oldState, r.value)
    ensures r.Some? ==> var k := FindIndex(oldState, c.name).value;
      && r.value[k].amount == 0
      && forall j :: 0 <= j < |oldState| && j != k ==> r.value[j] == oldState[j]
  {
    var newState := CloneList(oldState);
    match FindIndex(newState, c.name)
    case None => None
    case Some(k) => Some(newState[k := newState[k].(amount := 0)])
  }

  /** FillUp: the first container called c.name is filled to its own capacity, nothing else changes. */
  function PerformFillUp(c: Container, oldState: State): (r: Option<State>)
    ensures r.Some? <==> FindIndex(oldState, c.name).Some?
    ensures r.Some? ==> SameShape(oldState, r.value)
    ensures r.Some? ==> var k := FindIndex(oldState, c.name).value;
      && r.value[k].amount == oldState[k].capacity
      && forall j :: 0 <= j < |oldState| && j != k ==> r.value[j] == oldState[j]
  {
    var newState := CloneList(oldState);
    match FindIndex(newState, c.name)
    case None => None
    case Some(k) => Some(newState[k := newState[k].(amount := newState[k].capacity)])
  }

  /**
   * The pour itself, on resolved indices: the receiving container is updated
   * first and the giving one second, so that when both indices are the same
   * container the second update sees the first.
   */
  function PourAt(s: State, fi: nat, ti: nat): (r: State)
    requires fi < |s| && ti < |s|
    ensures SameShape(s, r)
    ensures forall j :: 0 <= j < |s| && j != ti && j != fi ==> r[j] == s[j]
    ensures var a, b, cap := s[fi].amount, s[ti].amount, s[ti].capacity;
      ti != fi ==>
        if cap - b >= a then r[fi].amount == 0 && r[ti].amount == b + a
        else r[ti].amount == cap && r[fi].amount == a - (cap - b)
    ensures var b, cap := s[ti].amount, s[ti].capacity;
      ti == fi ==> r[ti].amount == if cap - b >= b then 0 else b
  {
    var capacityLeft := s[ti].capacity - s[ti].amount;
    if capacityLeft >= s[fi].amount then
      var s1 := s[ti := s[ti].(amount := s[ti].amount + s[fi].amount)];
      s1[fi := s1[fi].(amount := 0)]
    else
      var s1 := s[ti := s[ti].(amount := s[ti].capacity)];
      s1[fi := s1[fi].(amount := s1[fi].amount - capacityLeft)]
  }

  /**
   * Pour: with a = from's amount, b = to's amount and C = to's capacity in the
   * state poured on, either everything moves (room C - b is at least a) or
   * `to` is filled and `from` keeps the rest.
   */
  function PerformPour(from: Container, to: Container, oldState: State): (r: Option<State>)
    ensures r.Some? <==> FindIndex(oldState, to.name).Some? && FindIndex(oldState, from.name).Some?
    ensures r.Some? ==> r.value == PourAt(oldState, FindIndex(oldState, from.name).value, FindIndex(oldState, to.name).value)
  {
    var newState := CloneList(oldState);
    match (FindIndex(newState, to.name), FindIndex(newState, from.name))
    case (Some(ti), Some(fi)) => Some(PourAt(newState, fi, ti))
    case _ => None
  }

  /** Do all the names the action needs occur in `s`? */
  predicate Resolves(a: Action, s: State)
  {
    match a
    case Dump(c) => FindIndex(s, c.name).Some?
    case FillUp(c) => FindIndex(s, c.name).Some?
    case Pour(from, to) => FindIndex(s, from.name).Some? && FindIndex(s, to.name).Some?
  }

  /** Applying an action to a state: None when a name it needs is missing. */
  function Perform(a: Action, oldState: State): (r: Option<State>)
    ensures r.Some? <==> Resolves(a, oldState)
    ensures r.Some? ==> SameShape(oldState, r.value)
    ensures r.Some? ==> forall j :: 0 <= j < |oldState| && oldState[j].name !in ActionNames(a) ==>
      r.value[j] == oldState[j]
  {
    match a
    case Dump(c) => PerformDump(c, oldState)
    case FillUp(c) => PerformFillUp(c, oldState)
    case Pour(from, to) => PerformPour(from, to, oldState)
  }

  /** Every action keeps 0 <= amount <= capacity for every container. */
  lemma PerformKeepsBounds(a: Action, s: State)
    requires Bounded(s) && Perform(a, s).Some?
    ensures Bounded(Perform(a, s).value)
  {
    var r := Perform(a, s).value;
    match a
    case Dump(c) => {}
    case FillUp(c) => {}
    case Pour(from, to) => {
      var ti, fi := FindIndex(s, to.name).value, FindIndex(s, from.name).value;
      forall j | 0 <= j < |s| ensures 0 <= r[j].amount <= r[j].capacity {
        if j == ti || j == fi {
          assert r[j].capacity == s[j].capacity;
        }
      }
    }
  }

  /** A pour between two different containers conserves the total amount. */
  lemma PourConservesTotal(from: Container, to: Container, s: State)
    requires PerformPour(from, to, s).Some?
    requires FindIndex(s, from.name) != FindIndex(s, to.name)
    ensures Sum(Amounts(PerformPour(from, to, s).value)) == Sum(Amounts(s))
  {
    var r := PerformPour(from, to, s).value;
    var ti, fi := FindIndex(s, to.name).value, FindIndex(s, from.name).value;
    var mid := Amounts(s)[ti := r[ti].amount];
    SumUpdate(Amounts(s), ti, r[ti].amount);
    SumUpdate(mid, fi, r[fi].amount);
    assert mid[fi := r[fi].amount] == Amounts(r);
  }

  /**
   * When both ends of a pour carry the same name, both resolve to the first
   * container with that name, k. If that container is at most half full, the
   * second write empties it and its amount is lost from the total; otherwise
   * the state is unchanged.
   */
  lemma AliasedPourLosesLiquid(from: Container, to: Container, s: State)
    requires from.name == to.name && FindIndex(s, from.name).Some?
    ensures PerformPour(from, to, s).Some?
    ensures var k := FindIndex(s, from.name).value; var r := PerformPour(from, to, s).value;
      2 * s[k].amount <= s[k].capacity ==>
        r == s[k := s[k].(amount := 0)] && Sum(Amounts(r)) == Sum(Amounts(s)) - s[k].amount
    ensures var k := FindIndex(s, from.name).value;
      2 * s[k].amount > s[k].capacity ==> PerformPour(from, to, s).value == s
  {
    var k := FindIndex(s, from.name).value;
    var r := PerformPour(from, to, s).value;
    assert r == PourAt(s, k, k);
    if 2 * s[k].amount <= s[k].capacity {
      assert r == s[k := s[k].(amount := 0)];
      SumUpdate(Amounts(s), k, 0);
      assert Amounts(s)[k := 0] == Amounts(r);
    } else {
      assert r == s;
    }
  }

  /** The action holds only containers of `s`, and a pour joins two different ones. */
  ghost predicate BuiltFrom(a: Action, s: State)
  {
    match a
    case Dump(c) => c in s
    case FillUp(c) => c in s
    case Pour(from, to) => from in s && to in s && from.name != to.name
  }

  /** Emptying a container of `s` changes `s` exactly when it is non-empty. */
  lemma DumpIffEffective(c: Container, s: State)
    requires UniqueNames(s) && c in s
    ensures PerformDump(c, s).Some?
    ensures c.amount != 0 <==> PerformDump(c, s).value != s
  {
    var k :| 0 <= k < |s| && s[k] == c;
    FindIndexUnique(s, k);
    var r := PerformDump(c, s).value;
    if c.amount == 0 {
      assert r == s;
    } else {
      assert r[k] != s[k];
    }
  }

  /** Filling a container of `s` changes `s` exactly when it is not full. */
  lemma FillUpIffEffective(c: Container, s: State)
    requires UniqueNames(s) && c in s
    ensures PerformFillUp(c, s).Some?
    ensures c.amount != c.capacity <==> PerformFillUp(c, s).value != s
  {
    var k :| 0 <= k < |s| && s[k] == c;
    FindIndexUnique(s, k);
    var r := PerformFillUp(c, s).value;
    if c.amount == c.capacity {
      assert r == s;
    } else {
      assert r[k] != s[k];
    }
  }

  /** A pour between two containers of a bounded `s` changes `s` exactly when the giver is non-empty and the receiver not full. */
  lemma PourIffEffective(from: Container, to: Container, s: State)
    requires Bounded(s) && UniqueNames(s) && from in s && to in s && from.name != to.name
    ensures PerformPour(from, to, s).Some?
    ensures from.amount != 0 && to.amount != to.capacity <==> PerformPour(from, to, s).value != s
  {
    var fi :| 0 <= fi < |s| && s[fi] == from;
    var ti :| 0 <= ti < |s| && s[ti] == to;
    FindIndexUnique(s, fi);
    FindIndexUnique(s, ti);
    PourAtIffEffective(s, fi, ti);
  }

  /** The same, on resolved distinct indices. */
  lemma PourAtIffEffective(s: State, fi: nat, ti: nat)
    requires Bounded(s) && fi < |s| && ti < |s| && fi != ti
    ensures s[fi].amount != 0 && s[ti].amount != s[ti].capacity <==> PourAt(s, fi, ti) != s
  {
    var r := PourAt(s, fi, ti);
    if s[fi].amount == 0 || s[ti].amount == s[ti].capacity {
      assert forall j :: 0 <= j < |s| ==> r[j] == s[j];
    } else {
      assert r[ti] != s[ti];
    }
  }

  /**
   * On a state the action was built from (unique names, amounts within bounds),
   * the precondition holds exactly when performing the action changes the state.
   */
  lemma CanPerformIffEffective(a: Action, s: State)
    requires Bounded(s) && UniqueNames(s) && BuiltFrom(a, s)
    ensures Perform(a, s).Some?
    ensures CanPerform(a) <==> Perform(a, s).value != s
  {
    match a
    case Dump(c) => DumpIffEffective(c, s);
    case FillUp(c) => FillUpIffEffective(c, s);
    case Pour(from, to) => PourIffEffective(from, to, s);
  }
}
