/**
 * Containers (jugs) and puzzle states.
 *
 * A container is a value: a name, the amount it holds and its capacity.
 * A state is the ordered list of all containers of one puzzle.
 */
module Containers {
  import opened Wrappers

  datatype Container = Container(name: string, amount: int, capacity: int)

  type State = seq<Container>

  /** A copy of one container: same name, amount and capacity. */
  function Clone(c: Container): (r: Container)
    ensures r.name == c.name && r.amount == c.amount && r.capacity == c.capacity
  {
    Container(c.name, c.amount, c.capacity)
  }

  /**
   * A copy of a whole state, container by container, in the same order. As
   * containers are values here, the copy is equal to the original.
   */
  function CloneList(s: State): (r: State)
    ensures |r| == |s|
    ensures forall i :: 0 <= i < |s| ==>
      r[i].name == s[i].name && r[i].amount == s[i].amount && r[i].capacity == s[i].capacity
    ensures r == s
  {
    seq(|s|, i requires 0 <= i < |s| => Clone(s[i]))
  }

  /** The index of the first container called `name`, or None when there is none. */
  function FindIndex(s: State, name: string): (r: Option<nat>)
    ensures r.Some? ==> r.value < |s| && s[r.value].name == name
    ensures r.Some? ==> forall j :: 0 <= j < r.value ==> s[j].name != name
    ensures r.None? <==> forall j :: 0 <= j < |s| ==> s[j].name != name
  {
    if |s| == 0 then None
    else if s[0].name == name then Some(0)
    else match FindIndex(s[1..], name)
      case None => None
      case Some(k) => Some(k + 1)
  }

  /** Does some container of `s` hold exactly `x`? */
  predicate HasAmount(s: State, x: int)
  {
    exists k :: 0 <= k < |s| && s[k].amount == x
  }

  /** The amounts of a state, in container order. */
  function Amounts(s: State): (r: seq<int>)
    ensures |r| == |s|
    ensures forall i :: 0 <= i < |s| ==> r[i] == s[i].amount
  {
    seq(|s|, i requires 0 <= i < |s| => s[i].amount)
  }

  /** The total amount of liquid held by a list of amounts. */
  function Sum(xs: seq<int>): int
  {
    if |xs| == 0 then 0 else xs[0] + Sum(xs[1..])
  }

  /** The data model's invariant: every container holds between 0 and its capacity. */
  ghost predicate Bounded(s: State)
  {
    forall i :: 0 <= i < |s| ==> 0 <= s[i].amount <= s[i].capacity
  }

  /** No two containers share a name. */
  ghost predicate UniqueNames(s: State)
  {
    forall i, j :: 0 <= i < j < |s| ==> s[i].name != s[j].name
  }

  /** `t` has the containers of `s`, same names and capacities, in the same order. */
  ghost predicate SameShape(s: State, t: State)
  {
    && |s| == |t|
    && forall i :: 0 <= i < |s| ==> t[i].name == s[i].name && t[i].capacity == s[i].capacity
  }

  /** Overwriting one amount changes the total by the difference. */
  lemma {:induction false} SumUpdate(xs: seq<int>, k: nat, v: int)
    requires k < |xs|
    ensures Sum(xs[k := v]) == Sum(xs) - xs[k] + v
  {
    if k == 0 {
      assert xs[k := v][1..] == xs[1..];
    } else {
      assert xs[k := v][1..] == xs[1..][k - 1 := v];
      SumUpdate(xs[1..], k - 1, v);
    }
  }

  /** With unique names, the lookup by name finds exactly the container carrying that name. */
  lemma FindIndexUnique(s: State, k: nat)
    requires UniqueNames(s) && k < |s|
    ensures FindIndex(s, s[k].name) == Some(k)
  {
    var r := FindIndex(s, s[k].name);
    assert s[r.value].name == s[k].name;
  }
}
