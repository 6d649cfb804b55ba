/**
 * Concrete puzzles. Most lemmas here are about given chains (which are legal
 * and reach the target); `SolveSingleJug` is about what `Solve` answers.
 */
module Scenarios {
  import opened Wrappers
  import opened Containers
  import opened Actions
  import opened Generator
  import opened Search

  /** One empty 5-litre jug, target 5: filling it is a one-action solution. */
  lemma SingleJugFill()
    ensures var s := [Container("A", 0, 5)];
      && Legal(s, [FillUp(s[0])])
      && Solves(s, [FillUp(s[0])], 5)
  {
    var s := [Container("A", 0, 5)];
    var a := FillUp(s[0]);
    assert Moves(s, 0) == [a];
    var t := [Container("A", 5, 5)];
    assert FindIndex(s, "A") == Some(0);
    var r := Perform(a, s).value;
    assert r[0].name == "A" && r[0].amount == 5 && r[0].capacity == 5;
    assert r == t && t[0].amount == 5;
    OneStepSolves(s, a, t, 5);
  }

  /** Empty jugs of 5 and 9 litres, target 4: fill B, pour B into A leaves 4 in B. */
  lemma FiveNineFour(a: string, b: string)
    requires a != b
    ensures var s := [Container(a, 0, 5), Container(b, 0, 9)];
      var chain := [FillUp(s[1]), Pour(Container(b, 9, 9), s[0])];
      Legal(s, chain) && Solves(s, chain, 4)
  {
    var s := [Container(a, 0, 5), Container(b, 0, 9)];
    var t1 := [Container(a, 0, 5), Container(b, 9, 9)];
    FillB(s, a, b);
    PourBIntoA(t1, a, b);
    TwoSteps(s, FillUp(s[1]), t1, Pour(t1[1], t1[0]), 4);
  }

  /** An enabled action followed by a one-action solution is a two-action solution. */
  lemma TwoSteps(s: State, a1: Action, t1: State, a2: Action, target: int)
    requires Enabled(s, a1) && Perform(a1, s) == Some(t1)
    requires Legal(t1, [a2]) && Solves(t1, [a2], target)
    ensures Legal(s, [a1, a2]) && Solves(s, [a1, a2], target)
  {
    assert [a1, a2][0] == a1 && [a1, a2][1..] == [a2];
  }

  /** From two empty jugs of 5 and 9 litres, filling the second is generated and fills it. */
  lemma FillB(s: State, a: string, b: string)
    requires a != b && s == [Container(a, 0, 5), Container(b, 0, 9)]
    ensures Enabled(s, FillUp(s[1]))
    ensures Perform(FillUp(s[1]), s) == Some([Container(a, 0, 5), Container(b, 9, 9)])
  {
    var a1 := FillUp(s[1]);
    assert Others(s, 1) == [s[0]];
    assert a1 in Moves(s, 1);
    assert FindIndex(s, b) == Some(1);
    var r1 := Perform(a1, s).value;
    assert r1[0] == s[0];
    assert r1[1].name == b && r1[1].amount == 9 && r1[1].capacity == 9;
    assert r1 == [Container(a, 0, 5), Container(b, 9, 9)];
  }

  /** With the 5-litre jug empty and the 9-litre full, pouring the second into the first is a one-action solution for 4. */
  lemma PourBIntoA(t1: State, a: string, b: string)
    requires a != b && t1 == [Container(a, 0, 5), Container(b, 9, 9)]
    ensures Legal(t1, [Pour(t1[1], t1[0])]) && Solves(t1, [Pour(t1[1], t1[0])], 4)
  {
    var t2 := [Container(a, 5, 5), Container(b, 4, 9)];
    PourBIntoAGenerated(t1);
    PourBIntoAEffect(t1, a, b);
    assert t2[1].amount == 4;
    OneStepSolves(t1, Pour(t1[1], t1[0]), t2, 4);
  }

  /** Pouring a full second jug into an empty first one is generated. */
  lemma PourBIntoAGenerated(t1: State)
    requires |t1| == 2 && t1[0].amount == 0 && t1[0].capacity == 5 && t1[1].amount == 9
    ensures Enabled(t1, Pour(t1[1], t1[0]))
  {
    assert Others(t1, 1) == [t1[0]];
    MakeActionsMembership(t1[1], [t1[0]], Pour(t1[1], t1[0]));
    assert Pour(t1[1], t1[0]) in Moves(t1, 1);
  }

  /** Pouring 9 litres into an empty 5-litre jug fills it and leaves 4. */
  lemma PourBIntoAEffect(t1: State, a: string, b: string)
    requires a != b && t1 == [Container(a, 0, 5), Container(b, 9, 9)]
    ensures Perform(Pour(t1[1], t1[0]), t1) == Some([Container(a, 5, 5), Container(b, 4, 9)])
  {
    assert FindIndex(t1, a) == Some(0) && FindIndex(t1, b) == Some(1);
    assert PourAt(t1, 1, 0) == [Container(a, 5, 5), Container(b, 4, 9)];
  }

  /** An enabled action whose result holds the target is a one-action solution. */
  lemma OneStepSolves(s: State, x: Action, t: State, target: int)
    requires Enabled(s, x) && Perform(x, s) == Some(t) && HasAmount(t, target)
    ensures Legal(s, [x]) && Solves(s, [x], target)
  {
    assert Legal(t, []) && Apply(t, []) == Some(t);
    LegalSolvesCons(s, x, [], t, target);
    assert [x] + [] == [x];
  }

  /** From two empty jugs of 5 and 9 litres no single action reaches 4, so two actions is the shortest. */
  lemma FiveNineFourNoOneStep(a: string, b: string, x: Action)
    requires a != b
    ensures var s := [Container(a, 0, 5), Container(b, 0, 9)];
      !(Legal(s, [x]) && Solves(s, [x], 4))
  {
    var s := [Container(a, 0, 5), Container(b, 0, 9)];
    if Legal(s, [x]) {
      EmptyPairMoves(s, a, b, x);
      OneStep(s, x);
      var i := if x == FillUp(s[0]) then 0 else 1;
      FillUpEffect(s, i);
    }
  }

  /** From two empty jugs the only generated actions fill one of them. */
  lemma EmptyPairMoves(s: State, a: string, b: string, x: Action)
    requires a != b && s == [Container(a, 0, 5), Container(b, 0, 9)]
    requires Enabled(s, x)
    ensures x == FillUp(s[0]) || x == FillUp(s[1])
  {
    EmptyMoves(s, 0);
    EmptyMoves(s, 1);
  }

  /** When every container is empty and none has capacity 0, the only action generated for one is filling it. */
  lemma EmptyMoves(s: State, i: nat)
    requires i < |s| && forall k :: 0 <= k < |s| ==> s[k].amount == 0 && s[k].capacity != 0
    ensures Moves(s, i) == [FillUp(s[i])]
  {
    var others := Others(s, i);
    assert PoursFrom(s[i], others) == [] by { NoPoursFromEmpty(s[i], others); }
    assert PoursInto(s[i], others) == [] by { NoPoursFromEmpties(s[i], others); }
  }

  lemma {:induction false} NoPoursFromEmpty(c: Container, others: seq<Container>)
    requires c.amount == 0
    ensures PoursFrom(c, others) == []
  {
    if |others| > 0 {
      NoPoursFromEmpty(c, others[1..]);
    }
  }

  lemma {:induction false} NoPoursFromEmpties(c: Container, others: seq<Container>)
    requires forall k :: 0 <= k < |others| ==> others[k].amount == 0
    ensures PoursInto(c, others) == []
  {
    if |others| > 0 {
      NoPoursFromEmpties(c, others[1..]);
    }
  }

  /** A one-action chain solves iff its action is enabled and its result holds the target. */
  lemma OneStep(s: State, x: Action)
    requires Legal(s, [x])
    ensures Enabled(s, x) && Perform(x, s).Some?
    ensures Apply(s, [x]) == Perform(x, s)
  {
    assert [x][0] == x && [x][1..] == [];
  }

  /** Filling the i-th of two empty jugs of 5 and 9 litres holds 5 or 9 and 0, never 4. */
  lemma FillUpEffect(s: State, i: nat)
    requires |s| == 2 && i < 2 && s[0].name != s[1].name
    requires s[0].amount == 0 && s[0].capacity == 5 && s[1].amount == 0 && s[1].capacity == 9
    ensures Perform(FillUp(s[i]), s).Some? && !HasAmount(Perform(FillUp(s[i]), s).value, 4)
  {
    assert FindIndex(s, s[i].name) == Some(i);
    var t := Perform(FillUp(s[i]), s).value;
    assert t[i].amount == s[i].capacity && t[1 - i].amount == 0;
  }

  /** One empty 5-litre jug, target 5: the jug does not hold 5, and filling it, a generated action, does. */
  lemma SingleJugOneActionAway()
    ensures OneActionAway([Container("A", 0, 5)], 5)
  {
    var s := [Container("A", 0, 5)];
    EmptyMoves(s, 0);
    assert Enabled(s, FillUp(s[0]));
    assert FindIndex(s, "A") == Some(0);
    assert Perform(FillUp(s[0]), s).value[0].amount == 5;
  }

  /** The solver on one empty 5-litre jug with target 5 answers with the single action that fills it. */
  method SolveSingleJug() returns (best: Option<seq<Action>>)
    ensures best == Some([FillUp(Container("A", 0, 5))])
  {
    var s := [Container("A", 0, 5)];
    SingleJugOneActionAway();
    var solutions, trace;
    solutions, best, trace := Solve(s, 5);
    var k :| 0 <= k < |solutions| && solutions[k] == best.value;
    OnlyFill(s, best.value);
  }

  /** From one empty jug, the only legal one-action chain fills it. */
  lemma OnlyFill(s: State, chain: seq<Action>)
    requires s == [Container("A", 0, 5)]
    requires |chain| == 1 && Legal(s, chain)
    ensures chain == [FillUp(Container("A", 0, 5))]
  {
    EmptyMoves(s, 0);
    assert Enabled(s, chain[0]);
    assert chain == [chain[0]];
  }

  /**
   * Two jugs both named "A", the first holding 2 of 5: the generator offers
   * the pour from the first into the second, and performing it empties the
   * first and loses its 2 litres.
   */
  lemma AliasedPourGenerated(s: State)
    requires s == [Container("A", 2, 5), Container("A", 0, 5)]
    ensures Enabled(s, Pour(s[0], s[1]))
    ensures Perform(Pour(s[0], s[1]), s) == Some([Container("A", 0, 5), Container("A", 0, 5)])
    ensures Sum(Amounts(Perform(Pour(s[0], s[1]), s).value)) == Sum(Amounts(s)) - 2
  {
    assert Others(s, 0) == [s[1]];
    MakeActionsMembership(s[0], [s[1]], Pour(s[0], s[1]));
    assert Pour(s[0], s[1]) in Moves(s, 0);
    assert FindIndex(s, "A") == Some(0);
    AliasedPourLosesLiquid(s[0], s[1], s);
    assert s[0 := s[0].(amount := 0)] == [Container("A", 0, 5), Container("A", 0, 5)];
  }
}
