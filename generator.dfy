/**
 * Generating the legal actions of one active container, and replaying a
 * chain of actions from a state.
 */
module Generator {
  import opened Wrappers
  import opened Containers
  import opened Actions

  /** Every container of `s` except the i-th, in list order. */
  function Others(s: State, i: nat): (r: State)
    requires i < |s|
    ensures |r| == |s| - 1
    ensures forall j :: 0 <= j < |r| ==> r[j] == if j < i then s[j] else s[j + 1]
  {
    s[..i] + s[i + 1..]
  }

  /** The enabled pours from `c` into each of `others`, in list order. */
  function PoursFrom(c: Container, others: seq<Container>): (r: seq<Action>)
    ensures |r| <= |others|
    ensures forall a :: a in r ==> CanPerform(a)
  {
    if |others| == 0 then []
    else
      var pour := Pour(c, others[0]);
      (if CanPerform(pour) then [pour] else []) + PoursFrom(c, others[1..])
  }

  /** The enabled pours from each of `others` into `c`, in list order. */
  function PoursInto(c: Container, others: seq<Container>): (r: seq<Action>)
    ensures |r| <= |others|
    ensures forall a :: a in r ==> CanPerform(a)
  {
    if |others| == 0 then []
    else
      var pour := Pour(others[0], c);
      (if CanPerform(pour) then [pour] else []) + PoursInto(c, others[1..])
  }

  /**
   * The actions for one active container: empty it, fill it, pour it into
   * each other container, pour each other container into it; each one only
   * when its precondition holds.
   */
  function MakeActions(c: Container, others: seq<Container>): (r: seq<Action>)
    ensures |r| <= 2 + 2 * |others|
    ensures forall a :: a in r ==> CanPerform(a)
  {
    var dump, fill := Dump(c), FillUp(c);
    (if CanPerform(dump) then [dump] else [])
      + (if CanPerform(fill) then [fill] else [])
      + PoursFrom(c, others)
      + PoursInto(c, others)
  }

  /** Every candidate action for `c`, enabled or not, in the generator's order. */
  function Candidates(c: Container, others: seq<Container>): seq<Action>
  {
    [Dump(c), FillUp(c)]
      + seq(|others|, j requires 0 <= j < |others| => Pour(c, others[j]))
      + seq(|others|, j requires 0 <= j < |others| => Pour(others[j], c))
  }

  /** The actions of `xs` whose precondition holds, in their order. */
  function Filter(xs: seq<Action>): (r: seq<Action>)
    ensures |r| <= |xs|
  {
    if |xs| == 0 then [] else (if CanPerform(xs[0]) then [xs[0]] else []) + Filter(xs[1..])
  }

  lemma {:induction false} FilterAppend(xs: seq<Action>, ys: seq<Action>)
    ensures Filter(xs + ys) == Filter(xs) + Filter(ys)
  {
    if |xs| == 0 {
      assert xs + ys == ys;
    } else {
      var z := xs + ys;
      var head := if CanPerform(xs[0]) then [xs[0]] else [];
      assert z[0] == xs[0];
      assert z[1..] == xs[1..] + ys;
      FilterAppend(xs[1..], ys);
      calc {
        Filter(z);
        head + Filter(z[1..]);
        head + (Filter(xs[1..]) + Filter(ys));
        (head + Filter(xs[1..])) + Filter(ys);
        Filter(xs) + Filter(ys);
      }
    }
  }

  lemma {:induction false} FilterMembership(xs: seq<Action>, a: Action)
    ensures a in Filter(xs) <==> a in xs && CanPerform(a)
  {
    if |xs| > 0 {
      FilterMembership(xs[1..], a);
      assert xs == [xs[0]] + xs[1..];
    }
  }

  lemma {:induction false} PoursFromIsFiltered(c: Container, others: seq<Container>)
    ensures PoursFrom(c, others) == Filter(seq(|others|, j requires 0 <= j < |others| => Pour(c, others[j])))
  {
    var pours := seq(|others|, j requires 0 <= j < |others| => Pour(c, others[j]));
    if |others| > 0 {
      PoursFromIsFiltered(c, others[1..]);
      assert pours[1..] == seq(|others[1..]|, j requires 0 <= j < |others[1..]| => Pour(c, others[1..][j]));
    }
  }

  lemma {:induction false} PoursIntoIsFiltered(c: Container, others: seq<Container>)
    ensures PoursInto(c, others) == Filter(seq(|others|, j requires 0 <= j < |others| => Pour(others[j], c)))
  {
    var pours := seq(|others|, j requires 0 <= j < |others| => Pour(others[j], c));
    if |others| > 0 {
      PoursIntoIsFiltered(c, others[1..]);
      assert pours[1..] == seq(|others[1..]|, j requires 0 <= j < |others[1..]| => Pour(others[1..][j], c));
    }
  }

  /**
   * The generator yields exactly the enabled candidates, in candidate order:
   * Empty, Fill, the pours out in list order, then the pours in in list order.
   */
  lemma MakeActionsIsFilteredCandidates(c: Container, others: seq<Container>)
    ensures MakeActions(c, others) == Filter(Candidates(c, others))
  {
    var outs := seq(|others|, j requires 0 <= j < |others| => Pour(c, others[j]));
    var ins := seq(|others|, j requires 0 <= j < |others| => Pour(others[j], c));
    PoursFromIsFiltered(c, others);
    PoursIntoIsFiltered(c, others);
    FilterAppend([Dump(c)], [FillUp(c)]);
    FilterAppend([Dump(c), FillUp(c)], outs);
    FilterAppend([Dump(c), FillUp(c)] + outs, ins);
    assert Filter([Dump(c)]) == if CanPerform(Dump(c)) then [Dump(c)] else [];
    assert Filter([FillUp(c)]) == if CanPerform(FillUp(c)) then [FillUp(c)] else [];
    assert [Dump(c)] + [FillUp(c)] == [Dump(c), FillUp(c)];
  }

  /** An action is generated iff it is enabled and is one of the four kinds of candidate. */
  lemma MakeActionsMembership(c: Container, others: seq<Container>, a: Action)
    ensures a in MakeActions(c, others) <==>
      && CanPerform(a)
      && (|| a == Dump(c)
          || a == FillUp(c)
          || (exists j :: 0 <= j < |others| && a == Pour(c, others[j]))
          || (exists j :: 0 <= j < |others| && a == Pour(others[j], c)))
  {
    MakeActionsIsFilteredCandidates(c, others);
    FilterMembership(Candidates(c, others), a);
    var outs := seq(|others|, j requires 0 <= j < |others| => Pour(c, others[j]));
    var ins := seq(|others|, j requires 0 <= j < |others| => Pour(others[j], c));
    assert Candidates(c, others) == [Dump(c), FillUp(c)] + outs + ins;
    assert a in outs <==> exists j :: 0 <= j < |others| && a == Pour(c, others[j]) by {
      if a in outs {
        var j :| 0 <= j < |outs| && outs[j] == a;
      }
      if exists j :: 0 <= j < |others| && a == Pour(c, others[j]) {
        var j :| 0 <= j < |others| && a == Pour(c, others[j]);
        assert outs[j] == a;
      }
    }
    assert a in ins <==> exists j :: 0 <= j < |others| && a == Pour(others[j], c) by {
      if a in ins {
        var j :| 0 <= j < |ins| && ins[j] == a;
      }
      if exists j :: 0 <= j < |others| && a == Pour(others[j], c) {
        var j :| 0 <= j < |others| && a == Pour(others[j], c);
        assert ins[j] == a;
      }
    }
  }

  /** The actions generated when the i-th container of `s` is the active one. */
  function Moves(s: State, i: nat): seq<Action>
    requires i < |s|
  {
    MakeActions(s[i], Others(s, i))
  }

  /** A generated action is enabled, mentions only containers of `s`, and can be performed on `s`. */
  lemma MovesResolve(s: State, i: nat, a: Action)
    requires i < |s| && a in Moves(s, i)
    ensures CanPerform(a)
    ensures Perform(a, s).Some?
    ensures UniqueNames(s) ==> BuiltFrom(a, s)
  {
    var others := Others(s, i);
    MakeActionsMembership(s[i], others, a);
    if !a.Pour? {
      assert FindIndex(s, s[i].name).Some?;
    } else {
      var j :| 0 <= j < |others| && (a == Pour(s[i], others[j]) || a == Pour(others[j], s[i]));
      PourResolves(s, i, j, a);
    }
  }

  /** A pour between the i-th container and the j-th of the others involves two different containers of `s`. */
  lemma PourResolves(s: State, i: nat, j: nat, a: Action)
    requires i < |s| && j < |s| - 1
    requires a == Pour(s[i], Others(s, i)[j]) || a == Pour(Others(s, i)[j], s[i])
    ensures Perform(a, s).Some?
    ensures UniqueNames(s) ==> BuiltFrom(a, s)
  {
    var k := if j < i then j else j + 1;
    assert Others(s, i)[j] == s[k] && k != i;
    assert FindIndex(s, s[i].name).Some? && FindIndex(s, s[k].name).Some?;
  }

  /** In a well-formed state every generated action really changes the state. */
  lemma MovesAreEffective(s: State, i: nat, a: Action)
    requires Bounded(s) && UniqueNames(s)
    requires i < |s| && a in Moves(s, i)
    ensures Perform(a, s).Some? && Perform(a, s).value != s
  {
    MovesResolve(s, i, a);
    CanPerformIffEffective(a, s);
  }

  /** Is `a` generated for some active container of `s`? */
  ghost predicate Enabled(s: State, a: Action)
  {
    exists i :: 0 <= i < |s| && a in Moves(s, i)
  }

  /** Replaying a chain of actions from `s`, one Perform after another. */
  function Apply(s: State, actions: seq<Action>): Option<State>
    decreases |actions|
  {
    if |actions| == 0 then Some(s)
    else match Perform(actions[0], s)
      case None => None
      case Some(t) => Apply(t, actions[1..])
  }

  /** The state a trace ends in: its last state, or `s` for the empty trace. */
  function Last(s: State, states: seq<State>): State
  {
    if |states| == 0 then s else states[|states| - 1]
  }

  /**
   * The states a chain passes through when replayed from `s`, one per action,
   * each action performed on the state the previous one left; None once an
   * action names a container the state does not have.
   */
  function Trace(s: State, actions: seq<Action>): Option<seq<State>>
    decreases |actions|
  {
    if |actions| == 0 then Some([])
    else match Trace(s, actions[..|actions| - 1])
      case None => None
      case Some(states) =>
        match Perform(actions[|actions| - 1], Last(s, states))
        case None => None
        case Some(t) => Some(states + [t])
  }

  /** A trace has one state per action, and it ends where replaying the chain ends. */
  lemma {:induction false} TraceMatchesApply(s: State, actions: seq<Action>)
    ensures Trace(s, actions).Some? <==> Apply(s, actions).Some?
    ensures Trace(s, actions).Some? ==>
      |Trace(s, actions).value| == |actions| && Apply(s, actions) == Some(Last(s, Trace(s, actions).value))
    decreases |actions|
  {
    if |actions| > 0 {
      var n := |actions| - 1;
      TraceMatchesApply(s, actions[..n]);
      ApplySnoc(s, actions, n);
      assert actions[..n + 1] == actions;
    }
  }

  /** Once a chain's prefix fails to trace, the chain fails too. */
  lemma {:induction false} TraceNoneExtends(s: State, actions: seq<Action>, k: nat)
    requires k <= |actions| && Trace(s, actions[..k]).None?
    ensures Trace(s, actions).None?
    decreases |actions| - k
  {
    if k < |actions| {
      assert actions[..k + 1][..k] == actions[..k];
      TraceNoneExtends(s, actions, k + 1);
    } else {
      assert actions[..k] == actions;
    }
  }

  /** Every state of a trace from a bounded state is bounded. */
  lemma {:induction false} TraceBounded(s: State, actions: seq<Action>)
    requires Bounded(s) && Trace(s, actions).Some?
    ensures forall m :: 0 <= m < |Trace(s, actions).value| ==> Bounded(Trace(s, actions).value[m])
    decreases |actions|
  {
    if |actions| > 0 {
      var n := |actions| - 1;
      TraceBounded(s, actions[..n]);
      var states := Trace(s, actions[..n]).value;
      PerformKeepsBounds(actions[n], Last(s, states));
    }
  }

  /** Every action of the chain is generated from the state it is applied to. */
  ghost predicate Legal(s: State, actions: seq<Action>)
    decreases |actions|
  {
    |actions| == 0 ||
    (Enabled(s, actions[0]) && Perform(actions[0], s).Some? && Legal(Perform(actions[0], s).value, actions[1..]))
  }

  /** The chain replays from `s` to a state where some container holds `target`. */
  ghost predicate Solves(s: State, actions: seq<Action>, target: int)
  {
    Apply(s, actions).Some? && HasAmount(Apply(s, actions).value, target)
  }

  /** An enabled first step followed by a legal, solving chain is a legal, solving chain. */
  lemma LegalSolvesCons(s: State, a: Action, tail: seq<Action>, t: State, target: int)
    requires Enabled(s, a) && Perform(a, s) == Some(t)
    requires Legal(t, tail) && Solves(t, tail, target)
    ensures Legal(s, [a] + tail) && Solves(s, [a] + tail, target)
  {
    var r := [a] + tail;
    assert r[0] == a && r[1..] == tail;
    assert Apply(s, r) == Apply(t, tail);
  }

  /** Replaying a prefix one action longer performs that action on the prefix's result. */
  lemma {:induction false} ApplySnoc(s: State, actions: seq<Action>, k: nat)
    requires k < |actions|
    ensures Apply(s, actions[..k + 1]) ==
      match Apply(s, actions[..k])
      case None => None
      case Some(t) => Perform(actions[k], t)
    decreases k
  {
    if k > 0 {
      assert actions[..k + 1][1..] == actions[1..][..k];
      assert actions[..k][1..] == actions[1..][..k - 1];
      match Perform(actions[0], s)
      case None =>
      case Some(t) => ApplySnoc(t, actions[1..], k - 1);
    }
  }

  /** Replaying keeps names and capacities, and keeps every amount within its bounds. */
  lemma {:induction false} ApplyKeepsInvariant(s: State, actions: seq<Action>)
    requires Apply(s, actions).Some?
    ensures SameShape(s, Apply(s, actions).value)
    ensures Bounded(s) ==> Bounded(Apply(s, actions).value)
    decreases |actions|
  {
    if |actions| > 0 {
      var t := Perform(actions[0], s).value;
      if Bounded(s) {
        PerformKeepsBounds(actions[0], s);
      }
      ApplyKeepsInvariant(t, actions[1..]);
    }
  }

  /** No chain whatever reaches an amount larger than every capacity. */
  lemma TargetAboveCapacityUnreachable(s: State, actions: seq<Action>, target: int)
    requires Bounded(s)
    requires forall k :: 0 <= k < |s| ==> s[k].capacity < target
    ensures !Solves(s, actions, target)
  {
    if Apply(s, actions).Some? {
      ApplyKeepsInvariant(s, actions);
      var t := Apply(s, actions).value;
      assert forall k :: 0 <= k < |t| ==> t[k].amount <= t[k].capacity == s[k].capacity < target;
    }
  }

  /** A legal chain replays. */
  lemma {:induction false} LegalApplies(s: State, actions: seq<Action>)
    requires Legal(s, actions)
    ensures Apply(s, actions).Some?
    decreases |actions|
  {
    if |actions| > 0 {
      LegalApplies(Perform(actions[0], s).value, actions[1..]);
    }
  }
}
