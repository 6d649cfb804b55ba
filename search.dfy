/**
 * The depth-bounded search: a depth-first traversal with a visited table
 * mapping each state key to the shallowest chain length it was seen at, the
 * collection of every chain that reaches the desired amount, and the choice
 * and replay of the shortest one.
 */
module Search {
  import opened Wrappers
  import opened Containers
  import opened Actions
  import opened StateKeys
  import opened Generator

  /** The depth bound the solver searches to. */
  const MaxDepth := 15

  /** The chain of actions from the initial state to the current frame, used as a stack. */
  class ActionChain {
    var items: seq<Action>

    constructor ()
      ensures items == []
    {
      items := [];
    }

    method Add(a: Action)
      modifies this
      ensures items == old(items) + [a]
    {
      items := items + [a];
    }

    /** Removes the last action; the chain must not be empty. */
    method RemoveLast()
      requires |items| > 0
      modifies this
      ensures items == old(items)[..|old(items)| - 1]
    {
      items := items[..|items| - 1];
    }

    /** A copy of the chain that later pushes and pops do not affect. */
    method Snapshot() returns (copy: seq<Action>)
      ensures copy == items
    {
      copy := items;
    }
  }

  /** Entries are never removed and their depths never grow. */
  ghost predicate Monotone(m0: map<string, int>, m1: map<string, int>)
  {
    forall key :: key in m0 ==> key in m1 && m1[key] <= m0[key]
  }

  /** Every entry that is new or changed holds a depth of at least `depth`. */
  ghost predicate ChangedOnlyFrom(m0: map<string, int>, m1: map<string, int>, depth: int)
  {
    forall key :: key in m1 ==> (key in m0 && m1[key] == m0[key]) || m1[key] >= depth
  }

  /** The state is in the visited table at depth `depth` or shallower. */
  ghost predicate Recorded(m: map<string, int>, st: State, depth: int)
  {
    GetStateKey(st) in m && m[GetStateKey(st)] <= depth
  }

  /** The state reached by the j-th action generated for the i-th container of `s`. */
  ghost function Successor(s: State, i: nat, j: nat): State
    requires i < |s| && j < |Moves(s, i)|
  {
    MovesResolve(s, i, Moves(s, i)[j]);
    Perform(Moves(s, i)[j], s).value
  }

  /**
   * A solution recorded below a frame whose chain was `chain0` and whose state
   * was `s`: it extends `chain0` by at least one action, it is no longer than
   * the depth bound (or exactly one action longer than `chain0`), and its new
   * actions are legal from `s` and reach `target`.
   */
  ghost predicate ExtendsTo(sol: seq<Action>, chain0: seq<Action>, s: State, maxDepth: int, target: int)
  {
    && |chain0| < |sol|
    && (|sol| <= maxDepth || |sol| == |chain0| + 1)
    && chain0 <= sol
    && Legal(s, sol[|chain0|..])
    && Solves(s, sol[|chain0|..], target)
  }

  ghost predicate AllExtend(sols: seq<seq<Action>>, from: nat, chain0: seq<Action>, s: State, maxDepth: int, target: int)
  {
    forall k {:trigger ExtendsTo(sols[k], chain0, s, maxDepth, target)} :: from <= k < |sols| ==> ExtendsTo(sols[k], chain0, s, maxDepth, target)
  }

  /** Recording the chain at a state that holds the target yields a solution of the frame. */
  lemma RecordStep(chain0: seq<Action>, a: Action, s: State, newState: State, maxDepth: int, target: int)
    requires Enabled(s, a) && Perform(a, s) == Some(newState)
    requires HasAmount(newState, target)
    ensures ExtendsTo(chain0 + [a], chain0, s, maxDepth, target)
  {
    var sol := chain0 + [a];
    assert sol[|chain0|..] == [a] + [];
    assert chain0 <= sol;
    LegalSolvesCons(s, a, [], newState, target);
  }

  /** A solution found one level deeper is a solution of the frame that went down. */
  lemma DeepenStep(sol: seq<Action>, chain0: seq<Action>, a: Action, s: State, newState: State, maxDepth: int, target: int)
    requires Enabled(s, a) && Perform(a, s) == Some(newState)
    requires |chain0| + 1 < maxDepth
    requires ExtendsTo(sol, chain0 + [a], newState, maxDepth, target)
    ensures ExtendsTo(sol, chain0, s, maxDepth, target)
  {
    LiftSuffix(sol, chain0, a, s, newState, target);
  }

  /**
   * A chain that starts with `chain0 + [a]` and whose remainder is legal and
   * solving from the state `a` leads to: what follows `chain0` is legal and solving.
   */
  lemma LiftSuffix(sol: seq<Action>, chain0: seq<Action>, a: Action, s: State, t: State, target: int)
    requires chain0 + [a] <= sol
    requires Enabled(s, a) && Perform(a, s) == Some(t)
    requires Legal(t, sol[|chain0 + [a]|..]) && Solves(t, sol[|chain0 + [a]|..], target)
    ensures chain0 <= sol
    ensures Legal(s, sol[|chain0|..]) && Solves(s, sol[|chain0|..], target)
  {
    SuffixAfterPrefix(sol, chain0, a);
    LegalSolvesCons(s, a, sol[|chain0 + [a]|..], t, target);
  }

  /** In a chain that starts with `chain0 + [a]`, what follows `chain0` is `a` and then the rest. */
  lemma SuffixAfterPrefix(sol: seq<Action>, chain0: seq<Action>, a: Action)
    requires chain0 + [a] <= sol
    ensures chain0 <= sol
    ensures sol[|chain0|..] == [a] + sol[|chain0 + [a]|..]
  {
    assert sol[|chain0|] == (chain0 + [a])[|chain0|];
  }

  /** What a frame keeps of the visited table: Monotone from its entry, new depths at least its own. */
  ghost predicate SeenKept(seen0: map<string, int>, seen: map<string, int>, depth: int)
  {
    Monotone(seen0, seen) && ChangedOnlyFrom(seen0, seen, depth)
  }

  /** What a frame keeps of the solutions: the old list as a prefix, every new one a solution of the frame. */
  ghost predicate SolutionsKept(sols0: seq<seq<Action>>, sols: seq<seq<Action>>, chain0: seq<Action>, s: State, maxDepth: int, target: int)
  {
    && sols0 <= sols
    && AllExtend(sols, |sols0|, chain0, s, maxDepth, target)
  }

  /** The successors of the containers before the i-th, and of the first j actions of the i-th, are recorded. */
  ghost predicate RecordedUpTo(m: map<string, int>, s: State, i: nat, j: nat, depth: int)
  {
    && (forall i', j' :: 0 <= i' < i && i' < |s| && 0 <= j' < |Moves(s, i')| ==> Recorded(m, Successor(s, i', j'), depth))
    && (i < |s| ==> forall j' :: 0 <= j' < j && j' < |Moves(s, i)| ==> Recorded(m, Successor(s, i, j'), depth))
  }

  lemma RecordedKept(m1: map<string, int>, m2: map<string, int>, s: State, i: nat, j: nat, depth: int)
    requires Monotone(m1, m2) && RecordedUpTo(m1, s, i, j, depth)
    ensures RecordedUpTo(m2, s, i, j, depth)
  {
    forall i', j' | 0 <= i' < i && i' < |s| && 0 <= j' < |Moves(s, i')|
      ensures Recorded(m2, Successor(s, i', j'), depth)
    {
      assert Recorded(m1, Successor(s, i', j'), depth);
    }
    if i < |s| {
      forall j' | 0 <= j' < j && j' < |Moves(s, i)|
        ensures Recorded(m2, Successor(s, i, j'), depth)
      {
        assert Recorded(m1, Successor(s, i, j'), depth);
      }
    }
  }

  lemma RecordedNextRow(m: map<string, int>, s: State, i: nat, depth: int)
    requires i < |s| && RecordedUpTo(m, s, i, |Moves(s, i)|, depth)
    ensures RecordedUpTo(m, s, i + 1, 0, depth)
  {
  }

  lemma RecordedNextAction(m: map<string, int>, s: State, i: nat, j: nat, depth: int)
    requires i < |s| && j < |Moves(s, i)|
    requires RecordedUpTo(m, s, i, j, depth) && Recorded(m, Successor(s, i, j), depth)
    ensures RecordedUpTo(m, s, i, j + 1, depth)
  {
  }

  /** Recording a key at the frame's depth, when it was absent or deeper, keeps the table's invariants. */
  lemma SeenUpdate(seen0: map<string, int>, seen: map<string, int>, key: string, depth: int)
    requires SeenKept(seen0, seen, depth)
    requires key !in seen || seen[key] > depth
    ensures Monotone(seen, seen[key := depth])
    ensures SeenKept(seen0, seen[key := depth], depth)
  {
  }

  /** Changes made at a depth no shallower than the frame's compose with the frame's own. */
  lemma SeenTrans(seen0: map<string, int>, seenMid: map<string, int>, seen: map<string, int>, depth: int, depth': int)
    requires depth <= depth'
    requires SeenKept(seen0, seenMid, depth) && SeenKept(seenMid, seen, depth')
    ensures SeenKept(seen0, seen, depth)
  {
  }

  /** A frame that changes nothing keeps its solutions. */
  lemma SolutionsKeptRefl(sols: seq<seq<Action>>, chain0: seq<Action>, s: State, maxDepth: int, target: int)
    ensures SolutionsKept(sols, sols, chain0, s, maxDepth, target)
  {
  }

  lemma SeenKeptRefl(seen: map<string, int>, depth: int)
    ensures SeenKept(seen, seen, depth)
  {
  }

  /** Recording the chain that reached the target adds one solution of the frame. */
  lemma RecordSolution(sols0: seq<seq<Action>>, chain0: seq<Action>, a: Action, s: State, newState: State, maxDepth: int, target: int)
    requires Enabled(s, a) && Perform(a, s) == Some(newState)
    requires HasAmount(newState, target)
    ensures SolutionsKept(sols0, sols0 + [chain0 + [a]], chain0, s, maxDepth, target)
  {
    RecordStep(chain0, a, s, newState, maxDepth, target);
    SolutionsKeptRefl(sols0, chain0, s, maxDepth, target);
    SolutionsAfterRecord(sols0, sols0, chain0 + [a], chain0, s, maxDepth, target);
  }

  lemma SolutionsAfterRecord(sols0: seq<seq<Action>>, sols: seq<seq<Action>>, sol: seq<Action>, chain0: seq<Action>, s: State, maxDepth: int, target: int)
    requires SolutionsKept(sols0, sols, chain0, s, maxDepth, target)
    requires ExtendsTo(sol, chain0, s, maxDepth, target)
    ensures SolutionsKept(sols0, sols + [sol], chain0, s, maxDepth, target)
  {
    var r := sols + [sol];
    forall k | |sols0| <= k < |r| ensures ExtendsTo(r[k], chain0, s, maxDepth, target) {
      if k < |sols| {
        assert r[k] == sols[k];
      }
    }
  }

  lemma SolutionsTrans(sols0: seq<seq<Action>>, solsMid: seq<seq<Action>>, sols: seq<seq<Action>>, chain0: seq<Action>, s: State, maxDepth: int, target: int)
    requires SolutionsKept(sols0, solsMid, chain0, s, maxDepth, target)
    requires SolutionsKept(solsMid, sols, chain0, s, maxDepth, target)
    ensures SolutionsKept(sols0, sols, chain0, s, maxDepth, target)
  {
    forall k | |sols0| <= k < |solsMid| ensures ExtendsTo(sols[k], chain0, s, maxDepth, target) {
      assert sols[k] == solsMid[k];
    }
  }

  /** The solutions a frame one level deeper adds are solutions of the frame that went down. */
  lemma SolutionsAfterDeeper(sols0: seq<seq<Action>>, sols: seq<seq<Action>>, chain0: seq<Action>, a: Action, s: State, newState: State, maxDepth: int, target: int)
    requires Enabled(s, a) && Perform(a, s) == Some(newState)
    requires |chain0| + 1 < maxDepth
    requires SolutionsKept(sols0, sols, chain0 + [a], newState, maxDepth, target)
    ensures SolutionsKept(sols0, sols, chain0, s, maxDepth, target)
  {
    forall k | |sols0| <= k < |sols| ensures ExtendsTo(sols[k], chain0, s, maxDepth, target) {
      DeepenStep(sols[k], chain0, a, s, newState, maxDepth, target);
    }
  }

  /** Some solution from index `from` on has exactly `n` actions. */
  ghost predicate SolvedAt(sols: seq<seq<Action>>, from: nat, n: int)
  {
    exists k :: from <= k < |sols| && |sols[k]| == n
  }

  /** The key is at `depth` in `seen` but was not at `depth` in `seen0`. */
  ghost predicate NewAtDepth(seen0: map<string, int>, seen: map<string, int>, key: string, depth: int)
  {
    key in seen && seen[key] == depth && !(key in seen0 && seen0[key] == depth)
  }

  /**
   * Every key a frame newly put at its own depth whose state holds the target
   * came with a solution one action longer than the frame's chain.
   */
  ghost predicate KeysSolved(seen0: map<string, int>, seen: map<string, int>, sols0: seq<seq<Action>>, sols: seq<seq<Action>>, depth: int, target: int)
  {
    forall st :: NewAtDepth(seen0, seen, GetStateKey(st), depth) && HasAmount(st, target) ==>
      SolvedAt(sols, |sols0|, depth + 1)
  }

  /**
   * Every successor handled so far that holds the target was either in the
   * frame's entry table at its depth or shallower, or came with a solution
   * one action longer than the frame's chain.
   */
  ghost predicate HitsUpTo(seen0: map<string, int>, sols0: seq<seq<Action>>, sols: seq<seq<Action>>, s: State, i: nat, j: nat, depth: int, target: int)
  {
    && (forall i', j' :: 0 <= i' < i && i' < |s| && 0 <= j' < |Moves(s, i')| && HasAmount(Successor(s, i', j'), target) ==>
          Recorded(seen0, Successor(s, i', j'), depth) || SolvedAt(sols, |sols0|, depth + 1))
    && (i < |s| ==> forall j' :: 0 <= j' < j && j' < |Moves(s, i)| && HasAmount(Successor(s, i, j'), target) ==>
          Recorded(seen0, Successor(s, i, j'), depth) || SolvedAt(sols, |sols0|, depth + 1))
  }

  lemma SolvedAtKept(solsA: seq<seq<Action>>, solsB: seq<seq<Action>>, from: nat, n: int)
    requires solsA <= solsB && SolvedAt(solsA, from, n)
    ensures SolvedAt(solsB, from, n)
  {
    var k :| from <= k < |solsA| && |solsA[k]| == n;
    assert solsB[k] == solsA[k];
  }

  lemma HitsKept(seen0: map<string, int>, sols0: seq<seq<Action>>, solsA: seq<seq<Action>>, solsB: seq<seq<Action>>, s: State, i: nat, j: nat, depth: int, target: int)
    requires solsA <= solsB && HitsUpTo(seen0, sols0, solsA, s, i, j, depth, target)
    ensures HitsUpTo(seen0, sols0, solsB, s, i, j, depth, target)
  {
    if SolvedAt(solsA, |sols0|, depth + 1) {
      SolvedAtKept(solsA, solsB, |sols0|, depth + 1);
    }
  }

  lemma HitsNextRow(seen0: map<string, int>, sols0: seq<seq<Action>>, sols: seq<seq<Action>>, s: State, i: nat, depth: int, target: int)
    requires i < |s| && HitsUpTo(seen0, sols0, sols, s, i, |Moves(s, i)|, depth, target)
    ensures HitsUpTo(seen0, sols0, sols, s, i + 1, 0, depth, target)
  {
  }

  lemma HitsNextAction(seen0: map<string, int>, sols0: seq<seq<Action>>, sols: seq<seq<Action>>, s: State, i: nat, j: nat, depth: int, target: int)
    requires i < |s| && j < |Moves(s, i)| && HitsUpTo(seen0, sols0, sols, s, i, j, depth, target)
    requires HasAmount(Successor(s, i, j), target) ==>
      Recorded(seen0, Successor(s, i, j), depth) || SolvedAt(sols, |sols0|, depth + 1)
    ensures HitsUpTo(seen0, sols0, sols, s, i, j + 1, depth, target)
  {
  }

  /** States with the same key agree on whether some container holds the target. */
  lemma SameKeySameHit(st: State, st': State, target: int)
    requires GetStateKey(st) == GetStateKey(st')
    ensures HasAmount(st, target) <==> HasAmount(st', target)
  {
    GetStateKeyInjective(st, st');
    assert forall k :: 0 <= k < |st| ==> st[k].amount == Amounts(st)[k] == Amounts(st')[k] == st'[k].amount;
  }

  /**
   * A successor skipped because the table holds it at the frame's depth or
   * shallower was either in the entry table so, or was put there by an
   * earlier action of the frame, which then recorded a solution.
   */
  lemma SkippedHit(seen0: map<string, int>, seen: map<string, int>, sols0: seq<seq<Action>>, sols: seq<seq<Action>>, st: State, depth: int, target: int)
    requires SeenKept(seen0, seen, depth) && KeysSolved(seen0, seen, sols0, sols, depth, target)
    requires Recorded(seen, st, depth) && HasAmount(st, target)
    ensures Recorded(seen0, st, depth) || SolvedAt(sols, |sols0|, depth + 1)
  {
    var key := GetStateKey(st);
    if !Recorded(seen0, st, depth) {
      assert NewAtDepth(seen0, seen, key, depth);
    }
  }

  /** New-at-depth keys of two consecutive steps of a frame compose. */
  lemma KeysSolvedTrans(seen0: map<string, int>, seenMid: map<string, int>, seen: map<string, int>,
                        sols0: seq<seq<Action>>, solsMid: seq<seq<Action>>, sols: seq<seq<Action>>, depth: int, target: int)
    requires SeenKept(seen0, seenMid, depth) && SeenKept(seenMid, seen, depth)
    requires sols0 <= solsMid <= sols
    requires KeysSolved(seen0, seenMid, sols0, solsMid, depth, target)
    requires KeysSolved(seenMid, seen, solsMid, sols, depth, target)
    ensures KeysSolved(seen0, seen, sols0, sols, depth, target)
  {
    forall st | NewAtDepth(seen0, seen, GetStateKey(st), depth) && HasAmount(st, target)
      ensures SolvedAt(sols, |sols0|, depth + 1)
    {
      var key := GetStateKey(st);
      if NewAtDepth(seenMid, seen, key, depth) {
        var k :| |solsMid| <= k < |sols| && |sols[k]| == depth + 1;
      } else {
        assert NewAtDepth(seen0, seenMid, key, depth);
        SolvedAtKept(solsMid, sols, |sols0|, depth + 1);
      }
    }
  }

  /** A frame that changes nothing puts no key at its depth. */
  lemma KeysSolvedRefl(seen: map<string, int>, sols: seq<seq<Action>>, depth: int, target: int)
    ensures KeysSolved(seen, seen, sols, sols, depth, target)
  {
  }

  /**
   * Recording one key at the frame's depth and then exploring deeper: the only
   * key new at the frame's depth is that one, and it came with a solution when
   * its state holds the target.
   */
  lemma KeysSolvedVisit(seen0: map<string, int>, seen: map<string, int>, sols0: seq<seq<Action>>, sols: seq<seq<Action>>,
                        newState: State, depth: int, target: int)
    requires SeenKept(seen0[GetStateKey(newState) := depth], seen, depth + 1)
    requires HasAmount(newState, target) ==> SolvedAt(sols, |sols0|, depth + 1)
    ensures KeysSolved(seen0, seen, sols0, sols, depth, target)
  {
    var key := GetStateKey(newState);
    forall st | NewAtDepth(seen0, seen, GetStateKey(st), depth) && HasAmount(st, target)
      ensures SolvedAt(sols, |sols0|, depth + 1)
    {
      if GetStateKey(st) == key {
        SameKeySameHit(st, newState, target);
      }
    }
  }

  /** After one action of a frame, its successor, when it holds the target, was in the entry table or came with a solution. */
  lemma HitAfterTry(seen0: map<string, int>, seenPre: map<string, int>, sols0: seq<seq<Action>>, solsPre: seq<seq<Action>>,
                    sols: seq<seq<Action>>, st: State, sol: seq<Action>, depth: int, target: int)
    requires SeenKept(seen0, seenPre, depth) && KeysSolved(seen0, seenPre, sols0, solsPre, depth, target)
    requires sols0 <= solsPre <= sols && |sol| == depth + 1
    requires (!Recorded(seenPre, st, depth) && HasAmount(st, target)) ==> sols == solsPre + [sol]
    ensures HasAmount(st, target) ==> Recorded(seen0, st, depth) || SolvedAt(sols, |sols0|, depth + 1)
  {
    if HasAmount(st, target) {
      if Recorded(seenPre, st, depth) {
        SkippedHit(seen0, seenPre, sols0, solsPre, st, depth, target);
        if SolvedAt(solsPre, |sols0|, depth + 1) {
          SolvedAtKept(solsPre, sols, |sols0|, depth + 1);
        }
      } else {
        assert sols[|solsPre|] == sol;
      }
    }
  }

  /**
   * At the top frame, whose table holds only the initial state at depth 0: a
   * successor holding the target, from an initial state that does not hold
   * it, came with a one-action solution.
   */
  lemma TopLevelHit(s: State, sols: seq<seq<Action>>, i: nat, j: nat, target: int)
    requires HitsUpTo(map[GetStateKey(s) := 0], [], sols, s, |s|, 0, 0, target)
    requires !HasAmount(s, target)
    requires i < |s| && j < |Moves(s, i)| && HasAmount(Successor(s, i, j), target)
    ensures SolvedAt(sols, 0, 1)
  {
    if Recorded(map[GetStateKey(s) := 0], Successor(s, i, j), 0) {
      SameKeySameHit(s, Successor(s, i, j), target);
    }
  }

  /** The search context: the visited table, the solutions found so far and the target. */
  class Searcher {
    var seenStates: map<string, int>
    var allSolutions: seq<seq<Action>>
    const desiredAmount: int

    constructor (desired: int)
      ensures seenStates == map[] && allSolutions == [] && desiredAmount == desired
    {
      seenStates := map[];
      allSolutions := [];
      desiredAmount := desired;
    }

    /**
     * Explores every action generated from `containers`, skipping a new state
     * already seen at a depth no greater than the current chain length, and
     * otherwise recording it at that length, then either recording the chain as
     * a solution (the new state holds the desired amount) or, below the depth
     * bound, going one level deeper. The chain is pushed before and popped after
     * each explored action.
     */
    method Traverse(chain: ActionChain, maxDepth: int, containers: State)
      modifies this, chain
      ensures chain.items == old(chain.items)
      ensures SolutionsKept(old(allSolutions), allSolutions, old(chain.items), containers, maxDepth, desiredAmount)
      ensures SeenKept(old(seenStates), seenStates, |old(chain.items)|)
      ensures RecordedUpTo(seenStates, containers, |containers|, 0, |old(chain.items)|)
      ensures HitsUpTo(old(seenStates), old(allSolutions), allSolutions, containers, |containers|, 0, |old(chain.items)|, desiredAmount)
      decreases maxDepth - |chain.items|, 3
    {
      ghost var chain0, sols0, seen0 := chain.items, allSolutions, seenStates;
      ghost var depth := |chain0|;
      var i := 0;
      while i < |containers|
        invariant 0 <= i <= |containers|
        invariant chain.items == chain0
        invariant SolutionsKept(sols0, allSolutions, chain0, containers, maxDepth, desiredAmount)
        invariant SeenKept(seen0, seenStates, depth)
        invariant RecordedUpTo(seenStates, containers, i, 0, depth)
        invariant KeysSolved(seen0, seenStates, sols0, allSolutions, depth, desiredAmount)
        invariant HitsUpTo(seen0, sols0, allSolutions, containers, i, 0, depth, desiredAmount)
      {
        var actions := MakeActions(containers[i], Others(containers, i));
        var j := 0;
        while j < |actions|
          invariant 0 <= j <= |actions|
          invariant actions == Moves(containers, i)
          invariant chain.items == chain0
          invariant SolutionsKept(sols0, allSolutions, chain0, containers, maxDepth, desiredAmount)
          invariant SeenKept(seen0, seenStates, depth)
          invariant RecordedUpTo(seenStates, containers, i, j, depth)
          invariant KeysSolved(seen0, seenStates, sols0, allSolutions, depth, desiredAmount)
          invariant HitsUpTo(seen0, sols0, allSolutions, containers, i, j, depth, desiredAmount)
        {
          ghost var solsPre, seenPre := allSolutions, seenStates;
          TryAction(chain, maxDepth, containers, i, j);
          SolutionsTrans(sols0, solsPre, allSolutions, chain0, containers, maxDepth, desiredAmount);
          SeenTrans(seen0, seenPre, seenStates, depth, depth);
          RecordedKept(seenPre, seenStates, containers, i, j, depth);
          RecordedNextAction(seenStates, containers, i, j, depth);
          KeysSolvedTrans(seen0, seenPre, seenStates, sols0, solsPre, allSolutions, depth, desiredAmount);
          HitsKept(seen0, sols0, solsPre, allSolutions, containers, i, j, depth, desiredAmount);
          HitAfterTry(seen0, seenPre, sols0, solsPre, allSolutions, Successor(containers, i, j),
            chain0 + [actions[j]], depth, desiredAmount);
          HitsNextAction(seen0, sols0, allSolutions, containers, i, j, depth, desiredAmount);
          j := j + 1;
        }
        RecordedNextRow(seenStates, containers, i, depth);
        HitsNextRow(seen0, sols0, allSolutions, containers, i, depth, desiredAmount);
        i := i + 1;
      }
    }

    /**
     * One action of the traversal: perform the j-th action generated for the
     * i-th container, skip it when the new state was already seen at a depth
     * no greater than the chain length, and otherwise record the new state at
     * that length and explore it.
     */
    method TryAction(chain: ActionChain, maxDepth: int, containers: State, i: nat, j: nat)
      requires i < |containers| && j < |Moves(containers, i)|
      modifies this, chain
      ensures chain.items == old(chain.items)
      ensures SolutionsKept(old(allSolutions), allSolutions, old(chain.items), containers, maxDepth, desiredAmount)
      ensures SeenKept(old(seenStates), seenStates, |old(chain.items)|)
      ensures Recorded(seenStates, Successor(containers, i, j), |old(chain.items)|)
      ensures old(Recorded(seenStates, Successor(containers, i, j), |chain.items|)) ==>
        seenStates == old(seenStates) && allSolutions == old(allSolutions)
      ensures !old(Recorded(seenStates, Successor(containers, i, j), |chain.items|)) ==>
        seenStates[GetStateKey(Successor(containers, i, j))] == |old(chain.items)|
      ensures (!old(Recorded(seenStates, Successor(containers, i, j), |chain.items|))
        && HasAmount(Successor(containers, i, j), desiredAmount)) ==>
        allSolutions == old(allSolutions) + [old(chain.items) + [Moves(containers, i)[j]]]
      ensures (!old(Recorded(seenStates, Successor(containers, i, j), |chain.items|))
        && !HasAmount(Successor(containers, i, j), desiredAmount) && |old(chain.items)| + 1 < maxDepth) ==>
        RecordedUpTo(seenStates, Successor(containers, i, j), |Successor(containers, i, j)|, 0, |old(chain.items)| + 1)
      ensures KeysSolved(old(seenStates), seenStates, old(allSolutions), allSolutions, |old(chain.items)|, desiredAmount)
      decreases maxDepth - |chain.items|, 2
    {
      var action := MakeActions(containers[i], Others(containers, i))[j];
      assert action == Moves(containers, i)[j];
      MovesResolve(containers, i, action);
      var newState := Perform(action, containers).value;
      assert newState == Successor(containers, i, j);
      var stateKey := GetStateKey(newState);
      if stateKey in seenStates {
        var seenDepth := seenStates[stateKey];
        if seenDepth <= |chain.items| {
          // already seen at this depth or a shallower one
          SolutionsKeptRefl(allSolutions, chain.items, containers, maxDepth, desiredAmount);
          SeenKeptRefl(seenStates, |chain.items|);
          KeysSolvedRefl(seenStates, allSolutions, |chain.items|, desiredAmount);
          return;
        }
      }
      assert Enabled(containers, action);
      Visit(chain, maxDepth, containers, action, newState, stateKey);
    }

    /**
     * A new state not yet seen at a depth no greater than the chain length:
     * record it at that length, then explore it.
     */
    method Visit(chain: ActionChain, maxDepth: int, containers: State, action: Action, newState: State, stateKey: string)
      requires Enabled(containers, action) && Perform(action, containers) == Some(newState)
      requires stateKey == GetStateKey(newState) && !Recorded(seenStates, newState, |chain.items|)
      modifies this, chain
      ensures chain.items == old(chain.items)
      ensures SolutionsKept(old(allSolutions), allSolutions, old(chain.items), containers, maxDepth, desiredAmount)
      ensures SeenKept(old(seenStates), seenStates, |old(chain.items)|)
      ensures stateKey in seenStates && seenStates[stateKey] == |old(chain.items)|
      ensures HasAmount(newState, desiredAmount) ==> allSolutions == old(allSolutions) + [old(chain.items) + [action]]
      ensures !HasAmount(newState, desiredAmount) && |old(chain.items)| + 1 < maxDepth ==>
        RecordedUpTo(seenStates, newState, |newState|, 0, |old(chain.items)| + 1)
      ensures KeysSolved(old(seenStates), seenStates, old(allSolutions), allSolutions, |old(chain.items)|, desiredAmount)
      decreases maxDepth - |chain.items|, 1
    {
      ghost var seen0, sols0 := seenStates, allSolutions;
      ghost var depth := |chain.items|;
      seenStates := seenStates[stateKey := |chain.items|];
      SeenUpdate(seen0, seen0, stateKey, depth);
      ghost var seenMid := seenStates;
      Explore(chain, maxDepth, containers, action, newState);
      SeenTrans(seen0, seenMid, seenStates, depth, depth + 1);
      if HasAmount(newState, desiredAmount) {
        assert |allSolutions[|sols0|]| == depth + 1;
      }
      KeysSolvedVisit(seen0, seenStates, sols0, allSolutions, newState, depth, desiredAmount);
    }

    /**
     * Exploring a new state reached by `action`: push the action, then record
     * the chain as a solution when the new state holds the desired amount, or
     * else go one level deeper while below the depth bound, and pop the action.
     */
    method Explore(chain: ActionChain, maxDepth: int, containers: State, action: Action, newState: State)
      requires Enabled(containers, action) && Perform(action, containers) == Some(newState)
      modifies this, chain
      ensures chain.items == old(chain.items)
      ensures SolutionsKept(old(allSolutions), allSolutions, old(chain.items), containers, maxDepth, desiredAmount)
      ensures SeenKept(old(seenStates), seenStates, |old(chain.items)| + 1)
      ensures HasAmount(newState, desiredAmount) ==>
        allSolutions == old(allSolutions) + [old(chain.items) + [action]] && seenStates == old(seenStates)
      ensures !HasAmount(newState, desiredAmount) && |old(chain.items)| + 1 >= maxDepth ==>
        allSolutions == old(allSolutions) && seenStates == old(seenStates)
      ensures !HasAmount(newState, desiredAmount) && |old(chain.items)| + 1 < maxDepth ==>
        && RecordedUpTo(seenStates, newState, |newState|, 0, |old(chain.items)| + 1)
        && HitsUpTo(old(seenStates), old(allSolutions), allSolutions, newState, |newState|, 0, |old(chain.items)| + 1, desiredAmount)
      decreases maxDepth - |chain.items|, 0
    {
      ghost var chain0, sols0, seen0 := chain.items, allSolutions, seenStates;
      chain.Add(action);
      if HasAmount(newState, desiredAmount) {
        var newRecord := chain.Snapshot();
        RecordSolution(sols0, chain0, action, containers, newState, maxDepth, desiredAmount);
        allSolutions := allSolutions + [newRecord];
        SeenKeptRefl(seen0, |chain0| + 1);
      } else if |chain.items| < maxDepth {
        Traverse(chain, maxDepth, newState);
        SolutionsAfterDeeper(sols0, allSolutions, chain0, action, containers, newState, maxDepth, desiredAmount);
      } else {
        SolutionsKeptRefl(sols0, chain0, containers, maxDepth, desiredAmount);
        SeenKeptRefl(seen0, |chain0| + 1);
      }
      chain.RemoveLast();
    }
  }

  /**
   * Replaying a chain from the initial state, one Perform after another, and
   * collecting each state passed through; None when an action names a
   * container the state does not have.
   */
  method Replay(containers: State, sol: seq<Action>) returns (trace: Option<seq<State>>)
    ensures trace == Trace(containers, sol)
  {
    var states: seq<State> := [];
    var state := containers;
    var k := 0;
    while k < |sol|
      invariant 0 <= k <= |sol|
      invariant Trace(containers, sol[..k]) == Some(states)
      invariant state == Last(containers, states)
    {
      assert sol[..k + 1][..k] == sol[..k];
      match Perform(sol[k], state) {
        case None =>
          TraceNoneExtends(containers, sol, k + 1);
          return None;
        case Some(next) =>
          state := next;
          states := states + [state];
          k := k + 1;
      }
    }
    assert sol[..|sol|] == sol;
    trace := Some(states);
  }

  /** The solutions of the top frame (empty chain) are legal, reach the target and respect the bound. */
  lemma TopLevelSolutions(sols: seq<seq<Action>>, s: State, target: int)
    requires SolutionsKept([], sols, [], s, MaxDepth, target)
    ensures forall k :: 0 <= k < |sols| ==>
      && 1 <= |sols[k]| <= MaxDepth
      && Legal(s, sols[k])
      && Solves(s, sols[k], target)
  {
    forall k | 0 <= k < |sols|
      ensures 1 <= |sols[k]| <= MaxDepth && Legal(s, sols[k]) && Solves(s, sols[k], target)
    {
      assert ExtendsTo(sols[k], [], s, MaxDepth, target);
      assert sols[k][0..] == sols[k];
    }
  }

  /**
   * The first of the shortest solutions, as ordering by length with a stable
   * sort and taking the first would give; None when there are none.
   */
  function FirstShortest(sols: seq<seq<Action>>): (r: Option<nat>)
    ensures r.None? <==> |sols| == 0
    ensures r.Some? ==> r.value < |sols|
    ensures r.Some? ==> forall j :: 0 <= j < |sols| ==> |sols[r.value]| <= |sols[j]|
    ensures r.Some? ==> forall j :: 0 <= j < r.value ==> |sols[j]| > |sols[r.value]|
  {
    if |sols| == 0 then None
    else match FirstShortest(sols[1..])
      case None => Some(0)
      case Some(k) => if |sols[0]| <= |sols[k + 1]| then Some(0) else Some(k + 1)
  }

  /**
   * Choosing the solution to show: the first shortest one, replayed from the
   * initial state with each state it passes through; nothing when there are
   * no solutions.
   */
  method PickAndReplay(containers: State, solutions: seq<seq<Action>>, desiredAmount: int)
    returns (best: Option<seq<Action>>, trace: seq<State>)
    requires forall k :: 0 <= k < |solutions| ==> 1 <= |solutions[k]| && Solves(containers, solutions[k], desiredAmount)
    ensures best.None? <==> |solutions| == 0
    ensures best.Some? ==> exists k :: 0 <= k < |solutions| && solutions[k] == best.value
    ensures best.Some? ==> forall k :: 0 <= k < |solutions| ==> |best.value| <= |solutions[k]|
    ensures best.None? ==> trace == []
    ensures best.Some? ==> Trace(containers, best.value) == Some(trace)
    ensures best.Some? ==> |trace| == |best.value| > 0 && HasAmount(trace[|trace| - 1], desiredAmount)
    ensures Bounded(containers) ==> forall m :: 0 <= m < |trace| ==> Bounded(trace[m])
  {
    trace := [];
    match FirstShortest(solutions) {
      case None =>
        best := None;
      case Some(b) =>
        best := Some(solutions[b]);
        TraceMatchesApply(containers, solutions[b]);
        var replayed := Replay(containers, solutions[b]);
        trace := replayed.value;
        if Bounded(containers) {
          TraceBounded(containers, solutions[b]);
        }
    }
  }

  /**
   * The solver: seed the visited table with the initial state at depth 0,
   * search to depth MaxDepth, pick the first shortest solution and replay it
   * from the initial state, returning each state it passes through.
   */
  method Solve(containers: State, desiredAmount: int)
    returns (solutions: seq<seq<Action>>, best: Option<seq<Action>>, trace: seq<State>)
    ensures forall k :: 0 <= k < |solutions| ==>
      && 1 <= |solutions[k]| <= MaxDepth
      && Legal(containers, solutions[k])
      && Solves(containers, solutions[k], desiredAmount)
    ensures best.None? <==> |solutions| == 0
    ensures best.Some? ==> exists k :: 0 <= k < |solutions| && solutions[k] == best.value
    ensures best.Some? ==> forall k :: 0 <= k < |solutions| ==> |best.value| <= |solutions[k]|
    ensures best.None? ==> trace == []
    ensures best.Some? ==> Trace(containers, best.value) == Some(trace)
    ensures best.Some? ==> |trace| == |best.value| > 0 && HasAmount(trace[|trace| - 1], desiredAmount)
    ensures Bounded(containers) ==> forall m :: 0 <= m < |trace| ==> Bounded(trace[m])
    ensures OneActionAway(containers, desiredAmount) ==> best.Some? && |best.value| == 1
  {
    var search := new Searcher(desiredAmount);
    search.seenStates := search.seenStates[GetStateKey(containers) := 0];
    var chain := new ActionChain();
    search.Traverse(chain, MaxDepth, containers);
    solutions := search.allSolutions;
    TopLevelSolutions(solutions, containers, desiredAmount);
    best, trace := PickAndReplay(containers, solutions, desiredAmount);
    if OneActionAway(containers, desiredAmount) {
      OneActionSolved(containers, solutions, desiredAmount);
    }
  }

  /** The initial state does not hold the target, and some generated action reaches a state that does. */
  ghost predicate OneActionAway(s: State, target: int)
  {
    && !HasAmount(s, target)
    && exists a :: Enabled(s, a) && Perform(a, s).Some? && HasAmount(Perform(a, s).value, target)
  }

  /** The top frame then records a one-action solution. */
  lemma OneActionSolved(s: State, sols: seq<seq<Action>>, target: int)
    requires OneActionAway(s, target)
    requires HitsUpTo(map[GetStateKey(s) := 0], [], sols, s, |s|, 0, 0, target)
    ensures SolvedAt(sols, 0, 1)
  {
    var a :| Enabled(s, a) && Perform(a, s).Some? && HasAmount(Perform(a, s).value, target);
    var i :| 0 <= i < |s| && a in Moves(s, i);
    var j :| 0 <= j < |Moves(s, i)| && Moves(s, i)[j] == a;
    assert Successor(s, i, j) == Perform(a, s).value;
    TopLevelHit(s, sols, i, j, target);
  }
}
