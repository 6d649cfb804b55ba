# VesselB water-jug solver, modelled in Dafny

VesselB solves the generalised water-pouring puzzle. It takes a list of named
containers (jugs), each with an amount and a capacity, and a desired amount.
It searches for chains of actions that bring some container to exactly that
amount. There are three actions: empty a container (Dump), fill it to capacity
(FillUp), and pour one container into another (Pour).

The search is a depth-first traversal bounded at 15 actions. It keeps a
visited table from each state's key to the shortest chain length at which
that state was seen. A branch is skipped when it reaches a state already seen
at that length or shorter. Every chain that reaches the desired amount is
recorded. At the end the solver picks the first of the shortest recorded
chains and replays it from the initial state.

The model has these modules:

- `Wrappers` (`wrappers.dfy`): the `Option` type.
- `Containers` (`containers.dfy`):
  - A container is a value. A state is the ordered `seq` of containers.
  - Cloning, lookup of the first container with a given name, amounts and their total.
  - The invariants: `0 <= amount <= capacity`, unique names, and the same shape (names and capacities).
- `Actions` (`actions.dfy`):
  - Every action captures the container values it was built from.
  - `CanPerform` is judged on those captured values.
  - `Perform` looks the containers up by name in the state it is given and returns the new state. It returns `None` where the program's `First` would throw.
- `StateKeys` (`state_keys.dfy`):
  - The visited-table key: decimal amounts joined by commas.
  - Two states share a key exactly when their amount sequences are equal.
- `Generator` (`generator.dfy`):
  - The ordered generation of enabled actions for one active container.
  - Replaying a chain of actions (`Apply`), and the trace of states it passes through (`Trace`).
  - What makes a chain legal (every action generated from the state it is applied to) and solving (the final state holds the desired amount).
- `Search` (`search.dfy`):
  - The chain of actions is a class used as a stack.
  - The search context is a class. Its fields are the visited table, the solution list and the desired amount.
  - `Traverse` is a recursive method with nested loops. The body of its inner loop is split into three methods:
    - `TryAction` performs the action and skips a state already seen at the chain length or shorter;
    - `Visit` records an unskipped state in the visited table;
    - `Explore` pushes the action, records the chain or recurses, and pops.
  - `Solve` is the end of the main program: seed the table, search, select and replay.
- `Scenarios` (`scenarios.dfy`): concrete puzzles.
  - Most lemmas show that given chains are, or are not, legal solutions from given states. They say nothing about what the solver returns.
  - `SolveSingleJug` calls `Solve` on one empty 5-litre jug with target 5. The answer is exactly the single action that fills the jug.
  - `AliasedPourGenerated` shows a pour between two containers with the same name that the generator offers and that loses liquid.

## Model

| member | source | states |
|---|---|---|
| Containers.Clone | Program.cs:29-32 | the copy has the original's name, amount and capacity |
| Containers.CloneList | Program.cs:34-37 | the copy has the same length and, at every index, the same name, amount and capacity (so it equals the original) |
| Containers.FindIndex | Actions.cs:34 | the result is the first index whose container has the name; it is None exactly when no container has it |
| Containers.FindIndexUnique | Actions.cs:34 | with unique names, looking up a container's own name finds that container's index |
| Containers.SumUpdate | Actions.cs:98-110 | overwriting one amount changes the total by the difference |
| Actions.CanPerform | Actions.cs:25-28 | the precondition, judged on the captured containers: Dump needs a non-empty container, FillUp a container that is not full, Pour a non-empty giver and a receiver that is not full; `CanPerformIffEffective` proves it is exactly "Perform changes the state" |
| Actions.PerformDump | Actions.cs:30-37 | succeeds exactly when the name occurs; the first container with that name becomes empty; names, capacities and every other container are unchanged |
| Actions.PerformFillUp | Actions.cs:58-65 | succeeds exactly when the name occurs; the first container with that name holds its capacity; names, capacities and every other container are unchanged |
| Actions.PourAt | Actions.cs:98-110 | room = C - b is computed on the receiver: if room >= a, the giver ends at 0 and the receiver at b + a; otherwise the receiver ends at C and the giver at a - room; no other container, name or capacity changes; when both ends are the same container, the exact outcome of the two sequential writes |
| Actions.PerformPour | Actions.cs:91-113 | succeeds exactly when both names occur, and is the pour on the indices those names resolve to |
| Actions.Perform | Actions.cs:13 | succeeds exactly when every name the action needs resolves; keeps the shape; containers whose names the action does not mention are unchanged |
| Actions.PerformKeepsBounds | Actions.cs:98-110 | every action keeps 0 <= amount <= capacity for every container, including the receiver bound asserted at Actions.cs:104 |
| Actions.PourConservesTotal | Actions.cs:93-112 | a pour between two different containers leaves the total amount unchanged |
| Actions.AliasedPourLosesLiquid | Actions.cs:95-110 | when both ends of a pour share a name, both resolve to the first container with that name; if it is at most half full it is emptied and its amount is lost from the total, otherwise the state is unchanged |
| Actions.DumpIffEffective | Actions.cs:25-37 | on a state with unique names, emptying one of its containers changes the state iff the captured amount is not 0 |
| Actions.FillUpIffEffective | Actions.cs:53-65 | on a state with unique names, filling one of its containers changes the state iff the captured amount is not the capacity |
| Actions.PourIffEffective | Actions.cs:84-112 | on a bounded state with unique names, a pour between two of its containers changes the state iff the giver is not empty and the receiver is not full |
| Actions.PourAtIffEffective | Actions.cs:98-110 | on a bounded state and two distinct indices, the pour changes the state iff the giver is not empty and the receiver is not full |
| Actions.CanPerformIffEffective | Actions.cs:12-13 | for an action built from a bounded state with unique names, CanPerform holds iff Perform changes the state |
| StateKeys.DigitChar | Program.cs:80 | the character is a digit whose value is the given number |
| StateKeys.NatToString | Program.cs:80 | the decimal form is non-empty and all digits, and has one digit exactly below 10 |
| StateKeys.IntToString | Program.cs:80 | the decimal form is non-empty and has no comma; it starts with '-' exactly for negative numbers |
| StateKeys.NatToStringInjective | Program.cs:80 | different naturals have different decimal forms |
| StateKeys.IntToStringInjective | Program.cs:80 | different integers have different decimal forms |
| StateKeys.JoinAmountsInjective | Program.cs:80 | joining with a comma loses nothing: equal joins come from equal amount sequences |
| StateKeys.JoinAmounts | Program.cs:80 | the joined text is empty exactly for no amounts and contains a comma exactly for two or more |
| StateKeys.GetStateKey | Program.cs:78-81 | the key is empty exactly for a state with no containers and contains a comma exactly for two or more; `GetStateKeyInjective` proves it depends on the amounts and on nothing else |
| StateKeys.GetStateKeyInjective | Program.cs:78-81 | two states have equal keys iff their amount sequences are equal |
| Generator.Others | Program.cs:88 | every container but the active one, in list order |
| Generator.PoursFrom | Program.cs:51-55 | at most one pour per other container, each one enabled |
| Generator.PoursInto | Program.cs:57-61 | at most one pour per other container, each one enabled |
| Generator.MakeActions | Program.cs:42-62 | at most 2 + 2n actions for n other containers, every one enabled |
| Generator.FilterMembership | Program.cs:46-60 | an action survives the CanPerform filter iff it is a candidate and enabled |
| Generator.MakeActionsIsFilteredCandidates | Program.cs:42-62 | the generated list is exactly the enabled actions among Dump, FillUp, the pours out in list order and the pours in in list order, in that order |
| Generator.MakeActionsMembership | Program.cs:42-62 | an action is generated iff it is enabled and is the Dump or FillUp of the active container or a pour between it and one of the others, in either direction |
| Generator.MovesResolve | Program.cs:88-91 | a generated action is enabled and can be performed on the state it was generated from; with unique names it uses only that state's containers and pours join two different ones |
| Generator.PourResolves | Program.cs:88-91 | a pour between the active container and another one resolves both names in the state |
| Generator.MovesAreEffective | Program.cs:88-91 | in a bounded state with unique names, every generated action changes the state |
| Generator.TraceMatchesApply | Program.cs:190-195 | replaying records one state per action, and the replay ends where applying the chain ends |
| Generator.TraceNoneExtends | Program.cs:190-195 | once a prefix of the chain fails to replay, the whole chain fails |
| Generator.TraceBounded | Program.cs:190-195 | every state a replay from a bounded state passes through is bounded |
| Generator.LegalSolvesCons | Program.cs:103-122 | a generated first action followed by a legal chain that solves from its result is a legal chain that solves |
| Generator.ApplySnoc | Program.cs:190-193 | replaying one action more performs that action on the result of the shorter replay |
| Generator.ApplyKeepsInvariant | Program.cs:190-193 | replaying keeps names and capacities, and keeps every amount within its bounds |
| Generator.TargetAboveCapacityUnreachable | Program.cs:113-122 | from a bounded state, no chain at all reaches an amount larger than every capacity |
| Generator.LegalApplies | Program.cs:88-91 | a legal chain replays without a missing name |
| Search.ActionChain.constructor | Program.cs:182 | the search starts with an empty chain |
| Search.ActionChain.Add | Program.cs:103 | the action is pushed at the end of the chain |
| Search.ActionChain.RemoveLast | Program.cs:126 | the last action is popped and the rest is unchanged |
| Search.ActionChain.Snapshot | Program.cs:116-118 | the recorded copy equals the chain at the time it is taken |
| Search.RecordStep | Program.cs:113-118 | the chain recorded at a state that holds the target extends the frame's chain by one legal, solving action |
| Search.DeepenStep | Program.cs:120-123 | a solution found one level deeper is a solution of the frame that went down |
| Search.SeenUpdate | Program.cs:94-100 | overwriting an absent or deeper entry with the current length keeps every other entry and never increases a depth |
| Search.Searcher.constructor | Program.cs:74-76 | the search starts with an empty table and no solutions |
| Search.Searcher.Traverse | Program.cs:83-129 | the chain is restored on return; solutions are only appended, each extends the entry chain, is within the depth bound (or one action longer than the entry chain) and is legal and solving from the frame's state; table entries are never removed and their depths never increase; every successor of the state is in the table at the entry length or shorter; every successor that holds the target either was already in the entry table at the entry length or shorter, or a solution one action longer than the entry chain was recorded |
| Search.Searcher.TryAction | Program.cs:89-127 | the chain is restored; the successor is skipped (nothing changes) iff it was already in the table at the chain length or shorter; otherwise it ends up recorded at exactly that length; when it holds the target exactly the chain plus this action is appended to the solutions, and when it does not and the chain plus one is below the depth bound every successor of it is in the table at that length or shorter (the deeper search happened); what is added keeps the invariants of Traverse |
| Search.Searcher.Visit | Program.cs:100-126 | the new state's key is recorded at the chain length; when the state holds the target exactly the chain plus the action is appended; without the target and below the depth bound every successor of the new state is in the table at the chain length plus one or shorter; the chain is restored and the invariants of Traverse hold |
| Search.Searcher.Explore | Program.cs:102-126 | the chain is restored; when the new state holds the target, exactly the chain plus the action is appended and the table is unchanged; at the depth bound without the target nothing changes; otherwise the deeper search runs: every successor of the new state ends up in the table at the chain length plus one or shorter, and each of them holding the target was already there at entry or has a solution one action longer than the pushed chain recorded, and what it adds keeps the invariants of Traverse for the frame |
| Search.SameKeySameHit | Program.cs:78-81 | two states with the same key agree on whether some container holds the target |
| Search.HitAfterTry | Program.cs:94-118 | after one action of a frame, its successor, if it holds the target, was already in the entry table at the frame's depth or shallower, or a solution of the next length was recorded (possibly by an earlier action that reached a state with the same key) |
| Search.KeysSolvedVisit | Program.cs:100-122 | the only key a visit puts new at the frame's depth is its own, and when its state holds the target a solution of the next length was recorded |
| Search.OneActionSolved | Program.cs:181-182 | from an initial state that does not hold the target, if some generated action reaches the target, the top-level search records a one-action solution |
| Search.Replay | Program.cs:190-195 | the states passed through equal the trace of the chain from the initial state; None when a name is missing |
| Search.TopLevelSolutions | Program.cs:181-182 | every solution of the top-level search has between 1 and 15 actions, is legal from the initial state and reaches the target |
| Search.FirstShortest | Program.cs:184-188 | None iff there are no solutions; otherwise the index of a solution of minimum length, with every earlier solution strictly longer (a stable sort by length, then the first) |
| Search.PickAndReplay | Program.cs:184-199 | nothing is chosen iff there are no solutions; the chosen one is a recorded solution of minimum length; its replay has one state per action, ends holding the target and stays within bounds |
| Search.Solve | Program.cs:181-199 | every recorded solution has 1 to 15 actions, is legal and reaches the target; the best is a recorded solution of minimum length, chosen iff any exists; its replay is the trace of the chain, ends holding the target and stays within bounds; when the initial state does not hold the target but one generated action reaches it, a best solution exists and has one action |
| Scenarios.SingleJugFill | Program.cs:181-182 | one empty 5-litre jug and target 5: filling it is a legal one-action solution |
| Scenarios.FiveNineFour | Program.cs:181-182 | empty jugs of 5 and 9 litres and target 4: fill the second, pour it into the first is a legal solution |
| Scenarios.FiveNineFourNoOneStep | Program.cs:181-182 | for the same puzzle no one-action chain is a legal solution, so two actions is the shortest |
| Scenarios.SolveSingleJug | Program.cs:181-199 | the solver, on one empty 5-litre jug with target 5, answers with exactly the one action that fills the jug |
| Scenarios.AliasedPourGenerated | Program.cs:42-62 | for two containers both named "A", the first holding 2 of 5, the generator offers the pour from the first into the second; performing it empties the first and loses its 2 litres |
| Scenarios.EmptyMoves | Program.cs:42-62 | when every container is empty and none has capacity 0, the only action generated for one is filling it |

## Left out

- Console input: the prompts and parsing loops for names, capacities and the desired amount (Program.cs:143-178), and the disabled fixed setup (Program.cs:136-141). `Solve` takes the containers and the desired amount as parameters instead.
- Console output: `Visualize`, `VisualizeState`, `ToString`, the `logging` branches and the messages of `Main`. They only print.
- `Debug.Assert` at Actions.cs:104 is not a runtime check here. It is proved as `PerformKeepsBounds`.
- Lazy evaluation: `IEnumerable`, `yield return`, `Where` and `Select` become finite sequences. This changes nothing observable, because the generated actions capture container values that no later step modifies.
- Object identity: `Where(_ => _ != container)` at Program.cs:88 becomes removal by index (`Others`). The two agree because every container object of a state is distinct.
- Containers.CloneList: containers are values, so the model cannot state that the copy is a fresh list, or that `Perform` leaves its input unmodified. Both hold trivially for values.
- 32-bit `int` overflow: amounts and capacities are unbounded integers. Overflow cannot happen for bounded states whose capacities fit in `int`, so the model does not wrap.
- `First()` throwing on a missing name becomes `None`. On every state reached by the search the names resolve (`MovesResolve`), so `None` never appears there.
- Search.Searcher.Traverse: its contract does not state completeness beyond one level. It does not claim that visited-table pruning keeps the minimum solution length. It claims that every recorded chain is a legal solution within the bound, and that a successor of the frame's state holding the target yields a solution one action longer unless that state was already in the entry table.
- Actions.PourConservesTotal: requires the two ends to resolve to different containers. With duplicate names they may not. Then a first container that is at most half full is emptied and its liquid lost, and a fuller one is left unchanged (`AliasedPourLosesLiquid`). The console input loop (Program.cs:145-165) does not reject duplicate names.
- Actions.CanPerformIffEffective: requires unique names and a bounded state, the conditions under which the search builds its actions. The other effectiveness lemmas carry the same requirement.
- A target of 0 with all containers empty: the code never tests the initial state against the target (Program.cs:113 only looks at new states). The model follows the code, so every solution has at least one action (`Solve`). A zero-length answer for this case is not modelled.
