# Verified models of the concurrent games, the semaphore and the core algorithms

This project models, in Dafny 4.11, the parts of the repository in which something has to be argued:
three synchronisation protocols between processes and nine sequential algorithms. Everything below is
proved for all inputs, all numbers of processes and all interleavings.

**The game of gunslingers.** Two programs play the same game. Each round every living player shoots one
other living player and the hit ones leave; the game ends with at most one survivor. `AtomicRound` is that
game with a whole round as one event. `ssooii/pist2/pist2.c` plays it with System V semaphores and no
referee (`Pist2*`), `ssooi/pistolos.c` with signals and a parent that scans shared memory (`Pistolos*`).
Both are modelled as transition systems with one program counter per process and one atomic step per
access to shared memory, semaphore, message queue or pending signal; every `status |= bit` is two steps, a
read and a write, so that it can be overtaken, while counters that only one process changes at a time go up
in one step. In both, the invariant is stated relative to the state of
the atomic game, and every run is proved to be a play of the atomic game, to be free of deadlock and to
end. `Pist2Answers` and `PistolosDraws` follow the victims that the library names and the numbers that `rand`
gives through whole runs: they, and nothing else, decide who dies.

**The home-made semaphore** (`ssooii/custom_semaphore/semaphore/`): spinlock, counter, ring buffer and
wake-up signal, as a transition system (`CustomSemaphore`, `SemaphoreInvariant`, `SemaphoreRuns`) that is
proved to refine a textbook first-in first-out semaphore (`FifoSemaphore`). The header comment of
`semaphore.h` says that it is only a mutex, since `queue_push` is not atomic; with the spinlock around it
the code is a counting semaphore for any number of permits, and that is what is proved. Pushes, pops and
counter updates are split in two steps to show it.

**The sequential algorithms** keep the form of the source: loops over arrays and fields, each method proved
against a specification on values, and the specification proved to mean what the source promises.
`Graphs` and `Dijkstra` (shortest paths), `ContiguousQueue` and `TopologicalSort`, `Reconstruct` (a tree
from two traversals), `Parser` and `ParserLanguage` (the LALR tables), `DisjointSets`, `BinaryHeap`,
`Vectors` and `RadixSort`, `BucketFile`, `Change`.

Choices a reader should know:

- `pist2.c` aliases the semaphore READY and S2, and both builds (messages, or `BYPASS_STATEMENT`) are
  modelled by the parameter `Build`. The library's choice of a victim is any living player but the shooter.
- In `pistolos.c` pending signals are one bit per signal and process. A child takes signals only in
  `sigsuspend`; when both are pending it may take either first.
- A busy wait on the spinlock is a step that is not enabled until the lock is free.
- `parser.y` and `parser.tab.c` disagree (the generated file has no ';' and a rule IDENT '=' expression);
  the tables and the generated code are modelled. The action for '*' subtracts, as in the code.
- `memcpy` in `queue_grow` can overlap; it is an in-order move here.
- Dijkstra's priority queue is taken by its documented contract: its front is an entry of least priority,
  any one of them. What is proved of `graph_shortest_path_from` therefore holds for a queue that keeps this
  contract; the repository's own `b_heap_insert` does not, because of the macro at
  `eda-2/src/c/graph/lib/binary-heap.h:19`. Distances are natural numbers or infinite.
- `b_heap_insert` and `b_heap_heapify_to` go by a macro for the parent's index that does not invert the one
  for the left child; heapify, pop and sort never use it and are the part modelled.

## Model

| member | source | states |
|---|---|---|
| AtomicRound.RoundKills | ssooi/pistolos.c:540-542 | a round of the game always kills somebody, and the dead do not come back |
| AtomicRound.DuelKillsBoth | ssooi/pistolos.c:568-572 | in a duel both are hit, so that a game of two ends with nobody alive |
| AtomicRound.PlayIsBounded | ssooii/pist2/pist2.c:501-504 | in any play the number of rounds is at most the number of deaths |
| Pist2Steps.ScanStep | ssooii/pist2/pist2.c:323-344 | the scan for the last player not DEAD ends on the coordinator of the round and never runs off the table, although words change under it |
| Pist2Steps.WriteTargetStep | ssooii/pist2/pist2.c:524-524 | the write half of the status update puts back what the read half saw; whatever other shooters did in between, exactly the players aimed at end up marked |
| Pist2Steps.AllShot | ssooii/pist2/pist2.c:540-543 | the decrement of S1 that makes it zero closes the phase of shooting: everybody alive has shot and every victim is marked |
| Pist2Steps.AllReceivedRound | ssooii/pist2/pist2.c:547-586 | when the last player has recorded its fate, the change since the round's start is one atomic round: the dead are exactly the targets |
| Pist2Steps.AllReceived | ssooii/pist2/pist2.c:580-586 | the decrement of S2 that makes it zero opens the next round in a sound state, with the dead of this round still on their way out |
| Pist2Steps.LeaveOpen | ssooii/pist2/pist2.c:586-590 | a dead player still at its last wait for S2 does no harm to a round that has begun without it |
| Pist2Steps.LeaveClosed | ssooii/pist2/pist2.c:586-590 | such a player does no harm between the two barriers of a later round either |
| Pist2Steps.BootEnd | ssooii/pist2/pist2.c:668-709 | the initial barrier lets the first round start when all are ready and counted |
| Pist2Game.StepInv | ssooii/pist2/pist2.c:472-594 | every step of every process keeps the invariant, and is invisible to the atomic game or one round of it |
| Pist2Runs.RunInv | ssooii/pist2/pist2.c:472-719 | the invariant holds in every reachable state; at the end of each round the message queue is empty |
| Pist2Runs.RunIsPlay | ssooii/pist2/pist2.c:472-719 | every interleaving is a play of the atomic game from all players alive, with some aim in each round (whose aim it is says DeadAreNamed) |
| Pist2Answers.RunIsActed | ssooii/pist2/pist2.c:472-719 | every run has actors, so that nothing is lost by naming them |
| Pist2Answers.AskedOnce | ssooii/pist2/pist2.c:518-524 | in a round every living player asks the library once, and it gets one answer |
| Pist2Answers.DeadAreNamed | ssooii/pist2/pist2.c:518-586 | at the end of every round exactly those of the living have died whom the library named to the living players in that round |
| Pist2Answers.VerdictIsNamed | ssooii/pist2/pist2.c:552-573 | whoever looks whether it was hit finds a message, or the bit, exactly if the library has named it to somebody in this round |
| Pist2Runs.BarriersHold | ssooii/pist2/pist2.c:540-586 | nobody looks whether it was hit while somebody may still shoot, nobody starts a round while a fate is unrecorded, and no assertion fails |
| Pist2Runs.VerdictsAgree | ssooii/pist2/pist2.c:552-573 | whoever examines its hit finds it complete, and messages and status bits give the same verdict: somebody aimed at it |
| Pist2Runs.OneCoordinator | ssooii/pist2/pist2.c:323-344 | all players of a round agree on one coordinator, the last that is not DEAD |
| Pist2Runs.AliveCountRight | ssooii/pist2/pist2.c:501-514 | while a round is open, `alive_count` is the number of words not DEAD, `rounds` counts the completed rounds and at most the one under way, and rounds plus living players do not exceed N |
| Pist2Runs.CanMove | ssooii/pist2/pist2.c:472-594 | until the parent has finished some process can move |
| Pist2Runs.DeadlockFree | ssooii/pist2/pist2.c:501-594 | a run that cannot go on has ended the game: all exited, at most one survivor, `alive_count` right, semaphores and queue empty |
| Pist2Termination.ChildMeasure | ssooii/pist2/pist2.c:472-594 | each step of a child uses up work; only a death gives work back |
| Pist2Termination.RunsAreBounded | ssooii/pist2/pist2.c:472-719 | every run ends, after a number of steps bounded by N alone, under any scheduling |
| Pist2Termination.GameEnds | ssooii/pist2/pist2.c:472-719 | from every reachable state, going on by any choice of moves leads to a state where nobody can move, which by DeadlockFree is a finished game |
| PistolosSteps.PickStep | ssooi/pistolos.c:419-422 | the random number drawn is below the number of living brothers |
| PistolosSteps.PickAtStep | ssooi/pistolos.c:424-433 | the walk through the players finds a living brother before it runs out, so that no null target is returned; what is left to count down and the living brothers passed always make up the number drawn |
| PistolosDraws.BrotherDrawn | ssooi/pistolos.c:420-433 | every living brother is told by just one number below the number of living brothers |
| PistolosDraws.BrotherIs | ssooi/pistolos.c:420-433 | every such number tells a living brother, the one with that many living brothers before it |
| PistolosDraws.RunIsActed | ssooi/pistolos.c:332-580 | every run has actors, so that nothing is lost by naming them |
| PistolosDraws.ShootsTheDrawn | ssooi/pistolos.c:332-342 | `child_rand_proc` returns the brother that the number drawn tells, for shots of a child's own and for faked ones |
| PistolosDraws.DrawnOnce | ssooi/pistolos.c:332-360 | a child draws once a round, and its number is what `rand` gave modulo the number of its living brothers |
| PistolosDraws.DeadAreDrawn | ssooi/pistolos.c:332-494 | at the end of every round exactly those of the living have died whom the numbers drawn in that round tell |
| PistolosSteps.ShootStep | ssooi/pistolos.c:332-349 | a SIGTERM reaches exactly the players that were aimed at, also when signals coalesce |
| PistolosSteps.WillBeWoken | ssooi/pistolos.c:480-494 | whatever makes `round_over` return 0 is a child that has still to notify the parent |
| PistolosSteps.ScanStep | ssooi/pistolos.c:480-494 | what the scan has seen of the words it has passed stays true while it goes on |
| PistolosSteps.RoundEnd | ssooi/pistolos.c:480-563 | when the scan succeeds, the round is one round of the atomic game and nobody who survived has a signal pending |
| PistolosRuns.FireMove | ssooi/pistolos.c:332-368 | every step of a living child, in either handler, keeps the invariant of the round |
| PistolosRuns.StepInv | ssooi/pistolos.c:332-580 | every step keeps the invariant, and is invisible to the atomic game or one round of it |
| PistolosRuns.RunIsPlay | ssooi/pistolos.c:332-580 | every interleaving is a play of the atomic game from all players alive, with some aim in each round (whose aim it is says DeadAreDrawn) |
| PistolosRuns.RoundOverIsRight | ssooi/pistolos.c:480-494 | when `round_over` returns 1: all alive have shot a living other, exactly the targets are dead, survivors are idle without signals, and the dead of earlier rounds pass the scan |
| PistolosRuns.NobodyCrashes | ssooi/pistolos.c:415-434 | `child_rand_proc` never divides by zero and never returns null |
| PistolosRuns.OneShotARound | ssooi/pistolos.c:332-368 | every player, dead or alive, has sent exactly one SIGTERM in each round it has played, the one it died in and shots faked in the SIGTERM handler included, and at most one in the current one |
| PistolosRuns.SleeperIsWoken | ssooi/pistolos.c:516-562 | no wake-up is lost: while the parent sleeps with nothing pending, some child has a step to take |
| PistolosRuns.DeadlockFree | ssooi/pistolos.c:522-579 | a run that cannot go on has ended the game, with at most one survivor |
| PistolosTermination.ChildMeasure | ssooi/pistolos.c:332-463 | a child's step uses up work worth more than the wake-up it may cause |
| PistolosTermination.ParentMeasure | ssooi/pistolos.c:497-580 | the parent gets on, uses up a wake-up, or ends a round that cost a player |
| PistolosTermination.RunsAreBounded | ssooi/pistolos.c:497-580 | every run ends, after a number of steps bounded by N alone |
| PistolosTermination.GameEnds | ssooi/pistolos.c:497-580 | from every reachable state, going on by any choice of moves leads to a finished game |
| PidQueue.Fifo | ssooii/custom_semaphore/semaphore/queue.h:25-40 | push appends, pop removes the front, for every position of the ring |
| PidQueue.StoreKeeps | ssooii/custom_semaphore/semaphore/queue.h:28-32 | a half-done push disturbs nothing that is queued |
| PidQueue.AdvanceDrops | ssooii/custom_semaphore/semaphore/queue.h:35-38 | a half-done pop has dropped the front and nothing else |
| PidQueue.Queue.constructor | ssooii/custom_semaphore/semaphore/queue.h:20-23 | the new queue is empty |
| PidQueue.Queue.Push | ssooii/custom_semaphore/semaphore/queue.h:28-33 | appends, unless the queue is full, which is when the assertion fails |
| PidQueue.Queue.Pop | ssooii/custom_semaphore/semaphore/queue.h:35-38 | removes the front |
| PidQueue.Queue.Front | ssooii/custom_semaphore/semaphore/queue.h:40-40 | the oldest id |
| FifoSemaphore.AtMostAll | ssooii/custom_semaphore/semaphore/semaphore.h:80-96 | holders and waiters together are no more than the processes |
| SemaphoreInvariant.DecStep | ssooii/custom_semaphore/semaphore/semaphore.h:87-95 | the decrement and its test are the atomic taking |
| SemaphoreInvariant.IncStep | ssooii/custom_semaphore/semaphore/semaphore.h:100-104 | the increment and its test are the atomic giving back |
| SemaphoreInvariant.KillStep | ssooii/custom_semaphore/semaphore/semaphore.h:101-104 | the signal goes to the process the permit was given to, which is suspended or about to be and has none pending |
| SemaphoreInvariant.StepInv | ssooii/custom_semaphore/semaphore/semaphore.h:80-106 | every step keeps the invariant and is an event of the atomic semaphore or invisible to it |
| SemaphoreRuns.RunIsHistory | ssooii/custom_semaphore/semaphore/semaphore.h:68-106 | every run is a history of the atomic first-in first-out semaphore |
| SemaphoreRuns.SemaphoreIsSafe | ssooii/custom_semaphore/semaphore/semaphore.h:68-106 | for any number of processes: at most `num` in the critical section; counter, queue length and pending signals are what they should be in every state; no assertion fails unless more processes want the semaphore than there are permits and queue places |
| SemaphoreRuns.FirstComeFirstServed | ssooii/custom_semaphore/semaphore/semaphore.h:89-103 | wake-up order is arrival order |
| SemaphoreRuns.DeadlockFree | ssooii/custom_semaphore/test.c:39-43 | with at least one permit, and no more processes that want the semaphore than permits and queue places, a run that cannot go on has let everybody through as often as it wanted |
| SemaphoreRuns.VisitsExact | ssooii/custom_semaphore/test.c:39-43 | every process has entered the critical section as often as it wanted to, less the times it has still to come |
| SemaphoreRuns.StuckIsServed | ssooii/custom_semaphore/test.c:39-43 | a run that cannot go on, under the bound of DeadlockFree, has let everybody in just as often as it wanted |
| SemaphoreRuns.RunsAreBounded | ssooii/custom_semaphore/test.c:39-43 | every run ends, each process coming a given number of times and failed attempts at the spinlock not counted; that a process gets the spinlock in the end is not promised by a test-and-set lock and not claimed |
| SemaphoreRuns.AllGetThrough | ssooii/custom_semaphore/test.c:39-43 | under the same bound, from every reachable state going on leads to a state where everybody has been through as often as it wanted |
| SemaphoreRuns.AssertionBound | ssooii/custom_semaphore/semaphore/queue.h:28-29 | the assertion of `queue_push` can fail if and only if more processes want the semaphore at the start than there are permits and queue places together |
| Dijkstra.Settle | eda-2/src/c/graph/lib/graph.c:217-229 | the first entry of an unreached vertex to come to the front carries its distance |
| Dijkstra.Shorten | eda-2/src/c/graph/lib/graph.c:232-245 | only unreached vertices are ever improved |
| Dijkstra.NoShorterWalk | eda-2/src/c/graph/lib/graph.c:217-251 | with the queue empty no walk is shorter than the distance of its end |
| Dijkstra.Finish | eda-2/src/c/graph/lib/graph.c:217-251 | with the queue empty the labels are the solution |
| Dijkstra.Graph.Recompute | eda-2/src/c/graph/lib/graph.c:100-119 | resets all labels |
| Dijkstra.Graph.Scan | eda-2/src/c/graph/lib/graph.c:231-245 | relaxes the edges of a vertex just reached |
| Dijkstra.Graph.ShortestPathFrom | eda-2/src/c/graph/lib/graph.c:189-251 | -1 exactly for a source that is no vertex; otherwise reached is reachability, distance the least weight of a walk, and the links lead back along a walk of that weight |
| ContiguousQueue.Queue.Grow | eda-2/src/c/graph/lib/queue.c:3-30 | makes room by moving to the left or by doubling, and keeps the items |
| ContiguousQueue.Queue.Push | eda-2/src/c/graph/lib/queue.c:58-68 | appends, within `first_index + size <= capacity` |
| ContiguousQueue.Queue.Pop | eda-2/src/c/graph/lib/queue.c:75-79 | removes the front |
| ContiguousQueue.Queue.Front | eda-2/src/c/graph/lib/queue.c:85-90 | the oldest item |
| TopologicalSort.Take | eda-2/src/c/graph/lib/graph.c:163-171 | the front of the queue may follow the result: all its predecessors are there |
| TopologicalSort.Drop | eda-2/src/c/graph/lib/graph.c:173-179 | counting an edge away queues its target exactly when that was its last one |
| TopologicalSort.OrderedIsAcyclic | eda-2/src/c/graph/lib/graph.c:184-186 | a graph with a topological order has no cycle |
| TopologicalSort.Leftover | eda-2/src/c/graph/lib/graph.c:184-184 | if vertices are left over there is a cycle among them |
| TopologicalSort.NoSourceCycles | eda-2/src/c/graph/lib/graph.c:149-152 | if no vertex is without incoming edges a non-empty graph has a cycle |
| TopologicalSort.Finish | eda-2/src/c/graph/lib/graph.c:161-186 | the final count is the number of vertices exactly for graphs without a cycle |
| TopologicalSort.Graph.Recompute | eda-2/src/c/graph/lib/graph.c:116-129 | counts the incoming edges, parallel ones too |
| TopologicalSort.Graph.Explore | eda-2/src/c/graph/lib/graph.c:173-179 | takes a vertex's edges away and queues the vertices that lose their last one |
| TopologicalSort.Graph.Drain | eda-2/src/c/graph/lib/graph.c:161-186 | the main loop and the assertion behind it |
| TopologicalSort.Graph.Sort | eda-2/src/c/graph/lib/graph.c:132-187 | null exactly without a source; a permutation with all edges forward exactly if the graph is not empty and has no cycle; else the assertion fails |
| Reconstruct.IndexOf | eda-2/src/c/binary-tree/reconstruct.c:27-42 | the first place of a value from an index on, or none |
| Reconstruct.Bulletproof | eda-2/src/c/binary-tree/reconstruct.c:86-145 | sound and complete with repeated values: a tree with the two traversals if there is one, null only if there is none; of several trees the one whose roots come first, from the top down; the retries end |
| Reconstruct.SearchSound | eda-2/src/c/binary-tree/reconstruct.c:162-207 | a tree that is found has the traversals asked for |
| Reconstruct.SearchFinds | eda-2/src/c/binary-tree/reconstruct.c:98-142 | if a tree exists with its root at or after the place searched from, one is found, and it comes no later |
| Reconstruct.NotAfterUnique | eda-2/src/c/binary-tree/reconstruct.c:98-142 | only one tree comes no later than all the others, so that the tree returned is determined |
| Reconstruct.SimpleExact | eda-2/src/c/binary-tree/reconstruct.c:48-82 | the easy version returns a tree if and only if it has the traversals and no value occurs again in the left subtree under it |
| Reconstruct.SameTree | eda-2/src/c/binary-tree/reconstruct.c:48-145 | where the easy version returns a tree the backtracking version returns the same one |
| Reconstruct.RoundTrip | eda-2/src/c/binary-tree/lib/binary-tree.c:39-61 | with distinct values both versions undo the pair of traversals |
| Reconstruct.UsageExample | eda-2/src/c/binary-tree/reconstruct.c:165-166 | the example of the usage message gives the tree it should |
| Reconstruct.SimpleCanMiss | eda-2/src/c/binary-tree/reconstruct.c:44-48 | an input with a repeated value on which the easy version returns null although a tree exists |
| Reconstruct.Sizes | eda-2/src/c/binary-tree/lib/binary-tree.c:39-61 | the two traversals visit the same number of nodes |
| Parser.Decisions | computer-science/session-4/parser.tab.c:414-439 | the packed tables shift, reduce and reject as the grammar wants, in every state and for every symbol |
| Parser.ReduceStacks | computer-science/session-4/parser.tab.c:1046-1137 | a reduction turns one viable prefix into the next, with the value of the rule's action |
| Parser.ShiftStacks | computer-science/session-4/parser.tab.c:1016-1032 | a shift turns one viable prefix into the next |
| Parser.Reductions | computer-science/session-4/parser.tab.c:1037-1137 | every reduction keeps the stack a viable prefix and does not change what the specification says of the input |
| Parser.Shifts | computer-science/session-4/parser.tab.c:1003-1032 | every shift keeps the stack a viable prefix and does not change what the specification says of the input |
| Parser.Extend | computer-science/session-4/parser.tab.c:906-965 | the stack grows as long as it may, and is exhausted at exactly YYMAXDEPTH states |
| Parser.PopAll | computer-science/session-4/parser.tab.c:1221-1243 | no state shifts the error token, so that error recovery pops the whole stack and gives up |
| Parser.Parse | computer-science/session-4/parser.tab.c:880-1277 | result and output are those of the table-free specification, on every token sequence; the loop ends (what the specification says is pinned down by PrintsSignedSum, AssignsSilently, OutcomeExact and ExhaustedExact) |
| ParserLanguage.SentencesParse | computer-science/session-4/parser.tab.c:1060-1105 | a sentence is accepted with the right-associated value of its expression printed, which is the sum of its literals with the sign that the '-' and '*' before each give it, or exhausts the stack |
| ParserLanguage.LanguageExact | computer-science/session-4/parser.tab.c:901-1137 | 0 is returned exactly for [IDENT '='] LIT (op LIT)* whose parse stays below the limit of the stack |
| ParserLanguage.PrintsSignedSum | computer-science/session-4/parser.tab.c:1060-1098 | in the codes of `yylex`: a sum of literals prints the literals each with the sign that the '-' and '*' before it give it, whatever follows the sum, unless the stack is exhausted |
| ParserLanguage.AssignsSilently | computer-science/session-4/parser.tab.c:1060-1098 | with IDENT '=' before it nothing is printed |
| ParserLanguage.OutcomeExact | computer-science/session-4/parser.tab.c:901-1137 | for every sequence of codes: 0 is returned exactly for the sentences below the limit of the stack, and something printed exactly if a sum below it comes first |
| ParserLanguage.ExhaustedExact | computer-science/session-4/parser.tab.c:909-965 | 2 is returned exactly for inputs that begin with 5000 literals in a row, or 4999 after IDENT '=' |
| DisjointSets.RootUnique | eda-2/src/c/disjoint-sets/lib/disjoint-sets.c:74-85 | an element has one root |
| DisjointSets.Compress | eda-2/src/c/disjoint-sets/lib/disjoint-sets.c:81-82 | path compression changes nobody's root and makes no cycle |
| DisjointSets.SameSetExact | eda-2/src/c/disjoint-sets/lib/disjoint-sets.c:87-91 | roots are equal exactly for elements that the equivalence closure of the joins relates |
| DisjointSets.AfterJoin | eda-2/src/c/disjoint-sets/lib/disjoint-sets.c:93-102 | hanging one root under the other represents the closure with the new join |
| DisjointSets.AfterAdd | eda-2/src/c/disjoint-sets/lib/disjoint-sets.c:63-72 | a new element is in a set of its own |
| DisjointSets.Sets.constructor | eda-2/src/c/disjoint-sets/lib/disjoint-sets.c:7-28 | no elements |
| DisjointSets.Sets.WithSize | eda-2/src/c/disjoint-sets/lib/disjoint-sets.c:30-43 | elements that are each their own root, and no joins |
| DisjointSets.Sets.Grow | eda-2/src/c/disjoint-sets/lib/disjoint-sets.c:45-61 | twice the room, or the initial room, and the same links |
| DisjointSets.Sets.AddSet | eda-2/src/c/disjoint-sets/lib/disjoint-sets.c:63-72 | adds an element, its own root and related to none; all others keep their roots |
| DisjointSets.Sets.RootOf | eda-2/src/c/disjoint-sets/lib/disjoint-sets.c:74-85 | the root, with all roots kept; everything on the way is linked to it at once, and nothing else is changed; the recursion ends |
| DisjointSets.Sets.Join | eda-2/src/c/disjoint-sets/lib/disjoint-sets.c:93-102 | the new state represents the joins so far and this one; what had the root of the first element has now that of the second, and all others keep theirs |
| DisjointSets.Sets.AreSameSet | eda-2/src/c/disjoint-sets/lib/disjoint-sets.c:87-91 | true exactly for elements related by the closure of all joins so far |
| BinaryHeap.SiftOrders | eda-2/src/c/binary-heap/lib/binary-heap.c:78-112 | bubbling down repairs a heap with one tuple out of place |
| BinaryHeap.SiftPermutes | eda-2/src/c/binary-heap/lib/binary-heap.c:78-112 | bubbling down keeps the tuples |
| BinaryHeap.HeapifyWorks | eda-2/src/c/binary-heap/lib/binary-heap.c:114-120 | heapify turns any array into a heap of the same tuples |
| BinaryHeap.PopWorks | eda-2/src/c/binary-heap/lib/binary-heap.c:29-43 | pop keeps the heap and removes its first tuple, which is one of least priority |
| BinaryHeap.DrainedSorts | eda-2/src/c/binary-heap/lib/binary-heap.c:146-157 | a heap is drained in ascending order |
| BinaryHeap.HeapSortSorts | eda-2/src/c/binary-heap/lib/binary-heap.c:114-157 | heapify and sort give an ascending permutation of any tuples |
| BinaryHeap.Heap.HeapifyFrom | eda-2/src/c/binary-heap/lib/binary-heap.c:80-112 | the loop bubbles down as specified |
| BinaryHeap.Heap.Heapify | eda-2/src/c/binary-heap/lib/binary-heap.c:115-120 | a heap of the same tuples |
| BinaryHeap.Heap.Pop | eda-2/src/c/binary-heap/lib/binary-heap.c:29-43 | the heap without its first tuple, as specified |
| BinaryHeap.Heap.Sort | eda-2/src/c/binary-heap/lib/binary-heap.c:146-157 | returns the values in the order of draining and leaves the heap empty |
| BinaryHeap.Heap.HasValidDescendants | eda-2/src/c/binary-heap/lib/binary-heap.c:181-199 | true exactly if the tuple is not above its children |
| BinaryHeap.Heap.IsValid | eda-2/src/c/binary-heap/lib/binary-heap.c:202-210 | true exactly for heaps |
| Vectors.Vector.Push | AlgorithmTester/tests/radix/Vector.c:83-115 | appends, growing as needed |
| Vectors.Vector.Get | AlgorithmTester/tests/radix/Vector.c:99-105 | the item, or zero beyond the end |
| Vectors.Vector.CopyFrom | AlgorithmTester/tests/radix/Vector.c:139-153 | grows by the size of the copy and overwrites a stretch with the tail of another vector, and nothing else |
| RadixSort.PassSorts | AlgorithmTester/tests/radix/radix.c:9-36 | a pass over words in order by k bits puts them in order by k+1 |
| RadixSort.PassStable | AlgorithmTester/tests/radix/radix.c:9-36 | a pass keeps words that agree in k+1 bits in their order |
| RadixSort.PassesSort | AlgorithmTester/tests/radix/radix.c:38-47 | after k passes: a permutation in order modulo 2^k, ties in original order |
| RadixSort.InvertedSorts | AlgorithmTester/tests/radix/radix.c:25-32 | swapping the halves on the sign bit gives two's-complement order |
| RadixSort.RadixSorts | AlgorithmTester/tests/radix/radix.c:38-47 | a sorted permutation for every width, signed or not |
| RadixSort.SortBit | AlgorithmTester/tests/radix/radix.c:9-36 | one pass in place, through two new vectors |
| RadixSort.Sort | AlgorithmTester/tests/radix/radix.c:38-47 | the vector ends up in ascending order with the same words |
| BucketFile.AtoiExact | eda-2/session-2.c:26-26 | the number that a numeral says, with blanks, a sign and zeros before it and anything behind it |
| BucketFile.AtoiNothing | eda-2/session-2.c:26-26 | without a numeral the number, and the home, is zero |
| BucketFile.HashExact | eda-2/session-2.c:26-26 | the home of a number is its remainder by 20; a negative number has one only if it is a multiple of 20 |
| BucketFile.FirstAtHome | eda-2/session-2.c:134-151 | the earliest record with a key is the earliest at the key's home |
| BucketFile.OverflowOfHome | eda-2/session-2.c:108-124 | of each home the overflow area holds just the records beyond the fifth |
| BucketFile.ExcessOverflows | eda-2/session-2.c:100-124 | what the home counts exceed the capacity by sums to the population of the overflow area |
| BucketFile.HomeInsert | eda-2/session-2.c:93-98 | a record put at home keeps the file in step with the list |
| BucketFile.OverflowInsert | eda-2/session-2.c:100-122 | a record put into the first overflow bucket with room does so too, and the area fills from the front |
| BucketFile.File.constructor | eda-2/session-2.c:32-54 | a truncated file holds the empty list |
| BucketFile.File.Insert | eda-2/session-2.c:81-131 | accepted exactly if home or overflow area has room; a rejected insert leaves the file unchanged; a negative hash is no bucket |
| BucketFile.File.Retrieve | eda-2/session-2.c:134-176 | the earliest accepted record with the key, or absence |
| Change.LeastBound | AlgorithmTester/tests/money/test.c:6-27 | no coins of a given worth are fewer than the least number |
| Change.LeastAdd | AlgorithmTester/tests/money/test.c:6-6 | one coin more changes the least number by at most one |
| Change.GreedyIsLeast | AlgorithmTester/tests/money/test.c:14-27 | largest coin first uses the least number and leaves no rest |
| Change.Give | AlgorithmTester/tests/money/test.c:14-27 | the coins are worth the quantity, and no others of that worth are fewer |

## Left out

- The protocols are state machines over values, not classes: their shared memory is written by several
  processes at once, which methods on an object cannot show. What a step changes in place is a field of the
  next state.
- Machine widths: `alive_count` and semaphore operands are 16-bit in `pist2.c`, sizes and distances are
  `size_t`, words on the parser's stack are `int`; the models count without bound, except that radix sort
  states the width of its words.
- The capacity of the System V message queue, the log semaphore of the debug build, printing, file output,
  option parsing, signal handlers for shutting down, failures of system calls and of memory allocation.
- `waitpid` reaping and the exit status of `pist2.c`: the program returns the process reaped last, which
  need not be the survivor. In `pistolos.c` the final SIGKILL to all children is one step.
- Negative initial values of the custom semaphore: `num` is a natural number.
- CustomSemaphore: the busy wait itself, so that the bound on steps does not count failed attempts at the
  spinlock, and nothing is said of who gets it next.
- Dijkstra.Graph: vertex fields are arrays indexed by the vertex, not records behind pointers, and edge
  lists are sequences taken as given; `vertex_adjacent_add_weighted` drops weights after the first.
- TopologicalSort.Graph.Recompute: the reached flags, which `graph_recompute` resets here as well and the sort
  never reads.
- Reconstruct.Bulletproof: the tree is a value; the child links that the retry loop frees and resets, and the
  node allocation, are not shown.
- Vectors.Vector.Extend: `realloc` there is given a number of bytes where items are meant; the model doubles
  the items. What a gap between the old end and a copy beyond it holds is left open.
- BucketFile.File.Insert: `atoi` on numbers too large for an `int`, and keys without a terminating zero.
- Parser.Parse: messages and destructors of discarded symbols; the text given to `yyerror`.
- `b_heap_insert`, `b_heap_heapify_to` and `b_heap_set_priority`: the macro for the parent's index sends
  index 1 to itself, so that the intended contract is not what the code does.
- `graph_minimum_spanning_tree*`: no spanning tree of least weight is computed, so that there is no such claim
  to prove.
- `ssooii/pist3/pist3.c`, whose second barrier hands out tokens that a survivor can take from a slow dying
  thread, and `ssooii/cruce`, which depends on a library that is not there.
- Stacks, lists, bubble sort, menus, the Java store, SQL, shell and MATLAB exercises: easy members, user
  interface or input and output.
