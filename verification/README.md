# The SSA pipeline of the Cminus compiler, verified

A model of the middle of the compiler, from the syntax tree to promoted SSA code, and of the
loop search, with proofs that each part does what the next one relies on.

* **The IR builder** (`Ast`, `Lowering`, `Builder`, `BuilderShape`): the visitor that turns
  syntax trees into basic blocks. `Lowering` says what every visit does to the builder's state;
  the class in `Builder` works in place, as the visitor does, and is proved to do exactly that.
  For every syntax tree the control-flow graph is well formed: edge lists mirror each other,
  every block is reached from the entry, nothing leads back to the entry.
* **Typing** (`Typing`): a judgement on the syntax tree, in the types of the source, and the proof
  that the builder gets through without a failed assertion exactly for the functions it accepts.
* **Meaning** (`Int32`, `Ir`, `Runs`, `Cminus`, `Cells`, `BuilderMeaning`, `StatementMeaning`,
  `FunctionMeaning`, `GlobalVariable`): big-step semantics of the language, with ints of 32 bits,
  floats, conversions, arrays and array parameters with checked indices, local and global variables,
  shadowing, early returns and calls, and the proof that the blocks of a function compute it: if the
  source never goes wrong, they return exactly if the source does, and the same, after the same calls
  and the same stores to global variables and elements of arrays. What the pure instructions of the
  IR do is said in `Ir`, without the source (`Ir.PureResult`); what floats are is a parameter of the
  world. `Runs` is about running a finished function from one point to another, `Cells` about how
  names and cells of the builder stand for those of the source. `GlobalVariable` is one such function,
  in worlds that are shown to exist.
* **Dominators** (`Cfg`, `DomTree`, `Sweep`, `Frontier`, `Dominators`): dominance is defined by
  paths. The iteration over reverse post-order is proved to end and to leave exactly the
  immediate dominators; the frontier and the tree children are exact.
* **Mem2Reg** (`FunctionIr`, `PhiPlacement`, `Ssa`, `Simulation`, `TreeWalk`, `Renaming`,
  `Mem2Reg`, `Askers`, `PassOutcome`, `Promotion`): phi placement by work list,
  renaming with one stack per variable along the dominator tree, and the removal of loads, stores
  and allocas, all in place on instruction lists and use lists. The promoted function is proved to
  refine the original one in every run. `TreeWalk` says what the depth-first walks of the tree are,
  and `Askers` says about the function before the pass which block will ask for a variable that has
  no value there.
* **From the builder to the pass** (`BuilderStrict`, `StatementStrict`, `FunctionStrict`,
  `BrokenLoops`, `EntryCells`, `EntryLoads`, `Pipeline`, `Choice`, `BothBranches`, `OneBranch`,
  `SetOnce`): what the builder makes of a function meets every precondition of the dominator
  analysis and of `Mem2Reg` exactly if no loop condition indexes an array, and the promoted function
  then still computes what the source means. `EntryCells` has a condition on the source under which
  promotion always gets through, and `EntryLoads` says what is left behind then. The last three are
  source functions on which it fails, fails or not by the order of the walk, and gets through
  without a strict result; `Choice` is what the first two have in common.
* **Loop search** (`Components`, `LoopNest`, `LoopSearch`): Tarjan's algorithm finds exactly the
  strongly connected components with two blocks or more, and the rounds that take out loop
  bases find a nested-or-disjoint family of loops that covers every cycle.

Sets that the program keeps in the order of addresses are walked in an arbitrary order here, so
every statement holds for every order.

## What the proofs found

* The walk of `re_name` can fail. A variable that has no value on the way to a block has an
  empty stack there, and the tests at `Mem2Reg.cpp:100` and `:128` ask only whether the map has
  an entry for it. If a block visited earlier defines it, `back()` is taken of an empty vector
  or the assertion at line 130 fails. `PassOutcome.OrderlyExactly` says when that cannot happen:
  the pass gets through in every order of the children exactly if every block that asks for a
  variable without a value stands above all other blocks that set it, where asking and setting are
  read off the function before the pass (`Askers.Orderly`). A function in which every variable that
  is stored to at all is stored to in the entry block is of that kind.
* It does fail on what the builder makes of ordinary functions. A variable that nothing sets before
  an `if` and both branches set is loaded first in both branches, because an assignment loads what
  it is about to set; whichever branch comes second finds the empty stack.
  `BothBranches.PromotePick` shows it for one such function, in every order. If only one branch sets
  the variable, it depends on the order: the function of `OneBranch.PromoteHalf` gets through exactly
  if the walk enters the branch before the block behind the conditional. The model stops where the
  empty vector is read.
* A phi can be left without a pair for a predecessor. `PassOutcome.PairedExactly` says when: every
  phi of the result has a pair for every predecessor exactly if no block of the function before the
  pass leaves a variable without a value that a phi behind it asks for (`Askers.LeavesUnset`). In
  `OneBranch` the entry does, and the phi behind the conditional has a pair for the branch only.
* A load that finds no entry for its variable stays, while the alloca it reads from is removed.
  `PassOutcome.StrictExactly` says that the result is in strict form exactly if a value comes to
  every load of an int or float variable. By the same redundant load that is not so for any
  function that declares such a variable and sets all its variables at the start
  (`EntryLoads.InitialisedUnset`), and it is so for functions of that kind whose only variables are
  parameters (`EntryLoads.ParamsOnlySet`). That the walk gets through does not mean that the
  result is in strict form.
* A loop condition that indexes an array is translated wrongly. The index check splits the
  condition over several blocks, but the branch that ends the loop is put into the first of
  them, behind the branch of the check, where it is never reached; the block in which the
  condition ends has no terminator. `BrokenLoops.InputExactly` shows that this is the only
  thing that keeps the builder's output from being an input for promotion, and
  `BrokenLoops.SpinBroken` has a function the builder accepts and breaks.
* What the builder accepts is wider than the language. `Typing.Accepted` is exact: a `return;` gets
  through in a function that returns a value, a condition may be of any type, and a `void` parameter
  is a float for the callers of the function.
* A name declared twice in one scope keeps its first cell; a second parameter of the same name
  stores its argument into a cell nobody reads. The source semantics here says the same.

## Model

| member | source | states |
|---|---|---|
| Builder.Scope.Push | include/cminusf_builder.hpp:30-36 | a new name is bound in the innermost scope and then found; a name already there keeps its binding, and the result says which |
| Builder.Scope.Find | include/cminusf_builder.hpp:38-47 | the backward loop returns the binding of the innermost scope that has the name, and nothing exactly if no scope has it |
| Builder.CminusfBuilder.VisitFunDeclaration | src/cminusfc/cminusf_builder.cpp:99-141 | the visitor leaves exactly the state the specification function gives, the graph it has built is well formed, and an assertion has failed exactly if the declaration is not well typed |
| Builder.CminusfBuilder.Visit | src/cminusfc/cminusf_builder.cpp:158-217 | every statement visit, in place, is the specification function on the old state |
| Builder.CminusfBuilder.VisitExpr | src/cminusfc/cminusf_builder.cpp:78-83 | every expression visit, in place, is the specification function on the old state |
| Builder.CminusfBuilder.CreateCondBr | src/lightir/Instruction.cpp:273-282 | both targets learn of their predecessor, the block gets the false target and then the true one, and the branch is appended |
| BuilderShape.FunctionShape | src/cminusfc/cminusf_builder.cpp:99-248 | for every function declaration: mirrored edge lists without duplicates, all blocks reached from the entry, no predecessor of the entry |
| BuilderShape.StmtGrown | src/cminusfc/cminusf_builder.cpp:158-217 | every statement grows a region out of the current block: blocks that were there keep instructions, successors and predecessors, and every new block is reached from it |
| BuilderShape.ExprGrown | src/cminusfc/cminusf_builder.cpp:219-417 | the same for expressions, including the two blocks of an index check |
| Typing.Accepted | src/cminusfc/cminusf_builder.cpp:55-417 | every assertion of the builder holds, and no null value is used, exactly for the functions that are well typed: names are bound, calls have the right number of convertible arguments, only arrays and array parameters are indexed, by what converts to int and with the handler in scope, and arrays are not assigned |
| Typing.ExprAccepted | src/cminusfc/cminusf_builder.cpp:219-417 | the visit of an expression meets no failed assertion exactly if the expression has a type, and the value it leaves is of that type |
| Typing.StmtAccepted | src/cminusfc/cminusf_builder.cpp:158-265 | the visit of a statement meets no failed assertion exactly if it is well typed where it stands |
| Int32.Quotient | src/cminusfc/cminusf_builder.cpp:388-389 | the quotient an integer division gives: what remains is smaller than the divisor and has the sign of the dividend |
| Ir.WithArithmetic | src/lightir/Instruction.cpp:51-89 | for every world there is one with the same floats in which every integer, floating, comparing and converting instruction computes what it is there for |
| BuilderMeaning.ExprMeans | src/cminusfc/cminusf_builder.cpp:267-417 | for every expression, with floats, arrays, comparisons as operands and calls: whenever it has a value, the run gets from the point before the visit to the point after it, the operand left behind has that value and the type of it, the variables are as the evaluation leaves them, and the same calls and stores have been made |
| BuilderMeaning.ConvertMeans | src/cminusfc/cminusf_builder.cpp:55-71 | a conversion emitted for a value gives the converted value, of the type asked for |
| BuilderMeaning.CalculateIs | src/cminusfc/cminusf_builder.cpp:343-403 | the opcode chosen for an arithmetic operator, on ints or on floats, gives what the operator means on the left and the right value |
| BuilderMeaning.RelateIs | src/cminusfc/cminusf_builder.cpp:281-341 | the same for comparisons |
| BuilderMeaning.BinaryMeans | src/cminusfc/cminusf_builder.cpp:281-403 | the code of an operation computes it on both values in their order, after converting both to float unless both are ints |
| BuilderMeaning.VarIndexMeans | src/cminusfc/cminusf_builder.cpp:222-255 | an indexed variable: the run gets to the block behind the check with what the check reports, and the address and the value left behind are those of the element the source means |
| BuilderMeaning.IndexRuns | src/cminusfc/cminusf_builder.cpp:222-248 | and for an int index n: no event if n is not negative, exactly one call of neg_idx_except if it is, and the address is the n-th of the array, or behind the pointer an array parameter holds |
| StatementMeaning.StmtMeans | src/cminusfc/cminusf_builder.cpp:158-279 | for any nesting of statements and any fuel: if the source goes on, the run gets from the start to the end of the statement with the values the source computes; if it returns, so does the run |
| StatementMeaning.CompareMeans | src/cminusfc/cminusf_builder.cpp:43-53 | the comparison emitted for a condition is not 0 exactly if the int, the float or the outcome of a comparison differs from zero |
| StatementMeaning.SelectionMeans | src/cminusfc/cminusf_builder.cpp:172-197 | the run takes the true block exactly if the condition decides so, whatever its type, and then the arm the source takes |
| StatementMeaning.DeclMeans | src/cminusfc/cminusf_builder.cpp:84-97 | a declaration makes a new cell without a value, or an array at a place that is observed, under its name |
| StatementMeaning.LoopRounds | src/cminusfc/cminusf_builder.cpp:199-217 | the rounds of a loop from its head block, by induction on the rounds of the source, whether its condition is an int, a float or a comparison |
| FunctionMeaning.FunctionMeans | src/cminusfc/cminusf_builder.cpp:99-141 | a source function that returns has a run of its blocks that makes the same calls and stores to global variables with the same values in the same order and returns the same |
| FunctionMeaning.FunctionLasts | src/cminusfc/cminusf_builder.cpp:199-217 | while the source is still in its loops, the run of the blocks has not ended either |
| FunctionMeaning.FunctionMeansExactly | src/cminusfc/cminusf_builder.cpp:99-217 | if the source never goes wrong, the blocks never get stuck, and they return exactly if the source does, with the same value after the same calls and stores |
| BuilderMeaning.VarMeans | src/cminusfc/cminusf_builder.cpp:219-255 | a plain variable is a load that gives what the source reads, from the cell of a local variable or from a global one; an array is the address of its first element |
| BuilderMeaning.StoreMeans | src/cminusfc/cminusf_builder.cpp:267-279 | the store of an assignment to a name changes the innermost variable of the name, or is observed with its value if that is global |
| GlobalVariable.ShowAnswers | tests/3-ir-gen/testcases/lv1/assign_int_var_global.cminus:1-6 | the built function stores 1234 to the global variable, calls output with 1234 and returns, in every world where a variable holds what was stored to it last |
| GlobalVariable.Remembering | tests/3-ir-gen/testcases/lv1/assign_int_var_global.cminus:1-6 | there are such worlds, with arithmetic as it is meant, for every choice of floats and of the places of globals |
| GlobalVariable.ShowTyped | tests/3-ir-gen/testcases/lv1/assign_int_var_global.cminus:1-6 | and the function is well typed, so that the builder accepts it |
| BuilderStrict.ExprStrict | src/cminusfc/cminusf_builder.cpp:219-417 | every instruction of an expression, with arrays, floats and calls, uses operands defined at points that dominate it, loads and stores go to addresses, and branches end their blocks |
| StatementStrict.StmtStrict | src/cminusfc/cminusf_builder.cpp:158-279 | the same for every statement whose loop conditions index no array |
| FunctionStrict.FunctionInput | src/cminusfc/cminusf_builder.cpp:99-141 | a function without such loops that the builder accepts meets every precondition of the dominator analysis and of the promotion |
| BrokenLoops.InputExactly | src/cminusfc/cminusf_builder.cpp:199-217 | and it does so only if no loop condition indexes an array |
| BrokenLoops.ExprCloses | src/cminusfc/cminusf_builder.cpp:219-236 | an expression that indexes an array leaves its block with the branch of the check as the last instruction |
| BrokenLoops.SpinBroken | src/cminusfc/cminusf_builder.cpp:199-236 | a function with an index in a loop condition that the builder accepts is no input for promotion |
| EntryCells.InitialisedEntrySet | src/cminusfc/cminusf_builder.cpp:99-279 | what the builder makes of a function whose variables are all set at its start stores to every variable in the entry block |
| EntryLoads.InitialisedUnset | src/cminusfc/cminusf_builder.cpp:219-279 | such a function, if it has an int or float variable of its own, has a load of that variable to which no value comes |
| EntryLoads.ParamsOnlySet | src/cminusfc/cminusf_builder.cpp:99-141 | if its only variables are parameters, a value comes to every load |
| SetOnce.OnceUnset | src/cminusfc/cminusf_builder.cpp:267-279 | the function that sets its one variable to 1 and returns it has a load without a value |
| SetOnce.PromoteOnce | src/optimization/Mem2Reg.cpp:98-106 | the builder accepts it, its promotion gets through, and the result is not in strict form |
| BothBranches.PickIsInput | src/cminusfc/cminusf_builder.cpp:172-197 | what the builder makes of a function with a variable set in both branches only meets the preconditions of the pass |
| BothBranches.PickClashes | src/optimization/Mem2Reg.cpp:98-136 | every order of the walk through it takes the back of an empty stack |
| BothBranches.PromotePick | src/optimization/Mem2Reg.cpp:9-24 | so its promotion does not get through |
| OneBranch.HalfPasses | src/optimization/Mem2Reg.cpp:98-142 | the walk over a function with a variable set in one branch only meets no clash when it enters that branch first |
| OneBranch.HalfClashes | src/optimization/Mem2Reg.cpp:98-136 | it takes the back of an empty stack when it enters the block behind the conditional first |
| OneBranch.HalfUnset | src/optimization/Mem2Reg.cpp:121-137 | its entry leaves the variable without a value for the phi behind the conditional, and the branch loads it without one |
| OneBranch.PromoteHalf | src/optimization/Mem2Reg.cpp:9-24 | so its promotion gets through exactly in the first of the two orders, and then leaves a phi without a pair for a predecessor and a result that is not in strict form |
| Pipeline.PromoteBuilt | src/optimization/Mem2Reg.cpp:9-24 | building a function and promoting what has been built, whatever is global: it gets through exactly if the walk meets no clash, and always if all variables are set at the start; then the result makes the calls and stores of the source and returns what it returns, and if the source never goes wrong, only that; the result is in strict form exactly if a value comes to every load, and its phis are whole exactly if no end leaves a variable unset |
| Dominators.Analysis.PostOrderVisit | src/optimization/Dominators.cpp:74-83 | appends what is reached from the block, each after what it reaches first: an edge to a block with a number at least as large closes a cycle |
| Dominators.Analysis.CreateReversePostOrder | src/optimization/Dominators.cpp:65-72 | all blocks are numbered, one number each, 0 to n-1, the entry highest; every other block has a predecessor with a larger number, and every edge that does not go to a smaller number leads to a block from which it comes back |
| Dominators.PredecessorsFirst | src/optimization/Dominators.cpp:65-83 | in a graph without cycles, every block comes after all its predecessors |
| Dominators.Analysis.Intersect | src/optimization/Dominators.cpp:129-143 | the double climb ends at a common ancestor that every common ancestor is above |
| Dominators.Analysis.NewIdom | src/optimization/Dominators.cpp:102-119 | some predecessor has a link, and the fold over the predecessors gives the meet of those that do |
| Dominators.Analysis.CreateIdom | src/optimization/Dominators.cpp:85-127 | the sweeps end, and the tree they leave has as ancestors of a block exactly its dominators |
| DomTree.FixpointIsDomTree | src/optimization/Dominators.cpp:93-125 | links that no visit changes give the dominance relation, in both directions |
| DomTree.VisitCompleteAt | src/optimization/Dominators.cpp:112-123 | one update keeps every dominator among the ancestors |
| DomTree.LinkIsImmediateDominator | src/optimization/Dominators.cpp:85-127 | d is the link of a block exactly if it is the block's immediate dominator in the sense of paths |
| Sweep.MixShrinks | src/optimization/Dominators.cpp:93-125 | ancestors after a visit are among the ancestors of the sweep before |
| Sweep.VisitRises | src/optimization/Dominators.cpp:120-123 | the link a visit finds is an ancestor of the one it replaces, never has a lower number, and has a higher one if it is another block |
| Dominators.Analysis.CreateDominanceFrontier | src/optimization/Dominators.cpp:145-158 | y is recorded for x exactly if x dominates a predecessor of y and does not strictly dominate y |
| Frontier.ClimbedIsFrontier | src/optimization/Dominators.cpp:149-155 | the blocks the climbs to a block pass are exactly those that have it in their frontier |
| Frontier.OnePredecessorNoFrontier | src/optimization/Dominators.cpp:148 | a block with fewer than two predecessors is in no frontier, so skipping it loses nothing |
| Dominators.Analysis.CreateDomTreeSucc | src/optimization/Dominators.cpp:160-169 | the children of a block are exactly the blocks it immediately dominates |
| FunctionIr.Body.ReplaceAllUseWith | src/lightir/Value.cpp:22-29 | in every instruction that has not been deleted, each operand that was the old value is the new one, nothing else changes, and use lists still miss no operand |
| FunctionIr.Body.RemoveUse | src/lightir/Value.cpp:31-35 | the uses by one user leave the list of the value |
| FunctionIr.Body.SetOperand | src/lightir/User.cpp:22-28 | the operand is replaced and the use recorded |
| FunctionIr.Body.CreateInstr | src/lightir/Instruction.cpp:34-41 | a new instruction sets its operands one by one, and the use lists then miss none of them and name no others |
| FunctionIr.Body.Holding | src/lightir/Instruction.cpp:34-41 | instruction by instruction, a body that holds exactly the given function, with complete use lists |
| FunctionIr.Body.AddOperand | src/lightir/User.cpp:30-35 | the operand is appended and the use recorded |
| FunctionIr.Body.RemoveUseOfOps | src/lightir/User.cpp:42-47 | the user leaves the use lists of its operands and no other |
| FunctionIr.Body.DeleteInstr | src/lightir/BasicBlock.cpp:30-34 | the instruction leaves the list of its block, and no use list of a value that has not been replaced names it |
| PhiPlacement.IdfLeast | src/optimization/Mem2Reg.cpp:54-74 | the iterated frontier is inside every set that holds the stores' frontiers and is closed under frontiers |
| Mem2Reg.Pass.PlacePhis | src/optimization/Mem2Reg.cpp:54-74 | the growing work list ends; the blocks with a phi for the variable are exactly its iterated frontier, with one phi each, and no other variable gets one |
| Mem2Reg.Pass.GeneratePhi | src/optimization/Mem2Reg.cpp:26-75 | every variable has its phis exactly at the iterated frontier of its stores, in front of what the blocks held before |
| PhiPlacement.PlacedValid | src/optimization/Mem2Reg.cpp:52-74 | placing phis keeps the function in strict form, with the phis of a block first and for different variables |
| Ssa.ClimbKeepsTop | src/optimization/Mem2Reg.cpp:121-142 | if a block has no phi for a variable, the value of the variable at the end of each predecessor is its value at the end of the block's immediate dominator |
| Ssa.TopSettled | src/optimization/Mem2Reg.cpp:100-104 | a value on top of a stack is defined at a point that dominates where it is used, and needs no renaming itself |
| Mem2Reg.Pass.RenameUses | src/optimization/Mem2Reg.cpp:91-119 | the loads of the block are replaced by the tops of the stacks, the stores pushed; it stops only at a load of a variable that an earlier block defines and that has no value here |
| Mem2Reg.Pass.FillPhis | src/optimization/Mem2Reg.cpp:121-137 | each phi of each successor gets the pair of this block, once; it stops only at a phi for a variable that an earlier block defines and that has no value at the end of this one |
| Mem2Reg.Pass.PopAll | src/optimization/Mem2Reg.cpp:144-163 | every stack is as it was when the block was entered, and no empty stack is popped |
| Mem2Reg.Pass.ReName | src/optimization/Mem2Reg.cpp:77-169 | visits everything the block dominates once, top down; leaves the stacks balanced and the subtree renamed, or stops exactly at a clash |
| Mem2Reg.Pass.RemoveAlloca | src/optimization/Mem2Reg.cpp:171-194 | the number cells go, and what is left is the promotion of the placed function |
| Simulation.PromotionRefines | src/optimization/Mem2Reg.cpp:26-194 | in every world and for every number of steps the promoted function takes the same blocks, makes the same observed operations with the same operands and returns the same, as long as the original observes no undefined value |
| Promotion.Run | src/optimization/Mem2Reg.cpp:9-24 | the pass as a whole: it gets through exactly if its walk meets no clash, and always if the input is orderly; then the result refines the input, is in strict form exactly if a value comes to every load, and has a pair for every predecessor in every phi exactly if no block of the input leaves a variable unset |
| TreeWalk.DirectWalk | src/optimization/Mem2Reg.cpp:139-142 | for every block there is a depth-first walk of the whole dominator tree that enters only its dominators before it |
| Askers.TopIs | src/optimization/Mem2Reg.cpp:77-119 | a stack has a value exactly if the block so far or a block that strictly dominates it stores to the variable or gets a phi for it |
| Askers.MissingIsAsks | src/optimization/Mem2Reg.cpp:98-136 | the walk finds no value for a variable in a block exactly if the function before the pass says so |
| PassOutcome.OrderlyExactly | src/optimization/Mem2Reg.cpp:98-142 | every order of the children gets through exactly if whoever asks for a variable without a value stands above every other block that sets it |
| PassOutcome.TwoAskersClash | src/optimization/Mem2Reg.cpp:98-136 | if two blocks both ask for a variable without a value and set it, every order fails |
| PassOutcome.EntrySetOrderly | src/optimization/Mem2Reg.cpp:98-136 | when every variable that is stored to is stored to in the entry block, every order gets through |
| PassOutcome.EntryStoredMissing | src/optimization/Mem2Reg.cpp:98-136 | when every variable in use is stored to in the entry block before it is loaded there, no block ever asks for a missing value |
| PassOutcome.StrictAfter | src/optimization/Mem2Reg.cpp:93-119 | an operand of a remaining instruction is defined by a remaining instruction that dominates it, unless it is the address of a load that found no value; then it is gone |
| PassOutcome.StrictPhiAfter | src/optimization/Mem2Reg.cpp:121-137 | the value of a phi for a predecessor is defined at a point that dominates the end of that predecessor |
| PassOutcome.StrictExactly | src/optimization/Mem2Reg.cpp:98-106 | every operand of the result is defined at a point that dominates its use exactly if a value comes to every load of an int or float variable of the function before the pass |
| PassOutcome.PairExactly | src/optimization/Mem2Reg.cpp:121-137 | a phi has a pair for a predecessor exactly if that block of the function before the pass does not leave the variable unset |
| PassOutcome.PairedExactly | src/optimization/Mem2Reg.cpp:121-142 | every phi of the result has a pair for every predecessor exactly if no block of the function before the pass leaves unset what a phi behind it asks for |
| PassOutcome.EveryPairThere | src/optimization/Mem2Reg.cpp:121-142 | when every variable that is stored to is stored to in the entry block, every phi has a pair for every predecessor |
| PassOutcome.SameResult | src/optimization/Mem2Reg.cpp:139-142 | two walks in different orders leave the same function but for the order of the pairs in the phis |
| Renaming.PhiOperandAppend | src/optimization/Mem2Reg.cpp:132 | what a phi holds for a predecessor after one more pair has been appended |
| LoopSearch.LoopSearch.BuildCfg | src/optimization/LoopSearch.cpp:18-47 | one node for each block, successors and predecessors as in the graph, nothing visited |
| LoopSearch.LoopSearch.Traverse | src/optimization/LoopSearch.cpp:64-105 | one call keeps the invariant of the search, leaves the lower stack as it was, and its low link bounds every edge from what it has added into the stack below |
| LoopSearch.LoopSearch.PopUntil | src/optimization/LoopSearch.cpp:91-99 | the loop takes off exactly the node and what is above it |
| LoopSearch.LoopSearch.StronglyConnectedComponents | src/optimization/LoopSearch.cpp:51-63 | returns exactly the strongly connected components with two nodes or more and leaves the stack empty |
| Components.SegmentIsComponent | src/optimization/LoopSearch.cpp:89-104 | when low link and number of a node are equal, the node and what is above it on the stack are one component |
| Components.AnchorBelow | src/optimization/LoopSearch.cpp:73-89 | otherwise everything on the stack still reaches an open node below it |
| Components.ComponentsApart | src/optimization/LoopSearch.cpp:103 | two components are the same or disjoint |
| LoopSearch.LoopSearch.FindLoopBase | src/optimization/LoopSearch.cpp:106-136 | never null: a member that has a predecessor outside the component |
| LoopNest.ComponentEntered | src/optimization/LoopSearch.cpp:111-133 | every component with two blocks or more is entered from outside |
| LoopSearch.LoopSearch.RemoveBase | src/optimization/LoopSearch.cpp:205-213 | the nodes left keep exactly the edges among themselves, in both directions |
| LoopSearch.LoopSearch.PeelLoops | src/optimization/LoopSearch.cpp:171-218 | one round records a loop for each component, keeps the loops nested or disjoint, and shrinks the node set |
| LoopNest.LaterComponent | src/optimization/LoopSearch.cpp:161-225 | a component found later lies inside an earlier one or beside it |
| LoopSearch.LoopSearch.Run | src/optimization/LoopSearch.cpp:137-236 | the search ends; the loops are nested or disjoint with distinct bases, the maps describe them, and every cycle of the graph lies in a loop whose base is on the cycle |
| LoopNest.MapsInverse | src/optimization/LoopSearch.cpp:190-191 | the map from bases to loops and the map from loops to bases undo each other |
| LoopNest.BaseDominates | src/optimization/LoopSearch.cpp:106-136 | a base that is the only entry of its loop dominates the loop |
| LoopSearch.LoopSearch.GetInnerLoop | include/optimization/LoopSearch.hpp:44-48 | the smallest recorded loop that holds the block, and none exactly if no loop does |

## Left out

- Several functions in one module: a builder, an analysis and a pass are about one function each. The value stacks of `Mem2Reg` start empty, and the loop maps hold the loops of one function.
- The declaration of global variables, their initial values and the visit of a whole program; globals enter as names that are already bound.
- Builder.CminusfBuilder.VisitExpr: a float constant is given by its bits. The nodes of the grammar that hand on to their one child are left out of the trees, and additive and term nodes are one case.
- Builder.CminusfBuilder.Visit: a failed assertion or a null value sets a flag instead of ending the program; what is built after that has no meaning.
- FunctionMeaning.FunctionMeans: functions without an index in a loop condition, because the blocks of such a loop are no function of the IR (`BrokenLoops.InputExactly`); an index anywhere else is covered. Nothing is said about runs of the source that go wrong, that is, divide by zero, let an undefined value decide, or give one away.
- What a global variable or an element of an array holds, and which address an element has, is up to the world, which may make it depend on all that has been stored and called before; that a variable holds what was stored to it last is a property of a world (`GlobalVariable.Remembers`).
- What floats are: their operations, comparisons and conversions are parameters of the world, the same for the source and for the instructions. That a floating `!=` is the negation of `==`, and `>` and `>=` those of `<` and `<=` turned round, is all that is fixed.
- FunctionMeaning.FunctionMeansExactly: the same functions; nothing is said about source functions that go wrong for some number of rounds.
- BuilderMeaning.ExprMeans: only evaluations that have a result.
- StatementMeaning.StmtMeans: no index in a loop condition; nothing is said about source runs that go wrong.
- StatementMeaning.LoopRounds: loops without an index in their condition only, because only they keep the head of the loop in one block.
- EntryCells.InitialisedEntrySet: a condition on the source that is sufficient, not necessary; the exact one, `Askers.Orderly`, is about the blocks.
- Simulation.PromotionRefines: says nothing about what happens after the original has branched on, returned or passed an undefined value.
- Addresses, types of values and the names of instructions after the IR is built; pointers are opaque numbers, and what loads and stores of globals and array elements do is left to the world they run in.
- Nodes of the loop search are named by their blocks, and loops are sets of blocks, not pointers to sets.
- `create_doms`, which no one calls, `get_parent_loop`, dumping and printing.
- The passes with empty bodies (constant propagation, loop invariants, active variables).
- The x86 back end.
