# Proofs about xemmai

xemmai is an interpreter for a scripting language, written in C++. This project models in
Dafny the parts of it that are hard to get right, and proves what they promise:

* the collector: reference counts that are applied late, and cycles found by trial
  deletion in one pass and freed in the next (`ObjectGraph` to `Passes`);
* how counts reach the collector from threads that never stop for long: the queue of one
  producer and one consumer (`Spsc`), the epochs (`Epochs`) and the stacks of the fibers
  (`StackDiff`);
* the containers: the hash table (`RobinHood`, `HashMaps`) and the list (`CircularLists`);
* the compiler: which private variables must be cleared and where (`Initialising` to
  `Compiler`, `RawReads`), and what becomes of values when `break`, `continue`, `return` and
  exceptions leave a `try` (`Trying` to `Meaning`, `Interpreting`);
* the layout of classes and the caches of instructions (`Layouts`), objects that are owned
  by a thread or shared (`Sharables`), and arguments that are expanded in place
  (`Expanding`).

Code that changes things step by step is modelled by classes and methods: `ObjectHeap.Heap`
holds the fields of all objects, indexed by object, and the intrusive lists threaded
through them; `StackDiff.Fiber` is the buffer of a fiber; `HashMaps.HashMap`,
`CircularLists.List` and `Interpreting.Context` are the classes of the program. What is
concurrent is a machine with one step for each access to memory that others see, and its
properties are about all runs.

## Three promises that the code does not keep

**Operands of operations can be lost.** `while` and `return` are expressions, and
`t_return::f_emit` (src/ast.cc:420-435) evaluates the operand of `return` at the bottom of
the operand stack, where operands of enclosing operations may wait. As long as the return
takes place nobody uses them. But the operand may be left by a jump: in
`f(a(), while b(); return (c(), continue))` the value of `c()` replaces that of `a()`, the
loop goes on, and `f` is called with the wrong operand (`Meaning.Overwritten`). The exact
condition is `Meaning.Safe`: no path through the lambda uses an operand that has been
overwritten. It is computed from the text by following paths and looking at what each
leaves in a slot of the stack (`Operands.Paths`). `Meaning.RightIfSafe` proves, for all
lambdas whose values are in place, that the code does what the script means in all
surroundings and from all states if and only if the lambda is safe; so a jump in the operand
of a return does not by itself do harm (`Meaning.Unharmed`).

*In place* (`Meaning.Placed`) means: no `break` carries a value that is wanted out of a
`try` that is itself in the operand of a return and so below the stack of the loop. There
`t_try::f_emit` moves no value (src/ast.cc:533, 552: it moves down only), the loop has whatever
is in its slot, and a lambda that loses no operand goes wrong (`Meaning.Misplaced`). Such a
lambda may still be right, if nothing is made of the value (`Meaning.Unseen`): whether it is
depends on whether the code that follows does the same with another value, for instance on
whether both branches of an `if` mean the same. That is no property of the paths, and no
condition for it is stated here.

**A private variable can be read before it is initialised.** The slots of private variables
are not cleared on entry. A read that may come first is preceded by a NUL, or by one at a
junction on the way to it, by what the analysis finds. There are two gaps.

* A direct call of a private variable (src/ast.cc:1153-1163) emits no NUL: a lambda whose
  body is `x()` and then `x = 1` calls what happens to be in the slot
  (`RawReads.CallExample`).
* `continue` leads to the step of a `for` without a join, and code that follows it in its
  block counts as if it were executed (src/ast.cc:326-381, include/xemmai/ast.h:91-99). In
  `for ; c(); f(x)` with the body `continue` and then `x = 1`, the write keeps the analysis
  from seeing that the step may read x first, and makes the emission take x for initialised
  there (`RawReads.ContinueExample`).

The exact condition is `Compiler.Riskless`. It follows, for one variable, the ways through
the text on which it is neither accessed nor cleared by a join (`Unset.Raw`), and asks that
no such way comes to a direct call of the variable, or to a `continue` of a loop whose step
can then read it. `Compiler.Compile` proves for every body that the code reads no garbage in
any run if and only if this holds: all other reads are safe, whatever follows a `break`,
a `return` or a `continue` (`Unset.ReadRisk`), and every way that is found is that of some
run (`Exposed.Walk`). A value that has been assigned is never cleared, in any body. That the
condition holds can be seen from the text alone if nothing is called directly and nothing
follows a `continue` to a step in its block (`Tidied.TidyCalm`).

**`insert(-size, x)` may miss its place.** `t_list::f_insert` (src/list.cc:54-87) counts a
negative index from the end, and the place 0 that this gives is not handed over to
`f_unshift` as an index of 0 is. If the list begins at the first slot, or does so after
growing, `f_move_backward` is called with a pointer before the first slot (src/list.cc:71-74),
moves nothing, and the element comes second: a new list, `push(7)`, `insert(-1, 8)` gives
`[7, 8]` (`CircularLists.MissedExample`). `CircularLists.List.Insert` says in full what happens
for each index, and that an element counted from the end comes where it should if and only if
the place is not missed or the element is the one that was first.

## Model

| member | source | states |
|---|---|---|
| Detection.FindCycles | src/engine.cc:99-140 | From any graph, of which no object is GRAY, with at least one candidate, candidates that are counted, and no cycle pending: exactly what the PURPLE candidates reach is examined; a cycle is found for each of it that no reference from outside reaches, all others are BLACK again; cyclic counts are the references from outside the cycle, cycles refer only to earlier ones, and the lists are relinked |
| Detection.GarbageExactly | src/engine.cc:119-137 | On exact counts, what has been examined is in a cycle if and only if nothing in use and nothing unexamined reaches it |
| Drain.DrainCycles | src/engine.cc:33-88 | Handling the pending cycles keeps every count exact, however they have been changed since; if nothing has changed, exactly their members are freed |
| Drain.Allocate | include/xemmai/object.h:68-78 | Objects that have just been allocated are a state from which changes and passes can begin |
| Passes.Detect | src/engine.cc:94-141 | What detection leaves is what the next drain asks for, and its cycles are intact; of what has been examined, exactly the unused pends |
| Passes.Pass | src/engine.cc:33-142 | Any number of passes can follow one another: nothing reachable from something in use is ever released; of the pending cycles, if intact, exactly the members are freed; what pends afterwards is garbage, and all garbage among what the candidates reach |
| Passes.TwoPasses | src/engine.cc:33-142 | Two passes without a change between them free, of all that the candidates reach, exactly what is unused, and nothing else |
| Applying.Increment | include/xemmai/object.h:105-110 | A reference may be stored in any living object or elsewhere, to a member of a pending cycle too, and everything the drain relies on still holds |
| Applying.Decrement | include/xemmai/object.h:111-131 | A reference may be dropped, with all that is released by it, and everything the drain relies on still holds |
| Spsc.Delivers | include/xemmai/engine.h:297-323 | In every run of producer and consumer the objects are delivered once each, in order; a slot that is written is neither read nor undelivered; a flush delivers all that its epoch stands for |
| Spsc.FlushEnds | include/xemmai/value.h:58-79 | A flush ends whatever the producer does meanwhile: each of its steps comes nearer to the epoch, and no step of the producer takes it away |
| Spsc.WaitEnds | include/xemmai/engine.h:298-312 | A producer that waits for room finds some once all that it has published is flushed |
| Epochs.CountsHold | src/thread.cc:30-70 | In every run, with threads that come and go and push between any two steps: a decrement is applied after its increment, even if another thread has pushed that, and finds the count positive |
| Epochs.SlotsHold | include/xemmai/value.h:133-146 | In every run, what a slot holds has a positive count once its increment is applied |
| Epochs.DeletedDrained | src/engine.cc:19-32 | In every run, a thread that is deleted has had all its increments and decrements applied |
| StackDiff.Fiber.Scan | src/fiber.cc:114-147 | The objects found on both stacks become the ones accounted for; increments less decrements are exactly the difference between them and the last ones, as multisets |
| StackDiff.Fiber.Epoch | src/fiber.cc:102-153 | Over all epochs increments and decrements balance what is on the stacks; when the fiber is over, all that was incremented has been decremented |
| HashMaps.HashMap.Put | src/map.cc:62-78 | The table, grown if it must be, holds the old map with the key set; the only failure is that of a table that cannot grow |
| HashMaps.HashMap.Remove | src/map.cc:80-112 | The table holds the old map without the key, closed up by moving the last entry of each run into the hole, or there was no such key |
| HashMaps.HashMap.Get | include/xemmai/map.h:90-101 | A search that stops at the first smaller gap finds the value of the key if and only if the map has it |
| HashMaps.HashMap.FindPlace | include/xemmai/map.h:102-109 | The place is that of the key, or one where it can be put so that all gaps stay in order |
| HashMaps.Insert | src/map.cc:21-38 | Displacing entries until there is room keeps all of them findable, and adds one |
| RobinHood.Absent | include/xemmai/map.h:96-100 | Where gaps are in order, a key not met before the first smaller gap is nowhere |
| HashMaps.CloseHole | src/map.cc:89-109 | Moving the last entry of each run into the hole, until there is no run, puts all gaps in order again and keeps what the table holds |
| CircularLists.List.Insert | src/list.cc:54-87 | What the list is afterwards for each index; a negative one comes where it should if and only if the place is not missed or the element is the one that was first |
| CircularLists.List.Remove | src/list.cc:89-118 | The element comes out of its place, counted from either end, and the others keep their order |
| CircularLists.List.Push | include/xemmai/list.h:83-88 | The element comes last, and copying has cost at most two for each operation so far |
| CircularLists.List.Shift | include/xemmai/list.h:106-116 | The first element comes out, or the list is empty; shrinking keeps the order and the cost |
| CircularLists.MissedExample | src/list.cc:71-74 | A new list, one push and an insert at -1 put the elements in the wrong order |
| Dataflow.Propagate | src/ast.cc:104-143 | The queue ends, and the facts are exactly those that come along some path |
| Compiler.Compile | src/ast.cc:104-143 | For every body whose jumps have their loops: the facts of the analysis are exact; nothing but NULs is added to the code; no run clears a variable that has been assigned; and no run reads or calls one before it is initialised if and only if `Riskless`: on no path without an access or a NUL it is called directly, or comes by `continue` to a step that reads it |
| Unset.ReadRisk | include/xemmai/ast.h:91-99 | By facts that are closed under the rules, a variable that is raw and not at risk is not read, whatever code follows a jump in its block |
| Exposed.Walk | src/ast.cc:241-440 | Each way that is found through a node, to its end, to a jump or to a read, is that of some run in which the variable is still raw |
| Tidied.TidyCalm | src/ast.cc:402-413 | No variable is at risk if nothing is called directly and nothing follows a `continue` to a step in its block; other jumps may be followed by anything |
| RawReads.ContinueExample | src/ast.cc:326-381 | The code of `for ; c(); f(x)` with the body `continue` and `x = 1`, instruction by instruction, and that some run of it reads garbage |
| RawReads.CallExample | src/ast.cc:1153-1163 | The code of a lambda whose body is `x()` and `x = 1`, and that some run of it calls garbage |
| Compiler.EmitChecks | src/ast.cc:1286-1293 | Code emitted by any facts that are closed under the rules passes a check of each instruction and label, a strict one if no variable is at risk |
| Compiler.AnalysedSolves | src/ast.cc:23-48 | What the analysis finds is closed under the rules |
| Compiler.EmitBared | src/ast.cc:708-798 | For any facts, the code without NULs is the code that is emitted without analysis |
| TryCode.EmitLaid | src/ast.cc:475-562 | The code of each construct has its parts and jumps where the interpreter will look for them |
| Tried.ProgramRuns | src/ast.cc:176-239 | For every lambda that the parser accepts, running its code is doing, construct by construct, what the code for each does on the operand stack, with f_try calling the loop again for each part |
| Operands.Sound | src/ast.cc:241-577 | Where no path loses an operand, what happens on the stack is what is meant, and one of the paths tells what becomes of each slot |
| Lost.Realize | src/ast.cc:241-577 | Every path that is found is taken for some answers of the outside: none is found in vain |
| Meaning.RightIfSafe | src/ast.cc:420-435 | The code of a lambda whose values are in place does what the script means, in all surroundings, if and only if no path loses an operand |
| Meaning.UnsafeDiffers | src/ast.cc:420-435 | Otherwise there are answers for which an operation is called with other operands than is meant, or the call ends otherwise |
| Meaning.Overwritten | src/ast.cc:420-435 | The operand that is lost in `f(a(), while b(); return (c(), continue))`, with both calls of f |
| Meaning.Unharmed | src/ast.cc:406-435 | `f(a(), while b(); return continue)` does what it means |
| Meaning.Misplaced | src/ast.cc:542-558 | A value that is not moved to where its loop wants it, though no operand is lost |
| Meaning.Unseen | src/ast.cc:542-558 | The same without harm |
| Interpreting.Context.Run | src/code.cc:229-285 | The loop, which changes program counter, stack and variables in place, ends as the specification says |
| Interpreting.Context.Try | src/code.cc:927-993 | f_try, which calls the loop again for body, clauses and finally, does so too |
| Interpreting.Call | src/code.cc:229-285 | A lambda without lost operands is compiled and called: it ends as it means, or does not end if that does not |
| Layouts.Derive | src/type.cc:65-91 | A class can be derived if and only if no key of an instance field is taken and no class field clashes with an instance field; what is inherited stays where it was, instance fields by index, class fields by distance |
| Layouts.Index | src/type.cc:48-63 | The binary search finds the position of the field with the key, or there is none |
| Layouts.LineExtends | src/type.cc:65-91 | However often a class is derived from, all its descendants keep its layout |
| Layouts.Get | include/xemmai/global.h:306-316 | Whatever the cache of the instruction holds, the answer is that of a search |
| Layouts.Bind | include/xemmai/global.h:331-345 | With the tests in the other order, that of the class first, the answer is still that of a search |
| Layouts.Put | include/xemmai/global.h:347-354 | Whatever the cache holds, exactly the field with the key is written, if it is one of the object |
| Layouts.Contains | src/type.cc:187-195 | Whatever the cache holds, the answer is that of a search |
| Layouts.GetOfClass | src/class.cc:12-22 | Whatever the cache holds, a field of the class is found, and never one of its instances |
| Layouts.CacheInherited | include/xemmai/global.h:331-345 | What an instruction has remembered of a class is good for all that extend it |
| Sharables.BodiesApart | include/xemmai/sharable.h:34-42 | In every run two bodies overlap only if both run under the shared lock and there is no owner |
| Sharables.OwnerChanges | src/sharable.cc:6-18 | In every run the owner changes only while nobody is in a body |
| Expanding.EmitGaps | src/ast.cc:1184-1193 | The numbers that follow the instruction are those of the arguments before each one to be expanded, and after the last |
| Expanding.Expand | src/code.cc:19-65 | By the numbers that EmitGaps emits, arguments are replaced by their elements in place, in order, all others keeping theirs; the length is returned and the program counter is on the last number; or something cannot be expanded |

## Left out

- Drain.DrainCycles: no finalizers and no `v_reviving` (src/engine.cc:43-44); an object is never revived.
- Passes.Pass: nothing changes during a detection; the collector works on counts that only it changes, so that the graph stands for the references that counts stand for when a pass begins. Nothing is revived, and nothing is allocated between two passes.
- Drain.Allocate: the number of objects is fixed when a heap is made; the stale color of an object that is allocated again is not modelled.
- The threshold that decides whether a detection is due (src/engine.cc:96-98) is a parameter.
- Epochs, queues and the collector are separate models: `Epochs` takes a queue as a sequence, which is what `Spsc` proves of the real one, and the collector is given single increments and decrements, which is what `Epochs` orders. That a reference is pushed only by a thread that can reach its object is not modelled, and so no joint run of all three is stated, and not that in each of them what a slot leads to is never freed.
- References on the stacks of fibers are not part of `Epochs`: `StackDiff` shows that they balance.
- `Epochs.End` publishes both epochs in one step; src/thread.cc makes two stores, while the thread pushes no more.
- Memory is sequentially consistent; relaxed orders and fences are not modelled. The epoch of a queue that has never been published is its beginning.
- `f_object__find` is a function without side effects that finds the same object for a word throughout one scan.
- Contexts of suspended threads on Windows (src/thread.cc:45-53), the debugger, input and output, lexer and parser.
- Hashes and equality that are defined in scripts: they are functions, and equal keys are the same.
- Sorting and iterating lists.
- Compiler.Compile: the analysed scripts have no `try`, no lambdas with default values, and no variables shared with inner lambdas.
- Compiler.AnalysedSolves: the block at the end of a scope counts as visited from the beginning.
- Compiler.EmitBared: labels are named by their blocks, and code is emitted by functions: the stack pointer of the emitter is a parameter and not a field that is put back.
- TryCode.EmitLaid: no `for` among the constructs; an operation has two operands, none of which is a variable or a literal outside the stack; no tail calls. NULs that junctions add to the code are in the model of the analysis only.
- Tried.ProgramRuns: the same.
- Interpreting.Context.Run: the instructions of that code only.
- A `while` or a jump back costs fuel in the models of scripts: a script that does not end is one that runs out of any fuel, in both.
- `__initialize` put back by `f_derive` (include/xemmai/global.h:291-295), and objects whose class answers for fields that it has not (`v_get`, `v_put`, `v_has`).
- Expanding.Expand: other objects than tuples and lists are expanded by their `size` and `get_at` (src/code.cc:54-62), with what these may do; that, and running out of stack while expanding (src/code.cc:27), is not modelled.
- Meaning.RightIfSafe: nothing is stated for lambdas that are not `Placed`, since whether they are right depends on whether other code means the same with another value.
- Interpreting.Call: the same.
