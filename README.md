# Boost work units and reporters, modelled in Dafny

This project models the deterministic core of the Boost tool's pipeline
and reporters:

- the work-unit status machine of a `Task` (construction, the five status
  queries, `run`, `skip`, `spinner`);
- the pipeline's `createWorkUnit` dispatch;
- the `executeSequentially` helper, as written and as its doc comment
  describes it;
- the core `Reporter`'s line list (`addLine`, `removeLine`, `findLine`),
  its status colours and `indent`;
- the two default reporters (`src/reporters/DefaultReporter.ts`, one line
  per routine with its running tasks; `src/DefaultReporter.ts`, one line
  per routine or task), including the key-column width over the routine
  tree, the completion count and the depth/line bookkeeping of their
  event handlers;
- the state of the nyan-cat reporter: its tick, its four rainbow lines,
  its colour index and the cat's face.

Modules, one per source file:

| module | file | source |
|---|---|---|
| `Wrappers` | wrappers.dfy | (`Option`, `Result`, shared) |
| `Types` | types.dfy | src/types.ts (`Status`) |
| `Routines` | routines.dfy | the routine tree read by both default reporters |
| `Tasks` | task.dfy | src/Task.ts |
| `WorkUnits` | create_work_unit.dfy | packages/pipeline/src/createWorkUnit.ts |
| `Sequential` | execute_sequentially.dfy | src/helpers/executeSequentially.js |
| `CoreReporter` | reporter.dfy | packages/core/src/Reporter.ts |
| `RoutineLines` | routine_lines_reporter.dfy | src/reporters/DefaultReporter.ts |
| `TaskLines` | task_lines_reporter.dfy | src/DefaultReporter.ts |
| `Nyan` | nyan_reporter.dfy | packages/reporter-nyan/src/NyanReporter.ts |

How the source's entities are represented:

- Objects whose fields the source assigns are classes: `Tasks.Task`,
  `CoreReporter.Reporter`, the two `DefaultReporter`s, `Nyan.NyanReporter`.
  Their methods say what they change with `modifies` and state the whole
  new state in `ensures`.
- A task's action is a function from the input value and the context to
  `Ok(value)` (it returned or resolved) or `Err(error)` (it threw or
  rejected). `run` returns that outcome. A task also keeps two ghost logs:
  `trace`, every status it has been given, and `invocations`, the
  arguments of every call of its action. These logs state that `running`
  comes before the final status and that the skip path never calls the
  action.
- Routines and tasks handed to the reporters are compared with `===` in
  the source. They are type parameters with equality here.
- The routine tree the key-width computations walk is a finite datatype
  (`Routines.RoutineTree`). It has the routine's key and its child
  routines, which are `routines` in one reporter and `subroutines` in the
  other.
- Where the source throws, the model returns an error value: the `Task`
  constructor's two messages, createWorkUnit's "Unknown work unit type"
  error, and the RangeError of `' '.repeat` for a negative indent.
- Inputs from outside the core are parameters: the spinner frames
  (elegant-spinner), the terminal width, colour support and the colour
  list of the nyan reporter, the console's `verbose` option, and each
  routine's current status.

Nothing in src/Task.ts guards a finished task. `run` on a passed or
failed task calls its action again, and `skip(true)` overwrites any
status (src/Task.ts:93-132). `Tasks.Task.Run` and `Tasks.Task.Skip` state
exactly that. `executeSequentially` does not chain values as its own doc
comment promises (src/helpers/executeSequentially.js:9-13; see Findings).

## Model

| member | source | states |
|---|---|---|
| `Tasks.InitialStatus` | src/Task.ts:39-50 | an empty or non-string title fails with "Tasks require a title." (checked first); a non-null non-function action fails with "Tasks require an executable function."; otherwise the task starts pending with a function and skipped with a null action, and these are the only outcomes |
| `Tasks.Task.constructor` | src/Task.ts:39-52 | an accepted task stores its title and action, takes the initial status InitialStatus chose, with empty status text, no context and frame 0 |
| `Tasks.Task.Create` | src/Task.ts:39-52 | `new Task(...)`: the constructor's error exactly when validation fails, otherwise a fresh task in the initial state |
| `Tasks.StoredAction` | src/Task.ts:48 | a task keeps its action exactly when it was given a function, and keeps that function |
| `Tasks.Task.HasFailed` | src/Task.ts:57-59 | hasFailed holds only in a finished state |
| `Tasks.Task.HasPassed` | src/Task.ts:64-66 | hasPassed holds only in a finished state |
| `Tasks.Task.IsPending` | src/Task.ts:71-73 | isPending holds only in an unfinished state |
| `Tasks.Task.IsRunning` | src/Task.ts:78-80 | isRunning holds only in an unfinished state |
| `Tasks.Task.IsSkipped` | src/Task.ts:85-87 | isSkipped holds only in a finished state |
| `Tasks.ExactlyOneQueryHolds` | src/Task.ts:57-87 | exactly one of hasFailed, hasPassed, isPending, isRunning, isSkipped holds of any task |
| `Tasks.Task.Run` | src/Task.ts:93-121 | the context is always stored; a skipped or action-less task becomes skipped, returns its input unchanged and never calls the action; otherwise the status goes to running, the action is called once with (value, context), and the task ends passed with cleared status text returning the action's value, or failed returning the action's own error; no prior status is guarded, and the final status is always terminal |
| `Tasks.Task.Skip` | src/Task.ts:126-132 | `skip(true)` (the default) sets skipped from any status, `skip(false)` changes nothing; both return the task itself |
| `Tasks.Task.Spinner` | src/Task.ts:137-142 | the frame advances to (frame + 1) mod the number of frames, stays in range, and that frame is returned |
| `WorkUnits.CreateWorkUnit` | packages/pipeline/src/createWorkUnit.ts:13-28 | a work unit is returned as it is whatever the other arguments; a string with a function gives a new task with that title and that function, bound to the scope exactly when the scope is truthy; every other combination, and only those, fails with the "Unknown work unit type" message |
| `WorkUnits.CreatedUnitIsFixedPoint` | packages/pipeline/src/createWorkUnit.ts:19-24 | passing a created work unit back through createWorkUnit, with any other arguments, returns it unchanged |
| `Sequential.Settle` | src/helpers/executeSequentially.js:22-30 | a derived promise fulfils exactly when the accumulator returned a resolving Promise, rejects with the TypeError exactly when it returned a non-Promise, and otherwise rejects with the accumulator's own error |
| `Sequential.ExecuteSequentially` | src/helpers/executeSequentially.js:14-34 | for every process list, the empty one included, the helper resolves to the initial value; the accumulator is called once per process, in list order, always with the initial value; the TypeError for a non-Promise only settles a discarded promise |
| `Sequential.SequentialDoesNotChain` | src/helpers/executeSequentially.js:9-33 | with processes [1, 2], initial value 0 and an adding accumulator, the second call receives 0 and the result is 0, while the chained helper passes 1 and resolves to 3 |
| `Sequential.ExecuteChained` | src/helpers/executeSequentially.js:9-13 | the chained helper: the first call receives the initial value, each later call receives the previous call's resolved value, calls follow the list order, and the chain stops at the first rejection or non-Promise, which is then its result |
| `Sequential.ChainedIsFold` | src/helpers/executeSequentially.js:9-13 | when every call resolves, the chained helper calls the accumulator for every process and resolves to the left fold of the processes |
| `CoreReporter.FirstMatch` | packages/core/src/Reporter.ts:73-75 | the index of the first element matching the callback (every earlier one fails it), or none exactly when no element matches |
| `CoreReporter.Without` | packages/core/src/Reporter.ts:145-149 | every kept element is an original one that does not match; every non-matching original is kept; never longer |
| `CoreReporter.WithoutDistributes` | packages/core/src/Reporter.ts:145-149 | removal distributes over concatenation (with WithoutSingle this fixes the order of what is kept) |
| `CoreReporter.WithoutSingle` | packages/core/src/Reporter.ts:146 | a single line is kept exactly when it does not match |
| `CoreReporter.WithoutIdempotent` | packages/core/src/Reporter.ts:145-149 | removing the same lines twice equals removing them once |
| `CoreReporter.WithoutNoMatch` | packages/core/src/Reporter.ts:145-149 | when no line matches, removeLine leaves the list as it is |
| `CoreReporter.FindAfterRemove` | packages/core/src/Reporter.ts:73-75 | after removeLine(p), findLine(p) finds nothing |
| `CoreReporter.Reporter.constructor` | packages/core/src/Reporter.ts:27 | a reporter starts with no lines |
| `CoreReporter.Reporter.AddLine` | packages/core/src/Reporter.ts:43-47 | exactly one line is appended at the end, earlier lines unchanged; returns the reporter |
| `CoreReporter.Reporter.FindLine` | packages/core/src/Reporter.ts:73-75 | the first line matching the callback, or nothing exactly when no line matches |
| `CoreReporter.Reporter.RemoveLine` | packages/core/src/Reporter.ts:145-149 | the lines become exactly those not matching the callback, in order; returns the reporter |
| `CoreReporter.GetColorType` | packages/core/src/Reporter.ts:98-108 | skipped gets the warning type, passed success, failed failure, and exactly the unfinished statuses get pending, each as an if-and-only-if |
| `CoreReporter.DefaultPalette` | packages/core/src/Reporter.ts:87-92 | failure is red, success green, warning yellow and pending gray, each colour given to that type only |
| `CoreReporter.ColorTypeDistinguishesTerminal` | packages/core/src/Reporter.ts:98-108 | getColorType gives the three finished statuses (skipped, passed, failed) three different colour types, and the pending type exactly to pending and running |
| `CoreReporter.Indent` | packages/core/src/Reporter.ts:138-140 | exactly `length` spaces, and a RangeError exactly for a negative length |
| `CoreReporter.IndentAdds` | packages/core/src/Reporter.ts:138-140 | the default indent is empty, and indents of m and n spaces concatenate to one of m + n |
| `RoutineLines.KeyLength` | src/reporters/DefaultReporter.ts:38-48 | 0 for no routines, and at least key length plus depth for every top-level routine |
| `RoutineLines.KeyLengthIsMaximum` | src/reporters/DefaultReporter.ts:38-48 | calculateKeyLength is 0 for no routines and otherwise the maximum of key length plus depth over every routine of the tree, children one level deeper |
| `RoutineLines.CalculateTaskCompletion` | src/reporters/DefaultReporter.ts:53-55 | the completion count never exceeds the number of tasks (the same function is at src/DefaultReporter.ts:51-53) |
| `RoutineLines.CompletionCountsPassedAndSkipped` | src/reporters/DefaultReporter.ts:53-55 | the completion count is the number of passed tasks plus the number of skipped tasks |
| `RoutineLines.CompletionIsTotalIffAllCompleted` | src/reporters/DefaultReporter.ts:53-55 | every task is counted exactly when every task has passed or been skipped |
| `RoutineLines.DefaultReporter.constructor` | src/reporters/DefaultReporter.ts:18-20 | depth and key length start at 0, with no lines |
| `RoutineLines.DefaultReporter.HandleStart` | src/reporters/DefaultReporter.ts:90-92 | the key length becomes calculateKeyLength of the routines at depth 0 |
| `RoutineLines.DefaultReporter.HandleTask` | src/reporters/DefaultReporter.ts:98-106 | the task is appended to the first line of its routine only; with no such line every line is unchanged |
| `RoutineLines.DefaultReporter.HandleTaskComplete` | src/reporters/DefaultReporter.ts:108-116 | every occurrence of the task leaves the first line of its routine, its other tasks keep their order, and no other line changes |
| `RoutineLines.DefaultReporter.HandleRoutine` | src/reporters/DefaultReporter.ts:128-140 | a line with the current depth, the routine and no tasks is appended; depth grows by one only when not run in parallel |
| `RoutineLines.DefaultReporter.HandleRoutineComplete` | src/reporters/DefaultReporter.ts:142-152 | depth drops by one only when not run in parallel; the routine's lines are removed only when the new depth is positive and verbosity is below 3 |
| `RoutineLines.RoutinePairRestoresDepth` | src/reporters/DefaultReporter.ts:137-145 | a routine and its completion reported with the same flag leave the depth as it was |
| `TaskLines.KeyLength` | src/DefaultReporter.ts:40-46 | 0 for no routines, and at least the key length of every top-level routine |
| `TaskLines.KeyLengthIsLongestKey` | src/DefaultReporter.ts:40-46 | calculateKeyLength is 0 for no routines and otherwise the longest raw key over the whole subroutine tree, with no depth offset |
| `TaskLines.KeyLengthWithoutDepthIsNarrower` | src/DefaultReporter.ts:40-46 | this key width never exceeds the depth-offset width of src/reporters/DefaultReporter.ts for the same tree |
| `TaskLines.GetStatusColor` | src/DefaultReporter.ts:88-98 | yellow exactly for skipped, green exactly for passed, red exactly for failed, white exactly for unfinished statuses |
| `TaskLines.StatusColorAgreesWithPalette` | src/DefaultReporter.ts:88-98 | getStatusColor gives skipped yellow, passed green and failed red, which is the core reporter's default palette for the same statuses (packages/core/src/Reporter.ts:87-92), and white to unfinished statuses, where the palette has gray |
| `TaskLines.DefaultReporter.constructor` | src/DefaultReporter.ts:20-22 | depth and key length start at 0, with no lines |
| `TaskLines.DefaultReporter.HandleStart` | src/DefaultReporter.ts:100-102 | the key length becomes this reporter's calculateKeyLength of the routines |
| `TaskLines.DefaultReporter.HandleTask` | src/DefaultReporter.ts:108-114 | a line for the task at depth - 1 is appended |
| `TaskLines.DefaultReporter.HandleTaskComplete` | src/DefaultReporter.ts:116-119 | every line holding the task is removed, the others keep their order |
| `TaskLines.DefaultReporter.HandleRoutine` | src/DefaultReporter.ts:121-129 | a line for the routine at the current depth is appended, then depth grows by one |
| `TaskLines.DefaultReporter.HandleRoutineComplete` | src/DefaultReporter.ts:131-139 | depth drops by one and no line is removed |
| `Nyan.NextTick` | packages/reporter-nyan/src/NyanReporter.ts:124-130 | increaseTick keeps the tick within 1..4 |
| `Nyan.IsIntervalTick` | packages/reporter-nyan/src/NyanReporter.ts:132-134 | on a tick within 1..4, isInterval holds exactly on ticks 3 and 4 |
| `Nyan.TickCycles` | packages/reporter-nyan/src/NyanReporter.ts:124-134 | the tick cycles 1, 2, 3, 4, 1 (never stays, four steps return); isInterval holds exactly on ticks 3 and 4 and flips every two ticks |
| `Nyan.ColorChoice` | packages/reporter-nyan/src/NyanReporter.ts:65 | the colour index picks a position inside the colour list whenever the list is non-empty, and none for an empty list |
| `Nyan.PaintFor` | packages/reporter-nyan/src/NyanReporter.ts:60-69 | without colour support the glyph is left uncoloured (and only then); with support and colours it gets `rainbowColors[colorIndex mod length]` |
| `Nyan.Shift` | packages/reporter-nyan/src/NyanReporter.ts:112-114 | `shift` drops exactly the first glyph and keeps the rest in order; an empty line stays empty |
| `Nyan.Grow` | packages/reporter-nyan/src/NyanReporter.ts:108-119 | a rainbow line shorter than the width grows by the new glyph; once the width is reached the oldest glyph goes and the new one is appended; the new glyph is always last, and a line within capacity ends within capacity |
| `Nyan.RainbowKeepsNewest` | packages/reporter-nyan/src/NyanReporter.ts:108-119 | from empty, a rainbow line holds exactly the newest glyphs, as many as its width allows (at least one) |
| `Nyan.GrowWindow` | packages/reporter-nyan/src/NyanReporter.ts:112-116 | one frame moves the window of newest glyphs along by one |
| `Nyan.GrowBelowCapacity` | packages/reporter-nyan/src/NyanReporter.ts:112-116 | below its width a line keeps every glyph and gains the new one |
| `Nyan.GrowAtCapacity` | packages/reporter-nyan/src/NyanReporter.ts:112-116 | at its width a line drops its oldest glyph and gains the new one |
| `Nyan.CatEyes` | packages/reporter-nyan/src/NyanReporter.ts:87-106 | the failed flag forces 'x .x'; with no active routine and no failure the eyes are '- .-' |
| `Nyan.CatEyesAgreeWithColorType` | packages/reporter-nyan/src/NyanReporter.ts:87-106 | without the failed flag the eyes are '^ .^' exactly when the routine has the success colour type, 'x .x' exactly when it has the failure type, 'o .o' exactly when it is skipped or pending, and '- .-' exactly while it runs |
| `Nyan.NyanReporter.constructor` | packages/reporter-nyan/src/NyanReporter.ts:9-31 | four empty rainbow lines, tick 1, colour index 0, not failed, no active routine or task, and a rainbow width of the terminal columns minus twice the cat width of 11 |
| `Nyan.NyanReporter.HandleStop` | packages/reporter-nyan/src/NyanReporter.ts:47-50 | failed becomes true exactly when the stop carries an error |
| `Nyan.NyanReporter.HandleRoutine` | packages/reporter-nyan/src/NyanReporter.ts:52-54 | the latest routine becomes the active one |
| `Nyan.NyanReporter.HandleTask` | packages/reporter-nyan/src/NyanReporter.ts:56-58 | the latest task becomes the active one |
| `Nyan.NyanReporter.IsInterval` | packages/reporter-nyan/src/NyanReporter.ts:132-134 | on a tick within 1..4, the reporter is in its interval exactly on ticks 3 and 4 |
| `Nyan.NyanReporter.GetCatFace` | packages/reporter-nyan/src/NyanReporter.ts:87-106 | the face is crossed when the run failed; otherwise neutral with no active routine, and for the active routine's status: crossed when failed, 'o .o' when skipped or pending, happy when passed, neutral while running |
| `Nyan.NyanReporter.IncreaseTick` | packages/reporter-nyan/src/NyanReporter.ts:124-130 | the tick moves to NextTick and stays within 1..4 |
| `Nyan.NyanReporter.IncreaseRainbowWidth` | packages/reporter-nyan/src/NyanReporter.ts:108-122 | there are still exactly four lines, each within capacity; every line grows by the same glyph, '_' on an interval tick and '-' otherwise, coloured by the old colour index; the colour index grows by exactly 1 |
| `Nyan.NyanReporter.RenderLines` | packages/reporter-nyan/src/NyanReporter.ts:136-138 | the tick advances before the rainbow grows, so the glyph added follows the new tick |

## Findings

| source | as written | input that shows it | evidently intended | confidence | as-written member | corrected member |
|---|---|---|---|---|---|---|
| src/helpers/executeSequentially.js:19-33 | `promise` is a `const`; every `then` is attached to the promise of the initial value and the helper returns that promise | processes [1, 2], initial value 0, accumulator resolving to value + process: the second call receives 0 and the helper resolves to 0 | each call receives the previous call's output (the doc comment at lines 9-13), so the result is 3 | not executed; follows from the code as written | `Sequential.SequentialDoesNotChain` | `Sequential.ExecuteChained` |

The as-written helper is `Sequential.ExecuteSequentially`. The corrected
helper's fold property is `Sequential.ChainedIsFold`.

## Left out

- `Task.wrap` (src/Task.ts:147-149): a Promise `instanceof` test with no state.
- The `config` copy and the `subroutines`/`subtasks` fields of src/Task.ts: they are only initialised there.
- Tasks.Task.Run: not modelled are the later microtask in which the action runs, and a promise-valued input value, which `Promise.resolve` would adopt. The action's own effect on the context or on the task is not modelled either, because the action is a pure function.
- Tasks.Task.Spinner: the frames list is a parameter and must be non-empty, as elegant-spinner's always is. With no frames, the source would compute NaN.
- WorkUnits.CreateWorkUnit: the result is a description of the new task (title and possibly bound action). The pipeline's own Task constructor (packages/pipeline/src/Task.ts) is not part of this model, so any validation it does is not modelled. `bind` is modelled as pairing the function with its scope.
- Sequential.ExecuteSequentially: the initial value is taken as a plain value. `Promise.resolve(initialValue)` (src/helpers/executeSequentially.js:19) would adopt a promise or thenable, which the `Result = *` type (src/types.js:27) allows. With a rejecting initial promise the helper would reject and never call the accumulator, which this model does not capture.
- Sequential.ExecuteSequentially: unhandled rejections of the discarded promises are only recorded. When callbacks run relative to other code is not modelled.
- Concurrency: nothing kept depends on it. Promise resolution is a sequential call that returns an outcome.
- Rendering and styling, because they are terminal output built on chalk, cli-truncate and process.stdout: `style`, `displayError`, `getLineTitle`, `renderLine`, `renderTaskLine`, `renderRoutineLine`, the output string of `renderLines`, `handleRender`, `handleCommand`, and the escape codes `applyColor` wraps around the text.
- `getColorPalette`: only its default palette (packages/core/src/Reporter.ts:87-92) is modelled, as `CoreReporter.DefaultPalette`. Theme palettes depend on chalk's colour level.
- Clock and floating-point code: `getElapsedTime`, `handleBaseStart`/`handleBaseStop` and `generateColors`. The colour list is a parameter.
- `bootstrap`: event wiring. The nyan reporter's constructor takes the state that `bootstrap` computes. `handleStart` of the nyan reporter only queues output and hides the cursor.
- The unused `value`, `result` and `event` arguments of the default reporters' handlers.
- Line objects: the default reporter's lines are values. The source mutates a line object in place through `findLine`, but lines are created only by `addLine`, so no line object is shared.
- RoutineLines.KeyLength and TaskLines.KeyLength: a key's length is its number of Unicode characters. `routine.key.length` (src/reporters/DefaultReporter.ts:43, src/DefaultReporter.ts:43) counts UTF-16 code units, so a key with a character outside the Basic Multilingual Plane is one wider in the source than here.
- The default reporters append to their line lists inline. The source inherits `addLine` from packages/core/src/Reporter.ts. Removal reuses `CoreReporter.Without`, the function behind `removeLine`.
- calculateTaskCompletion is modelled over the tasks' statuses, because they are all it reads. It is defined once, in `RoutineLines`, and src/DefaultReporter.ts has the same function.
- `indent`: non-integer counts, which `repeat` truncates, are not modelled.
- packages/pipeline/src/Monitor.ts, packages/core/src/Pipeline.ts and packages/log/src/FileTransport.ts are not part of this model. They are event wiring, tool plumbing and file I/O over code that is not available.
- The executor strategies (serial, parallel, pool, synchronize) are not part of this model, because their implementation is not available.
