# junit4-parallel-runner: recorder, output multiplexer, class loader and lanes in Dafny

The parallel runner runs the child runners of a JUnit suite on several lanes at once. It keeps
their reports and their console output from interleaving in four ways:

- System.out is redirected to a `RunnerOutputStream`. That stream keeps one byte buffer per
  writing thread, plus a distinguished "general" buffer.
- Every child runs against a `RunNotifierRecorder`, a write-only stand-in for JUnit's
  `RunNotifier`. Each notification the child fires becomes an `Event` in an append-only log,
  together with the thread and general output captured since the previous event.
- Once the child is done, `runChild` enters a `synchronized` block. There it writes the child's
  prefix output and replays the log in order. Then it writes the thread's output left after the
  last event and rethrows the child's RuntimeException, if any. The general output left after
  the last event is not written (see Findings).
- Each suite gets its own lane and its own `ParallelRunnerClassLoader`. That loader defines the
  classes under the configured prefixes itself and delegates every other name to the shared
  parent. The constructor records which lane every child runner belongs to, and `laneOf`
  looks it up.

## Modules

- `common.dfy` (`Common`): bytes, `Option` (Java's `null`), `Result`, and the throwables of the
  core.
- `runner_output_stream.dfy` (`OutputStream`): the buffer map as `map<Key, seq<byte>>`. The
  writing thread is an explicit key, and `General` is the general bucket. The class
  `RunnerOutputStream` holds the three `write` overloads, `getAndReset`, and
  `getAndResetGeneral`.
- `notifier_recorder.dfy` (`Recording`): the `Method` enum, `Event`, and `writeSystemOut`. Also
  `replayEvent` and `replay` as functions plus methods, and the class `RunNotifierRecorder`.
  The original System.out and the real notifier are one `Console` transcript. JUnit's
  listeners print to that same console, so text and forwarded calls are ordered against each
  other.
- `child_run.dfy` (`ChildRunning`): what a child does inside `runner.run(recorder)`, modelled as
  a list of `Step`s: print through some writer, fire a notification, call a listener method,
  or throw. `Execute` is what recording those steps leaves behind, and `PlayChild` drives a
  real recorder with them. For a child that prints through one writer (its thread or the
  general bucket), `ExecuteRoundTrip` proves that replaying the log reproduces the child's
  output and notifications in program order.
- `class_loader.dfy` (`ClassLoading`): `isIsolated` and `loadClass`. A class is identified by
  its defining loader and its name (`ClassRef`).
- `suite_runner.dfy` (`SuiteRunner`): `runChild` as a function of the buffers it starts from,
  both as written and corrected (see Findings). Also the lane map, and the class
  `ParallelSuiteRunner` with its constructor, `laneOf` and `runChild`.

The two iterations of the runner share the same `RunNotifierRecorder`, `runChild` and
`writeSystemOut`, line for line. Compare `src/main/java/org/densmko/ParallelSuiteRunner.java:120-277` with
`src/main/java/org/densmnko/ParallelSuiteRunner.java:131-311`. The table cites one or the other.

Behaviour worth noting, as the code has it:

- Calling `replay` twice is not rejected. It replays the same log again.
- Only `RuntimeException` is caught around `runner.run`. An `Error` or a checked exception
  (such as ClassNotFoundException) escapes at once, and the recorded events are never replayed (`ChildRunRoundTrip`, second ensures).
- `runChild` never writes the general output left after the child's last event. That output
  stays in the general bucket (see Findings).
- `getAndResetGeneral` is not in `src/main/java/org/densmko/RunnerOutputStream.java`, yet
  `src/main/java/org/densmko/ParallelSuiteRunner.java:197,251` and `src/main/java/org/densmnko/ParallelSuiteRunner.java:208,284`
  call it. It is modelled as `getAndReset` on the `General` key.

## Model

| member | source | states |
|---|---|---|
| OutputStream.Appended | src/main/java/org/densmko/RunnerOutputStream.java:14-18 | the writer's buffer, created empty when absent, gets the bytes at its end; every other buffer is unchanged |
| OutputStream.WriteIsolation | src/main/java/org/densmko/RunnerOutputStream.java:12-18 | a write by one writer changes neither the contents nor the presence of any other writer's buffer |
| OutputStream.Take | src/main/java/org/densmko/RunnerOutputStream.java:32-42 | null exactly when the key never wrote; otherwise everything buffered; the buffer stays present but empty and no other buffer changes |
| OutputStream.TakeReturnsWritesSinceReset | src/main/java/org/densmko/RunnerOutputStream.java:32-42 | after a reset and a write, getAndReset returns exactly the bytes written since the reset |
| OutputStream.TakeTwice | src/main/java/org/densmko/RunnerOutputStream.java:33-41 | an immediate second getAndReset returns the empty string (null for a key that never wrote) and changes nothing |
| OutputStream.LowByte | src/main/java/org/densmko/RunnerOutputStream.java:26-30 | the byte kept for `write(int b)` is `b` modulo 256 |
| OutputStream.RunnerOutputStream.constructor | src/main/java/org/densmko/RunnerOutputStream.java:12 | the buffer map starts empty |
| OutputStream.RunnerOutputStream.Write | src/main/java/org/densmko/RunnerOutputStream.java:14-18 | the new map is the old one with all of `b` appended to the writer's buffer |
| OutputStream.RunnerOutputStream.WriteRange | src/main/java/org/densmko/RunnerOutputStream.java:20-24 | appends exactly `b[off..off+len]`; a bad range throws IndexOutOfBounds after the buffer has been created |
| OutputStream.RunnerOutputStream.WriteByte | src/main/java/org/densmko/RunnerOutputStream.java:26-30 | appends exactly one byte, the low eight bits of `b` |
| OutputStream.RunnerOutputStream.GetAndReset | src/main/java/org/densmko/RunnerOutputStream.java:32-42 | result and new map are those of `Take` |
| OutputStream.RunnerOutputStream.GetAndResetGeneral | src/main/java/org/densmnko/ParallelSuiteRunner.java:208 | the same take-and-clear on the general bucket |
| Recording.Forward | src/main/java/org/densmnko/ParallelSuiteRunner.java:218-251 | replayEvent's switch forwards a call exactly for the ten notification tags; the three listener tags fall into `default` |
| Recording.Tag | src/main/java/org/densmnko/ParallelSuiteRunner.java:147-205 | each fire method records a non-listener tag, and replaying that tag with the recorded parameter forwards the very same call |
| Recording.FireLine | src/main/java/org/densmnko/ParallelSuiteRunner.java:149-203 | defines each fire method's debug line: "notifier.", the method's name, the parameter's name and text, and a line separator; pleaseStop prints "notifier.pleaseStop()" alone |
| Recording.RemoveLine | src/main/java/org/densmnko/ParallelSuiteRunner.java:143 | defines removeListener's debug line: "notifier.removeListener(listener): ", the listener's text, and a line separator |
| Recording.WriteOut | src/main/java/org/densmnko/ParallelSuiteRunner.java:307-311 | nothing for null or the empty string, otherwise exactly that text as one write |
| Recording.WriteSystemOut | src/main/java/org/densmnko/ParallelSuiteRunner.java:307-311 | the console grows by exactly `WriteOut(s)` |
| Recording.EventReplay | src/main/java/org/densmnko/ParallelSuiteRunner.java:216-252 | throws exactly for a listener tag, with IllegalStateException "unhandled method " + the tag's name |
| Recording.EventReplayOrder | src/main/java/org/densmnko/ParallelSuiteRunner.java:216-249 | per event the console receives the general output, then the thread output, then the forwarded call |
| Recording.LogReplay | src/main/java/org/densmnko/ParallelSuiteRunner.java:212-214 | defines replay: each event in log order, stopping at the first that throws; the emitted output is the concatenation of the replayed events' output |
| Recording.LogReplayThrowsIff | src/main/java/org/densmnko/ParallelSuiteRunner.java:212-214 | replaying the log throws exactly when some event carries a listener tag |
| Recording.LogReplayAppend | src/main/java/org/densmnko/ParallelSuiteRunner.java:212-214 | replaying a log that runs through cleanly and then more events emits the first part's output, then the second part's |
| Recording.LogReplayStops | src/main/java/org/densmnko/ParallelSuiteRunner.java:212-214 | once an event has thrown, no later event is replayed |
| Recording.ReplayOfRecorded | src/main/java/org/densmnko/ParallelSuiteRunner.java:207-252 | an event recorded for a notification replays as its general output, its thread output and the same notification |
| Recording.Console.Append | src/main/java/org/densmnko/ParallelSuiteRunner.java:309 | `systemOut.append` adds one text to the end of the console |
| Recording.Console.Notify | src/main/java/org/densmnko/ParallelSuiteRunner.java:219-249 | a call on the real notifier adds that call to the end of the console |
| Recording.RunNotifierRecorder.constructor | src/main/java/org/densmnko/ParallelSuiteRunner.java:104-108 | stream, thread and System.out are those given; the log starts empty |
| Recording.RunNotifierRecorder.AddFirstListener | src/main/java/org/densmnko/ParallelSuiteRunner.java:132-134 | always UnsupportedOperationException "notifier.addFirstListener(listener)"; modifies nothing |
| Recording.RunNotifierRecorder.AddListener | src/main/java/org/densmnko/ParallelSuiteRunner.java:137-139 | always UnsupportedOperationException "notifier.addListener(listener)"; modifies nothing |
| Recording.RunNotifierRecorder.RemoveListener | src/main/java/org/densmnko/ParallelSuiteRunner.java:142-145 | prints its debug line naming the listener into the current thread's buffer, then always throws UnsupportedOperationException "notifier.removeListener(listener)"; records nothing |
| Recording.RunNotifierRecorder.Record | src/main/java/org/densmnko/ParallelSuiteRunner.java:207-210 | one event at the end of the log, carrying the thread's and then the general captured output; both buffers left empty |
| Recording.RunNotifierRecorder.Fire | src/main/java/org/densmnko/ParallelSuiteRunner.java:147-205 | each fire method and pleaseStop prints its debug line into the current thread's buffer, then appends exactly one event with its own tag and its parameter unchanged (null for pleaseStop), so the event's output ends with that line; earlier events untouched |
| Recording.RunNotifierRecorder.ReplayEvent | src/main/java/org/densmnko/ParallelSuiteRunner.java:216-252 | the console grows by `EventReplay(e)` and the method throws what it throws |
| Recording.RunNotifierRecorder.Replay | src/main/java/org/densmko/ParallelSuiteRunner.java:201-203 | the loop over the log emits `LogReplay(events)` and stops with its throwable |
| ChildRunning.Execute | src/main/java/org/densmnko/ParallelSuiteRunner.java:131-210 | defines what `runner.run(recorder)` at line 288 leaves: prints append to their writer's buffer; each fire method prints its debug line through the thread and records one event taking both buffers; removeListener leaves its debug line; the first escaping rejection or throw ends the run |
| ChildRunning.ExecuteOutcome | src/main/java/org/densmnko/ParallelSuiteRunner.java:131-210 | what escapes `runner.run(recorder)` is the child's first escaping listener rejection or its own throwable; no recorded event carries a listener tag |
| ChildRunning.RecordedLogReplaysCleanly | src/main/java/org/densmnko/ParallelSuiteRunner.java:250-251 | replaying a log the recorder built never reaches replayEvent's default branch |
| ChildRunning.PlayChild | src/main/java/org/densmnko/ParallelSuiteRunner.java:286-288 | driving the recorder with the child's steps leaves the buffers, log and thrown value `Execute` describes |
| ChildRunning.ExecuteRoundTrip | src/main/java/org/densmko/ParallelSuiteRunner.java:130-241 | for a child printing through one writer, the replayed log followed by that writer's leftover buffer is exactly its output and its notifications, each preceded by its debug line, in program order |
| Common.Throwable.IsRuntime | src/main/java/org/densmnko/ParallelSuiteRunner.java:289 | defines what `catch (RuntimeException e)` catches: every throwable of the model except an Error and the checked ClassNotFoundException |
| SuiteRunner.Prefix | src/main/java/org/densmnko/ParallelSuiteRunner.java:281-284 | the prefix writes the thread's earlier output with the banner at its end, then the earlier general output, and leaves both buffers empty |
| SuiteRunner.Postfix | src/main/java/org/densmnko/ParallelSuiteRunner.java:296-299 | postfix writes the thread's buffer; postfixGen writes the general buffer only when read with getAndResetGeneral, and otherwise leaves it untouched |
| SuiteRunner.Merge | src/main/java/org/densmnko/ParallelSuiteRunner.java:286-303 | defines the catch and the synchronized block: an uncaught throwable escapes with nothing written; otherwise prefix, replay, and, unless the replay throws, the postfix pair, then the caught exception is rethrown |
| SuiteRunner.ChildRunAsWritten | src/main/java/org/densmnko/ParallelSuiteRunner.java:279-304 | defines runChild as written: banner and prefix takes, the child's run, and the merge block with postfixGen read by a second getAndReset(currentThread) |
| SuiteRunner.ChildRun | src/main/java/org/densmnko/ParallelSuiteRunner.java:279-304 | defines runChild as corrected: the same, with postfixGen read by getAndResetGeneral |
| SuiteRunner.MergeRoundTrip | src/main/java/org/densmnko/ParallelSuiteRunner.java:292-303 | after the prefix, the corrected merge block writes the replay then the writer's leftover output, drains both buffers and rethrows the caught exception |
| SuiteRunner.MergeAsWritten | src/main/java/org/densmnko/ParallelSuiteRunner.java:296-299 | as written, the merge block leaves the general buffer unwritten; the corrected block writes exactly those bytes last |
| SuiteRunner.CheckedExceptionEscapesSilently | src/main/java/org/densmnko/ParallelSuiteRunner.java:286-291 | concrete input: a child throwing ClassNotFoundException, a checked exception; runChild writes nothing, not even the banner, and throws it |
| SuiteRunner.MergeAgrees | src/main/java/org/densmnko/ParallelSuiteRunner.java:296-299 | with an empty general buffer the two readings of postfixGen give the same outcome |
| SuiteRunner.ChildRunRoundTrip | src/main/java/org/densmnko/ParallelSuiteRunner.java:279-304 | the corrected runChild throws exactly what the child raised; an Error or a checked exception escapes before any output; otherwise, for a child that prints through one writer (its thread or the general bucket), earlier output, banner, and the child's output and notifications reach the console in program order, and both buffers end empty |
| SuiteRunner.ChildRunAsWrittenRoundTrip | src/main/java/org/densmko/ParallelSuiteRunner.java:246-270 | for a child that prints only through its own thread, runChild as written and corrected agree entirely |
| SuiteRunner.AsWrittenKeepsTrailingGeneral | src/main/java/org/densmnko/ParallelSuiteRunner.java:298 | as written, general output after the child's last event stays in the general bucket and is not written; the corrected runChild writes exactly it at the end |
| SuiteRunner.AsWrittenLeavesGeneralOutput | src/main/java/org/densmnko/ParallelSuiteRunner.java:298 | concrete input: a child printing byte 7 to the general bucket; as written only the banner is written and 7 stays in the general bucket, corrected both are written |
| SuiteRunner.Flatten | src/main/java/org/densmnko/ParallelSuiteRunner.java:74 | the children list holds exactly the runners of all suites |
| SuiteRunner.Put | src/main/java/org/densmnko/ParallelSuiteRunner.java:75 | every runner of the suite is put with the suite's lane; other entries are unchanged |
| SuiteRunner.LaneMap | src/main/java/org/densmko/ParallelSuiteRunner.java:52-58 | the map's keys are exactly the runners of the suites, and each maps to the last suite that contains it |
| SuiteRunner.LaneOfSuiteMember | src/main/java/org/densmnko/ParallelSuiteRunner.java:64-76 | when no runner is in two suites, every runner built from suite `i` is in lane `i` |
| SuiteRunner.BuildLanes | src/main/java/org/densmnko/ParallelSuiteRunner.java:64-76 | the constructor's nested loops build exactly `Flatten` and `LaneMap` |
| SuiteRunner.ParallelSuiteRunner.constructor | src/main/java/org/densmnko/ParallelSuiteRunner.java:53-85 | one fresh loader per suite with lane `i`, the context loader as parent and the isolate list; the lane map; a fresh empty output stream |
| SuiteRunner.ParallelSuiteRunner.LaneOf | src/main/java/org/densmnko/ParallelSuiteRunner.java:333-335 | succeeds exactly for a runner of some suite, with the lane of the last suite containing it; NullPointerException otherwise |
| SuiteRunner.ParallelSuiteRunner.RunChild | src/main/java/org/densmnko/ParallelSuiteRunner.java:279-304 | buffers, console and thrown value are those of the corrected `ChildRun` (postfixGen read with getAndResetGeneral) |
| SuiteRunner.ParallelSuiteRunner.WriteResults | src/main/java/org/densmnko/ParallelSuiteRunner.java:292-303 | the synchronized block writes prefix and replay; if the replay throws it stops there, otherwise it writes the postfix and rethrows the caught exception |
| SuiteRunner.ParallelSuiteRunner.WritePostfix | src/main/java/org/densmnko/ParallelSuiteRunner.java:296-299 | buffers and console are those of the corrected `Postfix` |
| ClassLoading.FindOrDefine | src/main/java/org/densmnko/ParallelRunnerClassLoader.java:22-24 | returns the class already defined under the name, or defines it from the class path, or ClassNotFoundException; existing entries are never changed |
| ClassLoading.LoadIsStable | src/main/java/org/densmnko/ParallelRunnerClassLoader.java:22-24 | loading a name again from the same loader returns the same class and defines nothing new, so statics are shared within a lane |
| ClassLoading.LanesNeverShareIsolatedClasses | src/main/java/org/densmnko/ParallelRunnerClassLoader.java:13-24 | two lane loaders never return the same isolated class |
| ClassLoading.SharedLoader.LoadClass | src/main/java/org/densmnko/ParallelRunnerClassLoader.java:26 | the parent resolves a name through its own table or class path |
| ClassLoading.ParallelRunnerClassLoader.constructor | src/main/java/org/densmnko/ParallelRunnerClassLoader.java:13-18 | lane, parent and isolate are the given ones (constants from then on); the class path is the parent's; nothing is loaded yet |
| ClassLoading.ParallelRunnerClassLoader.IsIsolated | src/main/java/org/densmnko/ParallelRunnerClassLoader.java:29-38 | true exactly when a prefix list is configured and one of its entries starts the name; so false for a null or empty list |
| ClassLoading.ParallelRunnerClassLoader.LoadClass | src/main/java/org/densmnko/ParallelRunnerClassLoader.java:20-27 | an isolated name goes to this loader's own table, leaving the parent alone; any other name goes to the parent, leaving this loader's table alone |

## Left out

- Concurrency is not modelled. That covers `NaiveScheduler` (its executors, `Phaser` and
  thread factory), `runChildren`, `ParallelRunnable` and the `synchronized` lock. Each child's
  merge block is one atomic step.
- The scheduler's routing rule is not modelled: it rejects a task that is not a
  `ParallelRunnable` and otherwise routes it by `laneOf`.
- Redirecting System.out is not modelled: `System.setOut`, `PrintStream`, `flush`, and the
  default-charset decoding in `getAndReset`. Output stays bytes, and a returned String is
  modelled as the bytes it decodes.
- The debug lines of the fire methods and of `removeListener` are modelled with these
  assumptions:
  - the parameter's or listener's `toString` is an input (`shown`);
  - the line separator is a single line feed;
  - the literal text is ASCII, so the default charset encodes it byte for byte;
  - the line is printed by the thread the recorder was made for.
- The banner line that `runChild` prints is a parameter. Its text comes from `Thread.toString`
  and `Description.toString`, which are JUnit and JVM code.
- `runner.run(recorder)` is foreign code. It is modelled by the `Step` list a child performs.
  Which thread the general bucket's output comes from is not visible in the code shown.
- The real RunNotifier's behaviour is not modelled. That covers its listeners, a
  StoppedByUserException after `pleaseStop`, and throwables raised while replaying.
  `Console.Notify` only records the call, and the `notifier` argument of `runChild` is that
  same console.
- The casts in `replayEvent` cannot fail for recorded events, because each fire method's
  parameter already has the right type. Parameters are opaque references.
- These constructor steps are left out:
  - the InitializationError for a class without a `Suites` annotation;
  - the `getSuites` helper of the earlier iteration;
  - `Class.forName` of each suite class through its lane loader;
  - `RunnerBuilder.runners`.

  The runners each suite produces are an input, identified by number.
- A parent that is not a `URLClassLoader` would make the loader's constructor throw a
  ClassCastException. That is not modelled. The URLs are modelled as the set of class names
  they provide, and defining a class cannot fail except by ClassNotFoundException.
- `write` with a null array is not modelled; it throws NullPointerException in Java.
- `src/main/java/org/densmko/ParallelSuite.java` is not part of this model.
- ExecuteRoundTrip: the program-order round trip is stated for a child that prints through one
  writer only. When that writer is the general bucket, the child must not call
  `removeListener`, whose debug line goes to the thread's buffer. When the thread and the
  general bucket both receive output between two events, the general part is replayed first
  (`EventReplayOrder`), not in program order.
- ChildRunRoundTrip: stated for a child that prints through one writer only, for the same
  reason as ExecuteRoundTrip.

## Findings

| source | as written | input that shows it | evidently intended | confidence | as-written member | corrected member |
|---|---|---|---|---|---|---|
| src/main/java/org/densmnko/ParallelSuiteRunner.java:298 (also src/main/java/org/densmko/ParallelSuiteRunner.java:265) | `postfixGen` is read with `getAndReset(currentThread)` from the thread buffer that `postfix` emptied one line before. It is always empty or null. The general output produced after the child's last event is not written by this child and stays in the general bucket; a later `record` or `prefixGen` may pick it up, and after the last child it is never written. | empty buffers, thread 0, banner `[1]`, a child that prints byte 7 to the general bucket and fires nothing: only `[1]` is written, and `[7]` stays buffered for whichever child runs next | `getAndResetGeneral()`, mirroring `prefixGen` at line 284, so the trailing general output is written after the replay and the bucket is left empty | high; not executed | SuiteRunner.ChildRunAsWritten, with SuiteRunner.AsWrittenLeavesGeneralOutput and SuiteRunner.AsWrittenKeepsTrailingGeneral | SuiteRunner.ChildRun with SuiteRunner.ChildRunRoundTrip, implemented by SuiteRunner.ParallelSuiteRunner.RunChild |
