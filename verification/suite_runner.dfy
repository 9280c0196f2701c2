/**
  ParallelSuiteRunner: the lane map built by the constructor, `laneOf`, and `runChild`, which runs
  one child runner against a fresh recorder and then, as one atomic step, writes the child's
  prefix output, replays its recorded events and writes the thread's output left after the last
  event (the general output left then is written only by the corrected reading of postfixGen).
*/
module SuiteRunner {
  import opened Common
  import opened OutputStream
  import opened Recording
  import opened ClassLoading
  import opened ChildRunning

  // ---------------------------------------------------------------------------------------------
  // runChild as a function of the buffers it starts from

  /** What a pair of takes wrote to the console, and the buffers they left. */
  datatype Drained = Drained(emitted: seq<Emission>, rest: Buffers)

  /** The banner runChild prints to the redirected System.out, then `prefix := getAndReset(currentThread)`
      and `prefixGen := getAndResetGeneral()`, written in that order: the thread's earlier output
      with the banner at its end, then the earlier general output. Both buffers are left empty
      for the child. */
  function Prefix(m0: Buffers, tid: nat, banner: seq<byte>): (d: Drained)
    ensures Flat(d.emitted) == Bytes(Contents(m0, Thread(tid)) + banner) + Bytes(Contents(m0, General))
    ensures Contents(d.rest, Thread(tid)) == [] && Contents(d.rest, General) == []
  {
    var prefix := Take(Appended(m0, Thread(tid), banner), Thread(tid));
    var prefixGen := Take(prefix.rest, General);
    WriteIsolation(m0, Thread(tid), banner, General);
    FlatAppend(WriteOut(prefix.output), WriteOut(prefixGen.output));
    Drained(WriteOut(prefix.output) + WriteOut(prefixGen.output), prefixGen.rest)
  }

  /** `postfix := getAndReset(currentThread)` and then `postfixGen`, each written as it is read.
      With `drainGeneral` postfixGen is getAndResetGeneral(); without it, it is the second
      getAndReset(currentThread) of the source, which finds the buffer `postfix` just emptied
      and leaves the general bucket as it was. */
  function Postfix(rs: Buffers, tid: nat, drainGeneral: bool): (d: Drained)
    ensures Flat(d.emitted) == Bytes(Contents(rs, Thread(tid))) + (if drainGeneral then Bytes(Contents(rs, General)) else [])
    ensures Contents(d.rest, Thread(tid)) == []
    ensures Contents(d.rest, General) == if drainGeneral then [] else Contents(rs, General)
  {
    var postfix := Take(rs, Thread(tid));
    var postfixGen := Take(postfix.rest, if drainGeneral then General else Thread(tid));
    assert Bytes([]) == [];
    FlatAppend(WriteOut(postfix.output), WriteOut(postfixGen.output));
    Drained(WriteOut(postfix.output) + WriteOut(postfixGen.output), postfixGen.rest)
  }

  /** What runChild leaves behind: the buffers, what reached the console, and what it throws. */
  datatype ChildOutcome = ChildOutcome(streams: Buffers, emitted: seq<Emission>, thrown: Option<Throwable>)

  /** `runner.run(recorder)` on the buffers the prefix takes left. */
  function ChildExecution(m0: Buffers, tid: nat, banner: seq<byte>, child: seq<Step>): Run {
    Execute(Prefix(m0, tid, banner).rest, Thread(tid), child)
  }

  /** runChild's `synchronized` block, after the child has run: unless the child threw an error
      that `catch (RuntimeException e)` does not catch, which escapes before a byte is written,
      the prefix output, the replay of the log, and the postfix output. A replay that throws
      ends the block early; otherwise the caught exception is rethrown at the end. */
  function Merge(head: seq<Emission>, run: Run, tid: nat, drainGeneral: bool): ChildOutcome {
    if run.thrown.Some? && !run.thrown.value.IsRuntime() then
      ChildOutcome(run.streams, [], run.thrown)
    else
      var replay := LogReplay(run.events);
      if replay.thrown.Some? then
        ChildOutcome(run.streams, head + replay.emitted, replay.thrown)
      else
        var post := Postfix(run.streams, tid, drainGeneral);
        ChildOutcome(post.rest, head + replay.emitted + post.emitted, run.thrown)
  }

  /** runChild: the banner and the prefix takes, the child's run, then the merge block. */
  function RunChildWith(m0: Buffers, tid: nat, banner: seq<byte>, child: seq<Step>, drainGeneral: bool): ChildOutcome {
    Merge(Prefix(m0, tid, banner).emitted, ChildExecution(m0, tid, banner, child), tid, drainGeneral)
  }

  /** runChild as written: the second getAndReset(currentThread). */
  function ChildRunAsWritten(m0: Buffers, tid: nat, banner: seq<byte>, child: seq<Step>): ChildOutcome {
    RunChildWith(m0, tid, banner, child, false)
  }

  /** runChild as its naming and its prefix step intend: postfixGen is getAndResetGeneral(). */
  function ChildRun(m0: Buffers, tid: nat, banner: seq<byte>, child: seq<Step>): ChildOutcome {
    RunChildWith(m0, tid, banner, child, true)
  }

  // ---------------------------------------------------------------------------------------------
  // runChild's emission order

  lemma OutcomeFlat(head: seq<Emission>, replay: seq<Emission>, tail: seq<Emission>)
    ensures Flat(head + replay + tail) == Flat(head) + Flat(replay) + Flat(tail)
  {
    FlatAppend(head + replay, tail);
    FlatAppend(head, replay);
  }

  /** The merge block on a run whose replay does not throw and whose output is all `w`'s:
      what reaches the console after the prefix is exactly the replayed tokens followed by what
      `w` still has buffered, and both buffers end up empty. */
  lemma MergeRoundTrip(head: seq<Emission>, run: Run, tid: nat, w: Key)
    requires w == Thread(tid) || w == General
    requires !(run.thrown.Some? && !run.thrown.value.IsRuntime())
    requires LogReplay(run.events).thrown.None?
    requires Contents(run.streams, Other(tid, w)) == []
    ensures var o := Merge(head, run, tid, true);
            && o.thrown == run.thrown
            && Flat(o.emitted) == Flat(head) + (Flat(LogReplay(run.events).emitted) + Bytes(Contents(run.streams, w)))
            && Contents(o.streams, Thread(tid)) == [] && Contents(o.streams, General) == []
  {
    var replay := LogReplay(run.events).emitted;
    var post := Postfix(run.streams, tid, true);
    OutcomeFlat(head, replay, post.emitted);
    var mine := Bytes(Contents(run.streams, w));
    assert Flat(post.emitted) == mine by {
      assert Bytes([]) == [];
      if w == General {
        assert [] + mine == mine;
      } else {
        assert mine + [] == mine;
      }
    }
    Associative(Flat(head), Flat(replay), mine);
  }

  /** The merge block as written differs from the corrected one only in the general bucket: it
      leaves behind, unwritten, what the child had buffered there after its last notification. */
  lemma MergeAsWritten(head: seq<Emission>, run: Run, tid: nat)
    requires !(run.thrown.Some? && !run.thrown.value.IsRuntime())
    requires LogReplay(run.events).thrown.None?
    ensures var fixed := Merge(head, run, tid, true);
            var asWritten := Merge(head, run, tid, false);
            && fixed.thrown == asWritten.thrown
            && Contents(asWritten.streams, General) == Contents(run.streams, General)
            && Contents(fixed.streams, General) == []
            && Flat(fixed.emitted) == Flat(asWritten.emitted) + Bytes(Contents(run.streams, General))
  {
    var replay := LogReplay(run.events).emitted;
    var fixed := Postfix(run.streams, tid, true);
    var asWritten := Postfix(run.streams, tid, false);
    OutcomeFlat(head, replay, fixed.emitted);
    OutcomeFlat(head, replay, asWritten.emitted);
    var front := Flat(head) + Flat(replay);
    var mine := Bytes(Contents(run.streams, Thread(tid)));
    var trailing := Bytes(Contents(run.streams, General));
    assert Flat(asWritten.emitted) == mine + [] == mine;
    Associative(front, mine, trailing);
  }

  /** runChild (corrected) on a child that prints through one writer `w`. What escapes is exactly
      what the child raised; an Error or a checked exception escapes before anything reaches the console;
      otherwise the console receives the thread's earlier output and the banner, then the
      earlier general output, then everything the child printed and fired, in program order,
      and both buffers are left empty. */
  lemma ChildRunRoundTrip(m0: Buffers, tid: nat, banner: seq<byte>, child: seq<Step>, w: Key)
    requires w == Thread(tid) || w == General
    requires NoPrintsBy(child, Thread(tid), Other(tid, w))
    ensures ChildRun(m0, tid, banner, child).thrown == Raised(child)
    ensures Raised(child).Some? && !Raised(child).value.IsRuntime() ==> ChildRun(m0, tid, banner, child).emitted == []
    ensures !(Raised(child).Some? && !Raised(child).value.IsRuntime()) ==>
              && Flat(ChildRun(m0, tid, banner, child).emitted)
                 == Bytes(Contents(m0, Thread(tid)) + banner) + Bytes(Contents(m0, General)) + FlatChild(child, Thread(tid), w)
              && Contents(ChildRun(m0, tid, banner, child).streams, Thread(tid)) == []
              && Contents(ChildRun(m0, tid, banner, child).streams, General) == []
  {
    var pre := Prefix(m0, tid, banner);
    var run := ChildExecution(m0, tid, banner, child);
    ExecuteOutcome(pre.rest, Thread(tid), child);
    RecordedLogReplaysCleanly(pre.rest, Thread(tid), child);
    if !(run.thrown.Some? && !run.thrown.value.IsRuntime()) {
      ExecuteRoundTrip(pre.rest, tid, child, w);
      assert Bytes([]) == [] && [] + FlatChild(child, Thread(tid), w) == FlatChild(child, Thread(tid), w);
      MergeRoundTrip(pre.emitted, run, tid, w);
    }
  }

  /** A checked exception is not caught by `catch (RuntimeException e)`: it escapes runChild
      before the banner or anything else reaches the console, and nothing is drained. */
  lemma CheckedExceptionEscapesSilently()
    ensures ChildRun(map[], 0, [1], [Raise(ClassNotFound("x"))])
         == ChildOutcome(map[Thread(0) := []], [], Some(ClassNotFound("x")))
  {
    var pre := Prefix(map[], 0, [1]);
    assert Contents(map[], Thread(0)) + [1] == [1];
    assert Take(Appended(map[], Thread(0), [1]), Thread(0)).output == Some([1]);
    assert pre.rest == map[Thread(0) := []];
  }

  /** With nothing left in the general bucket, the two readings of postfixGen agree. */
  lemma MergeAgrees(head: seq<Emission>, run: Run, tid: nat)
    requires Contents(run.streams, General) == []
    ensures Merge(head, run, tid, false) == Merge(head, run, tid, true)
  {
    var postfix := Take(run.streams, Thread(tid));
    TakeTwice(run.streams, Thread(tid));
    assert Contents(postfix.rest, General) == [];
    assert Take(postfix.rest, General).output.GetOr([]) == [];
    if General in postfix.rest {
      assert postfix.rest[General := []] == postfix.rest;
    }
  }

  /** runChild as written on a child that prints through its own thread only: the same outcome,
      because the general bucket it forgets to drain stays empty. */
  lemma ChildRunAsWrittenRoundTrip(m0: Buffers, tid: nat, banner: seq<byte>, child: seq<Step>)
    requires NoPrintsBy(child, Thread(tid), General)
    ensures ChildRunAsWritten(m0, tid, banner, child) == ChildRun(m0, tid, banner, child)
  {
    var pre := Prefix(m0, tid, banner);
    ExecuteRoundTrip(pre.rest, tid, child, Thread(tid));
    MergeAgrees(pre.emitted, ChildExecution(m0, tid, banner, child), tid);
  }

  /** As written, the general output a child produces after its last notification is neither
      written nor drained by this child: it is left in the general bucket, while the corrected
      runChild writes exactly those bytes at the end and leaves the bucket empty. */
  lemma AsWrittenKeepsTrailingGeneral(m0: Buffers, tid: nat, banner: seq<byte>, child: seq<Step>)
    requires !(Raised(child).Some? && !Raised(child).value.IsRuntime())
    ensures var trailing := Contents(ChildExecution(m0, tid, banner, child).streams, General);
            && Contents(ChildRunAsWritten(m0, tid, banner, child).streams, General) == trailing
            && Contents(ChildRun(m0, tid, banner, child).streams, General) == []
            && Flat(ChildRun(m0, tid, banner, child).emitted)
               == Flat(ChildRunAsWritten(m0, tid, banner, child).emitted) + Bytes(trailing)
  {
    var pre := Prefix(m0, tid, banner);
    ExecuteOutcome(pre.rest, Thread(tid), child);
    RecordedLogReplaysCleanly(pre.rest, Thread(tid), child);
    MergeAsWritten(pre.emitted, ChildExecution(m0, tid, banner, child), tid);
  }

  /** The smallest input that shows the lost output: a child that prints one byte to the
      general bucket and fires nothing. */
  lemma AsWrittenLeavesGeneralOutput()
    ensures ChildRunAsWritten(map[], 0, [1], [Print(General, [7])]).emitted == [Text([1])]
    ensures Contents(ChildRunAsWritten(map[], 0, [1], [Print(General, [7])]).streams, General) == [7]
    ensures ChildRun(map[], 0, [1], [Print(General, [7])]).emitted == [Text([1]), Text([7])]
  {
    var child := [Print(General, [7])];
    var pre := Prefix(map[], 0, [1]);
    assert Contents(map[], Thread(0)) + [1] == [1];
    assert Take(Appended(map[], Thread(0), [1]), Thread(0)).output == Some([1]);
    assert pre == Drained([Text([1])], map[Thread(0) := []]);
    assert Contents(pre.rest, General) + [7] == [7];
    var streams := map[Thread(0) := [], General := [7]];
    assert Appended(pre.rest, General, [7]) == streams;
    assert Execute(pre.rest, Thread(0), child) == Execute(streams, Thread(0), child[1..]);
    assert child[1..] == [];
    var run := Run(streams, [], None);
    assert ChildExecution(map[], 0, [1], child) == run;
    assert LogReplay([]) == ReplayResult([], None);
    assert Postfix(streams, 0, false) == Drained([], streams);
    assert Postfix(streams, 0, true).emitted == [Text([7])];
    assert [Text([1])] + [] + [] == [Text([1])];
    assert [Text([1])] + [] + [Text([7])] == [Text([1]), Text([7])];
  }

  // ---------------------------------------------------------------------------------------------
  // Lanes

  /** A child runner, by identity (the builder that creates runners is not modelled). */
  type RunnerId = nat

  /** `runners.addAll(laneRunners)` over all suites: the children in suite order. */
  function Flatten(suites: seq<seq<RunnerId>>): (runners: seq<RunnerId>)
    ensures forall r :: r in runners <==> exists i :: 0 <= i < |suites| && r in suites[i]
  {
    if suites == [] then []
    else
      var front := suites[..|suites| - 1];
      var ih := Flatten(front);
      assert forall i :: 0 <= i < |front| ==> front[i] == suites[i];
      ih + suites[|suites| - 1]
  }

  /** `laneRunners.forEach(r -> runnersLanes.put(r, lane))` */
  function Put(lanes: map<RunnerId, nat>, rs: seq<RunnerId>, lane: nat): (r: map<RunnerId, nat>)
    ensures r.Keys == lanes.Keys + set x | x in rs
    ensures forall x :: x in rs ==> r[x] == lane
    ensures forall x :: x in lanes && x !in rs ==> r[x] == lanes[x]
  {
    if rs == [] then lanes
    else
      var front := rs[..|rs| - 1];
      assert forall x :: x in rs ==> x in front || x == rs[|rs| - 1];
      Put(lanes, front, lane)[rs[|rs| - 1] := lane]
  }

  /** `r` is in suite `i` and in no later suite. */
  ghost predicate LastIn(suites: seq<seq<RunnerId>>, i: int, r: RunnerId) {
    0 <= i < |suites| && r in suites[i] && forall j :: i < j < |suites| ==> r !in suites[j]
  }

  /** `lanes` holds exactly the runners of the suites; each is mapped to the last suite that
      contains it (a later `put` overwrites an earlier one). */
  ghost predicate IsLaneMap(suites: seq<seq<RunnerId>>, lanes: map<RunnerId, nat>) {
    && (forall r :: r in lanes <==> exists i :: 0 <= i < |suites| && r in suites[i])
    && (forall r, i :: LastIn(suites, i, r) ==> r in lanes && lanes[r] == i)
  }

  /** Putting the runners of one more suite with its own lane keeps the map a lane map. */
  lemma PutSuite(suites: seq<seq<RunnerId>>, lanes: map<RunnerId, nat>)
    requires suites != [] && IsLaneMap(suites[..|suites| - 1], lanes)
    ensures IsLaneMap(suites, Put(lanes, suites[|suites| - 1], |suites| - 1))
  {
    var n := |suites| - 1;
    var front := suites[..n];
    var r' := Put(lanes, suites[n], n);
    assert forall i :: 0 <= i < n ==> front[i] == suites[i];
    forall r, i | LastIn(suites, i, r)
      ensures r in r' && r'[r] == i
    {
      if i < n {
        assert LastIn(front, i, r);
      }
    }
  }

  /** The runner-to-lane map the constructor builds: a runner of suite `i` is put with lane `i`. */
  function LaneMap(suites: seq<seq<RunnerId>>): (lanes: map<RunnerId, nat>)
    ensures IsLaneMap(suites, lanes)
  {
    if suites == [] then map[]
    else
      var n := |suites| - 1;
      var ih := LaneMap(suites[..n]);
      PutSuite(suites, ih);
      Put(ih, suites[n], n)
  }

  /** When no runner appears in two suites, every runner built from suite `i` is in lane `i`. */
  lemma LaneOfSuiteMember(suites: seq<seq<RunnerId>>, i: nat, r: RunnerId)
    requires forall j, k :: 0 <= j < k < |suites| ==> forall x :: x in suites[j] ==> x !in suites[k]
    requires i < |suites| && r in suites[i]
    ensures r in LaneMap(suites) && LaneMap(suites)[r] == i
  {
    assert LastIn(suites, i, r);
  }

  /** The constructor's loop over the suites: the children list and the lane map. */
  method BuildLanes(suites: seq<seq<RunnerId>>) returns (runners: seq<RunnerId>, lanes: map<RunnerId, nat>)
    ensures runners == Flatten(suites) && lanes == LaneMap(suites)
  {
    runners, lanes := [], map[];
    for i := 0 to |suites|
      invariant runners == Flatten(suites[..i]) && lanes == LaneMap(suites[..i])
    {
      assert suites[..i + 1][..i] == suites[..i];
      ghost var before := lanes;
      runners := runners + suites[i];
      for j := 0 to |suites[i]|
        invariant lanes == Put(before, suites[i][..j], i)
      {
        assert suites[i][..j + 1][..j] == suites[i][..j];
        lanes := lanes[suites[i][j] := i];
      }
      assert suites[i][..|suites[i]|] == suites[i];
    }
    assert suites[..|suites|] == suites;
  }

  class ParallelSuiteRunner {
    /** The runners the builder produced for each suite, in order. */
    ghost const suites: seq<seq<RunnerId>>
    const runners: seq<RunnerId>
    const runnersLanes: map<RunnerId, nat>
    const classLoaders: seq<ParallelRunnerClassLoader>
    /** The original System.out, and through it the console the real notifier reports to. */
    const systemOut: Console
    /** The stream System.out is redirected to. */
    const runnerStream: RunnerOutputStream

    ghost predicate Valid()
      reads this
    {
      runners == Flatten(suites) && runnersLanes == LaneMap(suites)
    }

    /** One lane and one isolating class loader per suite, all under the context class loader. */
    constructor (suites: seq<seq<RunnerId>>, isolate: Option<seq<string>>, parentLoader: SharedLoader, systemOut: Console)
      requires parentLoader.Valid()
      ensures Valid() && this.suites == suites && this.systemOut == systemOut
      ensures |classLoaders| == |suites|
      ensures forall i :: 0 <= i < |classLoaders| ==>
                && fresh(classLoaders[i]) && classLoaders[i].Valid()
                && classLoaders[i].lane == i && classLoaders[i].parent == parentLoader
                && classLoaders[i].isolate == isolate && classLoaders[i].loaded == map[]
      ensures fresh(runnerStream) && runnerStream.streams == map[]
    {
      var loaders: seq<ParallelRunnerClassLoader> := [];
      for i := 0 to |suites|
        invariant |loaders| == i
        invariant forall j :: 0 <= j < i ==>
                    && fresh(loaders[j]) && loaders[j].Valid()
                    && loaders[j].lane == j && loaders[j].parent == parentLoader
                    && loaders[j].isolate == isolate && loaders[j].loaded == map[]
      {
        var loader := new ParallelRunnerClassLoader(i, parentLoader, isolate);
        loaders := loaders + [loader];
      }
      var rs, lanes := BuildLanes(suites);
      this.suites := suites;
      runners := rs;
      runnersLanes := lanes;
      classLoaders := loaders;
      this.systemOut := systemOut;
      runnerStream := new RunnerOutputStream();
    }

    /** laneOf: the lane of the last suite the runner was built for; unboxing the `null` that
        the map returns for any other runner throws NullPointerException. */
    function LaneOf(runner: RunnerId): (lane: Result<nat>)
      requires Valid()
      reads this
      ensures lane.Success? <==> exists i :: 0 <= i < |suites| && runner in suites[i]
      ensures lane.Failure? ==> lane.error == NullPointer
      ensures forall i :: LastIn(suites, i, runner) ==> lane == Success(i)
    {
      if runner in runnersLanes then Success(runnersLanes[runner]) else Failure(NullPointer)
    }

    /** runChild on the thread `currentThread`, with the postfixGen read corrected to the general
        bucket. `banner` is the "runChild" line the thread prints first; `child` is what
        `runner.run(recorder)` does. */
    method RunChild(currentThread: nat, banner: seq<byte>, child: seq<Step>) returns (thrown: Option<Throwable>)
      modifies runnerStream, systemOut
      ensures var o := ChildRun(old(runnerStream.streams), currentThread, banner, child);
              && runnerStream.streams == o.streams
              && systemOut.transcript == old(systemOut.transcript) + o.emitted
              && thrown == o.thrown
    {
      var me := Thread(currentThread);
      ghost var pre := Prefix(runnerStream.streams, currentThread, banner);
      ghost var outcome := ChildRun(runnerStream.streams, currentThread, banner, child);
      runnerStream.Write(me, banner);
      var recorder := new RunNotifierRecorder(runnerStream, me, systemOut);
      var prefix := runnerStream.GetAndReset(me);
      var prefixGen := runnerStream.GetAndResetGeneral();
      assert runnerStream.streams == pre.rest && pre.emitted == WriteOut(prefix) + WriteOut(prefixGen);
      var exception := PlayChild(recorder, child);
      ghost var run := Execute(pre.rest, me, child);
      assert recorder.events == run.events by {
        assert [] + run.events == run.events;
      }
      assert outcome == Merge(pre.emitted, run, currentThread, true);
      if exception.Some? && !exception.value.IsRuntime() {
        assert systemOut.transcript == old(systemOut.transcript) + [];
        return exception;
      }
      ghost var post := Postfix(run.streams, currentThread, true);
      thrown := WriteResults(currentThread, recorder, prefix, prefixGen, exception);
      Associative(old(systemOut.transcript), pre.emitted + LogReplay(run.events).emitted, post.emitted);
    }

    /** runChild's `synchronized` block: the prefix output and the replay; then, unless the replay
        threw, the postfix output and the caught RuntimeException, if any. */
    method WriteResults(currentThread: nat, recorder: RunNotifierRecorder, prefix: Option<seq<byte>>,
                        prefixGen: Option<seq<byte>>, exception: Option<Throwable>) returns (thrown: Option<Throwable>)
      requires recorder.runnerStream == runnerStream && recorder.systemOut == systemOut
      modifies runnerStream, systemOut
      ensures var replay := LogReplay(recorder.events);
              var written := old(systemOut.transcript) + (WriteOut(prefix) + WriteOut(prefixGen) + replay.emitted);
              if replay.thrown.Some? then
                && runnerStream.streams == old(runnerStream.streams)
                && systemOut.transcript == written
                && thrown == replay.thrown
              else
                var post := Postfix(old(runnerStream.streams), currentThread, true);
                && runnerStream.streams == post.rest
                && systemOut.transcript == written + post.emitted
                && thrown == exception
    {
      WriteSystemOut(prefix, systemOut);
      WriteSystemOut(prefixGen, systemOut);
      Associative(old(systemOut.transcript), WriteOut(prefix), WriteOut(prefixGen));
      ghost var head := WriteOut(prefix) + WriteOut(prefixGen);
      var replayed := recorder.Replay();
      Associative(old(systemOut.transcript), head, LogReplay(recorder.events).emitted);
      if replayed.Some? {
        return replayed;
      }
      WritePostfix(currentThread);
      return exception;
    }

    /** The end of the `synchronized` block: `postfix`, then (corrected) `postfixGen`, each written
        as it is read. */
    method WritePostfix(currentThread: nat)
      modifies runnerStream, systemOut
      ensures var post := Postfix(old(runnerStream.streams), currentThread, true);
              && runnerStream.streams == post.rest
              && systemOut.transcript == old(systemOut.transcript) + post.emitted
    {
      var postfix := runnerStream.GetAndReset(Thread(currentThread));
      WriteSystemOut(postfix, systemOut);
      var postfixGen := runnerStream.GetAndResetGeneral();
      WriteSystemOut(postfixGen, systemOut);
      Associative(old(systemOut.transcript), WriteOut(postfix), WriteOut(postfixGen));
    }
  }
}
