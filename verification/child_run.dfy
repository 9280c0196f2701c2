/**
  What a child runner does while `runner.run(recorder)` executes, modelled as the sequence of
  steps it takes, and what recording those steps and replaying the log puts on the console.
*/
module ChildRunning {
  import opened Common
  import opened OutputStream
  import opened Recording

  // ---------------------------------------------------------------------------------------------
  // What a child runner does while `runner.run(recorder)` executes

  /** A listener-management call a child makes on the notifier it was given; `shown` is the
      listener's `toString`, which removeListener prints. */
  datatype ListenerCall = AddFirst(listener: nat) | Add(listener: nat) | Remove(listener: nat, shown: seq<byte>)

  /** The UnsupportedOperationException the recorder answers a listener call with. */
  function Rejection(c: ListenerCall): Throwable {
    match c
    case AddFirst(_) => UnsupportedOperation("notifier.addFirstListener(listener)")
    case Add(_) => UnsupportedOperation("notifier.addListener(listener)")
    case Remove(_, _) => UnsupportedOperation("notifier.removeListener(listener)")
  }

  /** One step of a child runner, in the order it happens. A listener call's rejection that
      escapes `runner.run` is a `ManageListener` step, which ends the run. A rejection that the
      child catches itself (JUnit's `ParentRunner.run` catches any Throwable from a nested
      runner's class block) is no `ManageListener` step: a caught addFirstListener or
      addListener is no step at all, and a caught removeListener is
      `Print(thread, RemoveLine(shown))`, after which the child may go on firing. */
  datatype Step =
    | Print(writer: Key, bytes: seq<byte>)  // bytes written to the redirected System.out by `writer`
    | Report(call: Notification, shown: seq<byte>)  // a fire method (or pleaseStop); `shown` is its parameter's toString
    | ManageListener(listenerCall: ListenerCall)  // a listener call on the recorder whose rejection escapes
    | Raise(error: Throwable)               // the child throws on its own

  /** The throwable that ends the child's run, if any: its first escaping listener rejection or Raise. */
  function Raised(child: seq<Step>): Option<Throwable> {
    if child == [] then None
    else
      match child[0]
      case ManageListener(c) => Some(Rejection(c))
      case Raise(e) => Some(e)
      case _ => Raised(child[1..])
  }

  /** The state after the child has run against a recorder on `thread`: the buffers, the events
      it recorded, and what escaped `runner.run`. */
  datatype Run = Run(streams: Buffers, events: seq<Event>, thrown: Option<Throwable>)

  /** The buffers after a listener call: removeListener's debug line lands in the thread's buffer. */
  function Rejected(m: Buffers, thread: Key, c: ListenerCall): Buffers {
    if c.Remove? then Appended(m, thread, RemoveLine(c.shown)) else m
  }

  /** Recording a child on `thread`, starting from buffers `m`: prints go to their writer's
      buffer; a notification prints its debug line through the thread and then records one
      event that takes both buffers; the first listener call or Raise ends the run. */
  function Execute(m: Buffers, thread: Key, child: seq<Step>): Run
    decreases |child|
  {
    if child == [] then Run(m, [], None)
    else
      match child[0]
      case Print(w, b) => Execute(Appended(m, w, b), thread, child[1..])
      case Report(n, s) =>
        var out := Take(Appended(m, thread, FireLine(n, s)), thread);
        var gen := Take(out.rest, General);
        var r := Execute(gen.rest, thread, child[1..]);
        Run(r.streams, [Event(Tag(n), Argument(n), out.output, gen.output)] + r.events, r.thrown)
      case ManageListener(c) => Run(Rejected(m, thread, c), [], Some(Rejection(c)))
      case Raise(e) => Run(m, [], Some(e))
  }

  /** The child's run throws exactly what the child raises, and records only notification tags,
      never a listener tag: a listener call throws instead of recording. */
  lemma {:induction false} ExecuteOutcome(m: Buffers, thread: Key, child: seq<Step>)
    ensures Execute(m, thread, child).thrown == Raised(child)
    ensures forall i :: 0 <= i < |Execute(m, thread, child).events| ==>
              !Execute(m, thread, child).events[i].tag.IsListenerCall()
    decreases |child|
  {
    if child != [] {
      match child[0]
      case Print(w, b) => ExecuteOutcome(Appended(m, w, b), thread, child[1..]);
      case Report(n, s) =>
        var out := Take(Appended(m, thread, FireLine(n, s)), thread);
        var gen := Take(out.rest, General);
        ExecuteOutcome(gen.rest, thread, child[1..]);
      case ManageListener(c) =>
      case Raise(e) =>
    }
  }

  /** Replaying what a child recorded never reaches replayEvent's `default` branch. */
  lemma RecordedLogReplaysCleanly(m: Buffers, thread: Key, child: seq<Step>)
    ensures LogReplay(Execute(m, thread, child).events).thrown.None?
  {
    ExecuteOutcome(m, thread, child);
    LogReplayThrowsIff(Execute(m, thread, child).events);
  }

  /** Drives the recorder with the child's steps: the stand-in for the foreign `runner.run(recorder)`. */
  method PlayChild(recorder: RunNotifierRecorder, child: seq<Step>) returns (thrown: Option<Throwable>)
    modifies recorder, recorder.runnerStream
    ensures var r := Execute(old(recorder.runnerStream.streams), recorder.currentThread, child);
            && recorder.runnerStream.streams == r.streams
            && recorder.events == old(recorder.events) + r.events
            && thrown == r.thrown
  {
    ghost var m0 := recorder.runnerStream.streams;
    ghost var done: seq<Event> := [];
    var i := 0;
    while i < |child|
      invariant 0 <= i <= |child|
      invariant recorder.events == old(recorder.events) + done
      invariant var r := Execute(recorder.runnerStream.streams, recorder.currentThread, child[i..]);
                Execute(m0, recorder.currentThread, child) == Run(r.streams, done + r.events, r.thrown)
    {
      assert child[i..][0] == child[i] && child[i..][1..] == child[i + 1..];
      match child[i] {
        case Print(w, b) =>
          recorder.runnerStream.Write(w, b);
        case Report(n, s) =>
          ghost var out := Take(Appended(recorder.runnerStream.streams, recorder.currentThread, FireLine(n, s)), recorder.currentThread);
          ghost var gen := Take(out.rest, General);
          ghost var ev := Event(Tag(n), Argument(n), out.output, gen.output);
          ghost var r' := Execute(gen.rest, recorder.currentThread, child[i + 1..]);
          recorder.Fire(n, s);
          assert done + ([ev] + r'.events) == (done + [ev]) + r'.events;
          done := done + [ev];
        case ManageListener(c) =>
          var e;
          match c {
            case AddFirst(l) => e := recorder.AddFirstListener(l);
            case Add(l) => e := recorder.AddListener(l);
            case Remove(l, s) => e := recorder.RemoveListener(l, s);
          }
          assert done + [] == done;
          return Some(e);
        case Raise(e) =>
          assert done + [] == done;
          return Some(e);
      }
      i := i + 1;
    }
    assert done + [] == done;
    thrown := None;
  }

  // ---------------------------------------------------------------------------------------------
  // What reaches the console, byte by byte

  /** The writer of {current thread, general} that a child does not print through. */
  function Other(tid: nat, w: Key): Key {
    if w == General then Thread(tid) else General
  }

  /** Whether a step leaves output in `k`'s buffer that no event of its own carries: a print by
      `k`, or removeListener's debug line when `k` is the child's thread. (The line a fire
      method prints is carried by the event it records.) */
  predicate PrintsThrough(s: Step, thread: Key, k: Key) {
    || (s.Print? && s.writer == k)
    || (k == thread && s.ManageListener? && s.listenerCall.Remove?)
  }

  ghost predicate NoPrintsBy(child: seq<Step>, thread: Key, k: Key) {
    forall i :: 0 <= i < |child| ==> !PrintsThrough(child[i], thread, k)
  }

  /** The child's own view of what it did on `thread`, up to the step that throws: the bytes `w`
      printed and each notification preceded by its debug line, in program order.
      removeListener's debug line is the thread's. Prints by other writers belong to other
      children. */
  function FlatChild(child: seq<Step>, thread: Key, w: Key): seq<Token> {
    if child == [] then []
    else
      match child[0]
      case Print(k, b) => (if k == w then Bytes(b) else []) + FlatChild(child[1..], thread, w)
      case Report(n, s) => (Bytes(FireLine(n, s)) + [Call(n)]) + FlatChild(child[1..], thread, w)
      case ManageListener(c) => if c.Remove? && w == thread then Bytes(RemoveLine(c.shown)) else []
      case Raise(_) => []
  }

  /** The round trip of one child run from buffers `m`, as ExecuteRoundTrip states it. */
  ghost predicate RoundTrips(m: Buffers, tid: nat, child: seq<Step>, w: Key) {
    var r := Execute(m, Thread(tid), child);
    && LogReplay(r.events).thrown.None?
    && Flat(LogReplay(r.events).emitted) + Bytes(Contents(r.streams, w))
       == Bytes(Contents(m, w)) + FlatChild(child, Thread(tid), w)
    && Contents(r.streams, Other(tid, w)) == []
  }

  lemma NoPrintsByTail(child: seq<Step>, thread: Key, k: Key)
    requires child != [] && NoPrintsBy(child, thread, k)
    ensures NoPrintsBy(child[1..], thread, k)
    ensures !PrintsThrough(child[0], thread, k)
  {
    forall i | 0 <= i < |child[1..]|
      ensures !PrintsThrough(child[1..][i], thread, k)
    {
      assert child[1..][i] == child[i + 1];
    }
  }

  /** Concatenation regrouped, for the round-trip steps. */
  lemma Regroup(mine: seq<Token>, step: seq<Token>, replayed: seq<Token>, left: seq<Token>, later: seq<Token>)
    requires replayed + left == later
    ensures (mine + step + replayed) + left == mine + (step + later)
  {
  }

  /** One step of a child that prints. */
  lemma ExecutePrint(m: Buffers, tid: nat, child: seq<Step>)
    requires child != [] && child[0].Print?
    ensures Execute(m, Thread(tid), child) == Execute(Appended(m, child[0].writer, child[0].bytes), Thread(tid), child[1..])
  {
  }

  /** A child whose next step prints. */
  lemma RoundTripPrint(m: Buffers, tid: nat, child: seq<Step>, w: Key)
    requires w == Thread(tid) || w == General
    requires child != [] && child[0].Print? && child[0].writer != Other(tid, w)
    requires RoundTrips(Appended(m, child[0].writer, child[0].bytes), tid, child[1..], w)
    ensures RoundTrips(m, tid, child, w)
  {
    var k, b := child[0].writer, child[0].bytes;
    var m' := Appended(m, k, b);
    ExecutePrint(m, tid, child);
    WriteIsolation(m, k, b, Other(tid, w));
    var printed := if k == w then Bytes(b) else [];
    assert FlatChild(child, Thread(tid), w) == printed + FlatChild(child[1..], Thread(tid), w);
    assert Bytes(Contents(m', w)) == Bytes(Contents(m, w)) + printed by {
      if k == w {
        BytesAppend(Contents(m, w), b);
      } else {
        WriteIsolation(m, k, b, w);
      }
    }
    Associative(Bytes(Contents(m, w)), printed, FlatChild(child[1..], Thread(tid), w));
  }

  /** One recorded step of a child that fires `child[0].call`. */
  lemma ExecuteReport(m: Buffers, tid: nat, child: seq<Step>)
    requires child != [] && child[0].Report?
    ensures var n := child[0].call;
            var out := Take(Appended(m, Thread(tid), FireLine(n, child[0].shown)), Thread(tid));
            var gen := Take(out.rest, General);
            var r := Execute(gen.rest, Thread(tid), child[1..]);
            Execute(m, Thread(tid), child)
            == Run(r.streams, [Event(Tag(n), Argument(n), out.output, gen.output)] + r.events, r.thrown)
  {
  }

  /** The event recorded for `n` replays as `w`'s buffered output, then the fire method's debug
      line, then `n`. */
  lemma RecordedEventFlat(m: Buffers, tid: nat, n: Notification, s: seq<byte>, w: Key)
    requires w == Thread(tid) || w == General
    requires Contents(m, Other(tid, w)) == []
    ensures var out := Take(Appended(m, Thread(tid), FireLine(n, s)), Thread(tid));
            var gen := Take(out.rest, General);
            var ev := Event(Tag(n), Argument(n), out.output, gen.output);
            && EventReplay(ev).thrown.None?
            && Flat(EventReplay(ev).emitted) == Bytes(Contents(m, w)) + (Bytes(FireLine(n, s)) + [Call(n)])
            && Contents(gen.rest, w) == [] && Contents(gen.rest, Other(tid, w)) == []
  {
    var line := FireLine(n, s);
    var printed := Appended(m, Thread(tid), line);
    var out := Take(printed, Thread(tid));
    var gen := Take(out.rest, General);
    var ev := Event(Tag(n), Argument(n), out.output, gen.output);
    ReplayOfRecorded(n, out.output, gen.output);
    EventReplayOrder(ev);
    WriteIsolation(m, Thread(tid), line, General);
    assert out.output.GetOr([]) == Contents(m, Thread(tid)) + line;
    assert gen.output.GetOr([]) == Contents(m, General);
    assert Bytes([]) == [];
    if w == General {
      assert Contents(m, Thread(tid)) + line == line;
    } else {
      BytesAppend(Contents(m, Thread(tid)), line);
    }
    Associative(Bytes(Contents(m, w)), Bytes(line), [Call(n)]);
  }

  /** A child whose next step fires a notification. */
  lemma RoundTripReport(m: Buffers, tid: nat, child: seq<Step>, w: Key)
    requires w == Thread(tid) || w == General
    requires Contents(m, Other(tid, w)) == []
    requires child != [] && child[0].Report?
    requires RoundTrips(Take(Take(Appended(m, Thread(tid), FireLine(child[0].call, child[0].shown)), Thread(tid)).rest, General).rest,
                        tid, child[1..], w)
    ensures RoundTrips(m, tid, child, w)
  {
    var n, s := child[0].call, child[0].shown;
    var out := Take(Appended(m, Thread(tid), FireLine(n, s)), Thread(tid));
    var gen := Take(out.rest, General);
    var ev := Event(Tag(n), Argument(n), out.output, gen.output);
    var r' := Execute(gen.rest, Thread(tid), child[1..]);
    ExecuteReport(m, tid, child);
    RecordedEventFlat(m, tid, n, s, w);
    LogReplayCons(ev, r'.events);
    var head := EventReplay(ev).emitted;
    var tail := LogReplay(r'.events).emitted;
    FlatAppend(head, tail);
    var step := Bytes(FireLine(n, s)) + [Call(n)];
    assert FlatChild(child, Thread(tid), w) == step + FlatChild(child[1..], Thread(tid), w);
    Regroup(Bytes(Contents(m, w)), step, Flat(tail), Bytes(Contents(r'.streams, w)), FlatChild(child[1..], Thread(tid), w));
  }

  /** A child whose next step is a listener call, which ends its run. */
  lemma RoundTripRejected(m: Buffers, tid: nat, child: seq<Step>, w: Key)
    requires w == Thread(tid) || w == General
    requires Contents(m, Other(tid, w)) == []
    requires child != [] && child[0].ManageListener?
    requires !PrintsThrough(child[0], Thread(tid), Other(tid, w))
    ensures RoundTrips(m, tid, child, w)
  {
    var c := child[0].listenerCall;
    var m' := Rejected(m, Thread(tid), c);
    assert Execute(m, Thread(tid), child) == Run(m', [], Some(Rejection(c)));
    assert Flat([]) == [];
    if c.Remove? {
      assert w == Thread(tid);
      WriteIsolation(m, Thread(tid), RemoveLine(c.shown), General);
      BytesAppend(Contents(m, w), RemoveLine(c.shown));
    } else {
      assert Bytes(Contents(m, w)) + [] == Bytes(Contents(m, w));
    }
  }

  /** Recording and then replaying a child that prints through one writer `w` (its own thread, or
      the general bucket) reproduces its output and notifications in program order; what is
      still buffered for `w` at the end is exactly the output after the last notification. */
  lemma {:induction false} ExecuteRoundTrip(m: Buffers, tid: nat, child: seq<Step>, w: Key)
    requires w == Thread(tid) || w == General
    requires Contents(m, Other(tid, w)) == []
    requires NoPrintsBy(child, Thread(tid), Other(tid, w))
    ensures RoundTrips(m, tid, child, w)
    decreases |child|
  {
    var o := Other(tid, w);
    if child == [] {
      assert Execute(m, Thread(tid), child) == Run(m, [], None);
      assert Flat([]) + Bytes(Contents(m, w)) == Bytes(Contents(m, w)) + [];
    } else {
      NoPrintsByTail(child, Thread(tid), o);
      match child[0]
      case Print(k, b) =>
        WriteIsolation(m, k, b, o);
        ExecuteRoundTrip(Appended(m, k, b), tid, child[1..], w);
        RoundTripPrint(m, tid, child, w);
      case Report(n, s) =>
        RecordedEventFlat(m, tid, n, s, w);
        var gen := Take(Take(Appended(m, Thread(tid), FireLine(n, s)), Thread(tid)).rest, General);
        ExecuteRoundTrip(gen.rest, tid, child[1..], w);
        RoundTripReport(m, tid, child, w);
      case ManageListener(c) =>
        RoundTripRejected(m, tid, child, w);
      case Raise(e) =>
        assert Execute(m, Thread(tid), child) == Run(m, [], Some(e));
        assert Flat([]) + Bytes(Contents(m, w)) == Bytes(Contents(m, w)) + [];
    }
  }
}
