/**
  RunNotifierRecorder: a write-only stand-in for JUnit's RunNotifier. Every notification a child
  runner fires is appended to an event log together with the output captured since the previous
  one; `replay` later forwards the log, in order, to the real notifier and the original System.out.

  The real notifier and the original System.out are one `Console` here: JUnit's listeners print to
  the same console that `systemOut` holds, so the model keeps a single transcript in which text and
  forwarded calls are ordered against each other.
*/
module Recording {
  import opened Common
  import opened OutputStream

  /** The recorder's `Method` enum, in its declaration order. */
  datatype Method =
    | AddFirstListener | AddListener | RemoveListener
    | FireTestRunStarted | FireTestRunFinished | FireTestSuiteStarted | FireTestSuiteFinished
    | FireTestStarted | FireTestFailure | FireTestAssumptionFailed | FireTestIgnored | FireTestFinished
    | PleaseStop
  {
    /** The three listener-management tags, which `record` never receives. */
    predicate IsListenerCall() {
      AddFirstListener? || AddListener? || RemoveListener?
    }

    /** The enum constant's Java name, as `toString` gives it. */
    function Name(): string {
      match this
      case AddFirstListener => "addFirstListener"
      case AddListener => "addListener"
      case RemoveListener => "removeListener"
      case FireTestRunStarted => "fireTestRunStarted"
      case FireTestRunFinished => "fireTestRunFinished"
      case FireTestSuiteStarted => "fireTestSuiteStarted"
      case FireTestSuiteFinished => "fireTestSuiteFinished"
      case FireTestStarted => "fireTestStarted"
      case FireTestFailure => "fireTestFailure"
      case FireTestAssumptionFailed => "fireTestAssumptionFailed"
      case FireTestIgnored => "fireTestIgnored"
      case FireTestFinished => "fireTestFinished"
      case PleaseStop => "pleaseStop"
    }
  }

  /** An event's parameter: an opaque Description, Result or Failure object, or `null`. */
  datatype Param = Null | Ref(id: nat)

  /** One call of the RunNotifier interface that the recorder defers. */
  datatype Notification =
    | TestRunStarted(description: Param)
    | TestRunFinished(result: Param)
    | TestSuiteStarted(description: Param)
    | TestSuiteFinished(description: Param)
    | TestStarted(description: Param)
    | TestFailure(failure: Param)
    | TestAssumptionFailed(failure: Param)
    | TestIgnored(description: Param)
    | TestFinished(description: Param)
    | Stop

  /** The parameter a fire method passes to `record` (`null` for pleaseStop). */
  function Argument(n: Notification): Param {
    match n
    case TestRunStarted(d) => d
    case TestRunFinished(r) => r
    case TestSuiteStarted(d) => d
    case TestSuiteFinished(d) => d
    case TestStarted(d) => d
    case TestFailure(f) => f
    case TestAssumptionFailed(f) => f
    case TestIgnored(d) => d
    case TestFinished(d) => d
    case Stop => Null
  }

  /** replayEvent's switch: the notifier call a tag and parameter stand for, or none for the
      listener tags, which fall into the `default` branch. */
  function Forward(m: Method, p: Param): (n: Option<Notification>)
    ensures n.None? <==> m.IsListenerCall()
  {
    match m
    case FireTestRunStarted => Some(TestRunStarted(p))
    case FireTestRunFinished => Some(TestRunFinished(p))
    case FireTestSuiteStarted => Some(TestSuiteStarted(p))
    case FireTestSuiteFinished => Some(TestSuiteFinished(p))
    case FireTestStarted => Some(TestStarted(p))
    case FireTestFailure => Some(TestFailure(p))
    case FireTestAssumptionFailed => Some(TestAssumptionFailed(p))
    case FireTestIgnored => Some(TestIgnored(p))
    case FireTestFinished => Some(TestFinished(p))
    case PleaseStop => Some(Stop)
    case _ => None
  }

  /** The tag each fire method records. Replaying that tag with the recorded parameter forwards
      the very same call. */
  function Tag(n: Notification): (m: Method)
    ensures !m.IsListenerCall()
    ensures Forward(m, Argument(n)) == Some(n)
  {
    match n
    case TestRunStarted(_) => FireTestRunStarted
    case TestRunFinished(_) => FireTestRunFinished
    case TestSuiteStarted(_) => FireTestSuiteStarted
    case TestSuiteFinished(_) => FireTestSuiteFinished
    case TestStarted(_) => FireTestStarted
    case TestFailure(_) => FireTestFailure
    case TestAssumptionFailed(_) => FireTestAssumptionFailed
    case TestIgnored(_) => FireTestIgnored
    case TestFinished(_) => FireTestFinished
    case Stop => PleaseStop
  }

  /** Text as the default charset encodes it; every literal the recorder prints is ASCII. */
  function Ascii(s: string): seq<byte> {
    seq(|s|, i requires 0 <= i < |s| => (s[i] as int % 256) as byte)
  }

  /** The line separator `println` ends a line with. */
  const NewLine: seq<byte> := [10]

  /** How a fire method's debug line names its parameter. */
  function ParameterName(n: Notification): string {
    match n
    case TestRunFinished(_) => "result"
    case TestFailure(_) => "failure"
    case TestAssumptionFailed(_) => "failure"
    case _ => "description"
  }

  /** The debug line a fire method prints to System.out before it records: the method's name and
      its parameter, `shown` being the parameter's `toString`; pleaseStop prints its name alone. */
  function FireLine(n: Notification, shown: seq<byte>): seq<byte> {
    if n.Stop? then Ascii("notifier.pleaseStop()") + NewLine
    else Ascii("notifier." + Tag(n).Name() + "(" + ParameterName(n) + "): ") + shown + NewLine
  }

  /** The debug line removeListener prints before it throws; `shown` is the listener's `toString`. */
  function RemoveLine(shown: seq<byte>): seq<byte> {
    Ascii("notifier.removeListener(listener): ") + shown + NewLine
  }

  /** A recorded event: the tag, the parameter, the current thread's captured output and the
      captured general output (each `null` when that buffer never existed). */
  datatype Event = Event(tag: Method, parameter: Param, output: Option<seq<byte>>, generalOut: Option<seq<byte>>)

  /** One thing that reaches the console: text appended to the original System.out, or a call
      forwarded to the real notifier. */
  datatype Emission = Text(text: seq<byte>) | Notified(call: Notification)

  /** The transcript seen at byte granularity, so that text written in one piece and text
      written in several compare equal. */
  datatype Token = Byte(b: byte) | Call(call: Notification)

  function Bytes(s: seq<byte>): seq<Token> {
    if s == [] then [] else [Byte(s[0])] + Bytes(s[1..])
  }

  function Flat(es: seq<Emission>): seq<Token> {
    if es == [] then []
    else
      (match es[0]
       case Text(t) => Bytes(t)
       case Notified(n) => [Call(n)])
      + Flat(es[1..])
  }

  lemma {:induction false} BytesAppend(a: seq<byte>, b: seq<byte>)
    ensures Bytes(a + b) == Bytes(a) + Bytes(b)
  {
    if a == [] {
      assert a + b == b;
    } else {
      assert (a + b)[1..] == a[1..] + b;
      BytesAppend(a[1..], b);
    }
  }

  lemma {:induction false} FlatAppend(a: seq<Emission>, b: seq<Emission>)
    ensures Flat(a + b) == Flat(a) + Flat(b)
  {
    if a == [] {
      assert a + b == b;
    } else {
      assert (a + b)[1..] == a[1..] + b;
      FlatAppend(a[1..], b);
    }
  }

  /** writeSystemOut: nothing for `null` or the empty string, otherwise exactly that text. */
  function WriteOut(s: Option<seq<byte>>): (r: seq<Emission>)
    ensures Flat(r) == Bytes(s.GetOr([]))
    ensures |r| <= 1
    ensures forall e :: e in r ==> e.Text? && e.text != []
  {
    if s.Some? && s.value != [] then [Text(s.value)] else []
  }

  /** What replaying a prefix of the log emitted, and the throwable that stopped it, if any. */
  datatype ReplayResult = ReplayResult(emitted: seq<Emission>, thrown: Option<Throwable>)

  /** replayEvent: general output, then the thread's output, then the forwarded call; a listener
      tag writes both outputs and then throws IllegalStateException. */
  function EventReplay(e: Event): (r: ReplayResult)
    ensures r.thrown.None? <==> !e.tag.IsListenerCall()
    ensures r.thrown.Some? ==> r.thrown.value == IllegalState("unhandled method " + e.tag.Name())
  {
    var text := WriteOut(e.generalOut) + WriteOut(e.output);
    match Forward(e.tag, e.parameter)
    case Some(n) => ReplayResult(text + [Notified(n)], None)
    case None => ReplayResult(text, Some(IllegalState("unhandled method " + e.tag.Name())))
  }

  /** What one replayed event puts on the console, byte by byte: the general output, then the
      thread's output, then (unless the tag is a listener tag) the call the tag stands for. */
  lemma EventReplayOrder(e: Event)
    ensures Flat(EventReplay(e).emitted)
         == Bytes(e.generalOut.GetOr([])) + Bytes(e.output.GetOr([]))
            + (if e.tag.IsListenerCall() then [] else [Call(Forward(e.tag, e.parameter).value)])
  {
    var text := WriteOut(e.generalOut) + WriteOut(e.output);
    FlatAppend(WriteOut(e.generalOut), WriteOut(e.output));
    if !e.tag.IsListenerCall() {
      var n := Forward(e.tag, e.parameter).value;
      FlatAppend(text, [Notified(n)]);
      assert Flat([Notified(n)]) == [Call(n)];
    }
  }

  /** replay: every event in recording order; `forEach` stops at the first event that throws. */
  function LogReplay(events: seq<Event>): ReplayResult {
    if events == [] then ReplayResult([], None)
    else
      var head := EventReplay(events[0]);
      if head.thrown.Some? then head
      else
        var tail := LogReplay(events[1..]);
        ReplayResult(head.emitted + tail.emitted, tail.thrown)
  }

  /** Replay throws exactly when the log holds a listener tag. */
  lemma {:induction false} LogReplayThrowsIff(events: seq<Event>)
    ensures LogReplay(events).thrown.None? <==> forall i :: 0 <= i < |events| ==> !events[i].tag.IsListenerCall()
  {
    if events != [] {
      LogReplayThrowsIff(events[1..]);
      assert forall i :: 1 <= i < |events| ==> events[i] == events[1..][i - 1];
    }
  }

  /** Replaying a log that has run through cleanly and then more events. */
  lemma {:induction false} LogReplayAppend(events: seq<Event>, later: seq<Event>)
    requires LogReplay(events).thrown.None?
    ensures LogReplay(events + later).emitted == LogReplay(events).emitted + LogReplay(later).emitted
    ensures LogReplay(events + later).thrown == LogReplay(later).thrown
  {
    if events == [] {
      assert events + later == later;
    } else {
      var all := events + later;
      assert all[0] == events[0] && all[1..] == events[1..] + later;
      LogReplayAppend(events[1..], later);
      Associative(EventReplay(events[0]).emitted, LogReplay(events[1..]).emitted, LogReplay(later).emitted);
    }
  }

  /** Replaying one event that does not throw, then the rest of the log. */
  lemma LogReplayCons(e: Event, later: seq<Event>)
    requires EventReplay(e).thrown.None?
    ensures LogReplay([e] + later)
         == ReplayResult(EventReplay(e).emitted + LogReplay(later).emitted, LogReplay(later).thrown)
  {
    assert ([e] + later)[0] == e && ([e] + later)[1..] == later;
  }

  /** Replaying a log that has run through cleanly and then one more event. */
  lemma LogReplaySnoc(events: seq<Event>, e: Event)
    requires LogReplay(events).thrown.None?
    ensures LogReplay(events + [e])
         == ReplayResult(LogReplay(events).emitted + EventReplay(e).emitted, EventReplay(e).thrown)
  {
    LogReplayAppend(events, [e]);
    assert [e][1..] == [];
    assert LogReplay([e]) == EventReplay(e);
  }

  /** The replay loop's step at index `i`: the first `i + 1` events replay as the first `i` and
      then event `i`. */
  lemma LogReplayStep(events: seq<Event>, i: nat)
    requires i < |events| && LogReplay(events[..i]).thrown.None?
    ensures LogReplay(events[..i + 1])
         == ReplayResult(LogReplay(events[..i]).emitted + EventReplay(events[i]).emitted, EventReplay(events[i]).thrown)
  {
    assert events[..i + 1] == events[..i] + [events[i]];
    LogReplaySnoc(events[..i], events[i]);
  }

  /** The replay loop's exit at index `i`: once event `i` has thrown, the first `i + 1` events
      are the whole replay. */
  lemma LogReplayExit(events: seq<Event>, i: nat)
    requires i < |events| && LogReplay(events[..i + 1]).thrown.Some?
    ensures LogReplay(events) == LogReplay(events[..i + 1])
  {
    LogReplayStops(events[..i + 1], events[i + 1..]);
    assert events[..i + 1] + events[i + 1..] == events;
  }

  /** Once an event has thrown, later events are never replayed. */
  lemma {:induction false} LogReplayStops(events: seq<Event>, later: seq<Event>)
    requires LogReplay(events).thrown.Some?
    ensures LogReplay(events + later) == LogReplay(events)
  {
    assert events != [];
    assert (events + later)[0] == events[0];
    if EventReplay(events[0]).thrown.None? {
      assert (events + later)[1..] == events[1..] + later;
      LogReplayStops(events[1..], later);
    }
  }

  /** A recorded notification replays as its general output, its thread output and then the
      same call with the same parameter. */
  lemma ReplayOfRecorded(n: Notification, output: Option<seq<byte>>, generalOut: Option<seq<byte>>)
    ensures EventReplay(Event(Tag(n), Argument(n), output, generalOut))
         == ReplayResult(WriteOut(generalOut) + WriteOut(output) + [Notified(n)], None)
  {
  }

  /** The console behind the original System.out and the real RunNotifier. */
  class Console {
    var transcript: seq<Emission>

    constructor ()
      ensures transcript == []
    {
      transcript := [];
    }

    /** systemOut.append(text) */
    method Append(text: seq<byte>)
      modifies this
      ensures transcript == old(transcript) + [Text(text)]
    {
      transcript := transcript + [Text(text)];
    }

    /** The real notifier's fire method for `n` (its listeners' reaction is not modelled). */
    method Notify(n: Notification)
      modifies this
      ensures transcript == old(transcript) + [Notified(n)]
    {
      transcript := transcript + [Notified(n)];
    }
  }

  /** writeSystemOut(string, systemOut) */
  method WriteSystemOut(s: Option<seq<byte>>, systemOut: Console)
    modifies systemOut
    ensures systemOut.transcript == old(systemOut.transcript) + WriteOut(s)
  {
    if s.Some? && s.value != [] {
      systemOut.Append(s.value);
    }
  }

  class RunNotifierRecorder {
    const runnerStream: RunnerOutputStream
    const currentThread: Key
    const systemOut: Console
    /** The append-only event log. */
    var events: seq<Event>

    constructor (runnerStream: RunnerOutputStream, currentThread: Key, systemOut: Console)
      ensures this.runnerStream == runnerStream && this.currentThread == currentThread
      ensures this.systemOut == systemOut && events == []
    {
      this.runnerStream := runnerStream;
      this.currentThread := currentThread;
      this.systemOut := systemOut;
      events := [];
    }

    /** addFirstListener always throws and records nothing. */
    method AddFirstListener(listener: nat) returns (thrown: Throwable)
      ensures thrown == UnsupportedOperation("notifier.addFirstListener(listener)")
    {
      thrown := UnsupportedOperation("notifier.addFirstListener(listener)");
    }

    /** addListener always throws and records nothing. */
    method AddListener(listener: nat) returns (thrown: Throwable)
      ensures thrown == UnsupportedOperation("notifier.addListener(listener)")
    {
      thrown := UnsupportedOperation("notifier.addListener(listener)");
    }

    /** removeListener prints its debug line through the current thread, then throws; it
        records nothing. */
    method RemoveListener(listener: nat, shown: seq<byte>) returns (thrown: Throwable)
      modifies runnerStream
      ensures runnerStream.streams == Appended(old(runnerStream.streams), currentThread, RemoveLine(shown))
      ensures thrown == UnsupportedOperation("notifier.removeListener(listener)")
    {
      runnerStream.Write(currentThread, RemoveLine(shown));
      thrown := UnsupportedOperation("notifier.removeListener(listener)");
    }

    /** record: one new event at the end of the log, carrying the current thread's buffered
        output and the general output; both buffers are left empty. */
    method Record(m: Method, p: Param)
      modifies this, runnerStream
      ensures var out := Take(old(runnerStream.streams), currentThread);
              var gen := Take(out.rest, General);
              && events == old(events) + [Event(m, p, out.output, gen.output)]
              && runnerStream.streams == gen.rest
    {
      var output := runnerStream.GetAndReset(currentThread);
      var generalOut := runnerStream.GetAndResetGeneral();
      events := events + [Event(m, p, output, generalOut)];
    }

    /** The ten fire methods (fireTestRunStarted ... fireTestFinished, pleaseStop): each prints its
        debug line through the current thread and then records exactly one event with its own
        tag and its parameter unchanged, so the event's output ends with that line. */
    method Fire(n: Notification, shown: seq<byte>)
      modifies this, runnerStream
      ensures var printed := Appended(old(runnerStream.streams), currentThread, FireLine(n, shown));
              var out := Take(printed, currentThread);
              var gen := Take(out.rest, General);
              && events == old(events) + [Event(Tag(n), Argument(n), out.output, gen.output)]
              && runnerStream.streams == gen.rest
    {
      runnerStream.Write(currentThread, FireLine(n, shown));
      Record(Tag(n), Argument(n));
    }

    /** replayEvent */
    method ReplayEvent(e: Event) returns (thrown: Option<Throwable>)
      modifies systemOut
      ensures systemOut.transcript == old(systemOut.transcript) + EventReplay(e).emitted
      ensures thrown == EventReplay(e).thrown
    {
      WriteSystemOut(e.generalOut, systemOut);
      WriteSystemOut(e.output, systemOut);
      var call := Forward(e.tag, e.parameter);
      if call.Some? {
        systemOut.Notify(call.value);
        thrown := None;
      } else {
        thrown := Some(IllegalState("unhandled method " + e.tag.Name()));
      }
    }

    /** replay: the log in recording order, stopping at the first event that throws. */
    method Replay() returns (thrown: Option<Throwable>)
      modifies systemOut
      ensures systemOut.transcript == old(systemOut.transcript) + LogReplay(events).emitted
      ensures thrown == LogReplay(events).thrown
    {
      var i := 0;
      thrown := None;
      while i < |events|
        invariant 0 <= i <= |events|
        invariant thrown.None? && LogReplay(events[..i]).thrown.None?
        invariant systemOut.transcript == old(systemOut.transcript) + LogReplay(events[..i]).emitted
      {
        LogReplayStep(events, i);
        thrown := ReplayEvent(events[i]);
        Associative(old(systemOut.transcript), LogReplay(events[..i]).emitted, EventReplay(events[i]).emitted);
        if thrown.Some? {
          LogReplayExit(events, i);
          return;
        }
        i := i + 1;
      }
      assert events[..i] == events;
    }
  }
}
