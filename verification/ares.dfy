/** The REPL session: its counters, its interrupt debounce flag, its prompt,
    and the handlers that turn one read-line outcome into "continue" or
    "terminate with this exit". `Step` and `Run` state the handlers and the
    read loop as functions of the session's state; the `Ares` class is the
    session object whose methods are proved to follow them. The line editor
    is not modelled: what `readline` returns is given as a `ReadEvent`. */
module Ares {
  import R = RustRunner
  import Format

  const STANDARD_PROMPT := "->"
  const PENDING_PROMPT := "-*"

  /** `line_number` and `indent_level` are `u32`. */
  const U32_MAX := 0xFFFF_FFFF
  /** The panic of `+=` on a `u32` at its maximum (debug builds). */
  const ADD_OVERFLOW := "attempt to add with overflow"

  datatype ReplError = RustyLine(reason: string) | RustRunner(error: R.RunnerError)

  datatype Result<T> = Ok(value: T) | Err(error: ReplError)

  /** `Exit = Result<StatusCode, ReplError>`. */
  type Exit = Result<int>

  /** What a handler does: return `None` (continue), return `Some(exit)`
      (terminate the loop), or panic, which ends the process. */
  datatype Handled = Continue | Stop(exit: Exit) | Panic(message: string)

  /** What `readline` returns. A line carries the outcomes of the external
      steps (`R.World`) that executing it would meet. */
  datatype ReadEvent =
    | Line(text: string, world: R.World)
    | Interrupted
    | Eof
    | OtherError(reason: string)

  // ---------------------------------------------------------------------------
  // The prompt

  /** The line-number field of the prompt: `{:03}` below 1000, `{}` from 1000 on. */
  function LineField(lineNumber: nat): (r: string)
    ensures Format.AllDigits(r) && Format.ParseDecimal(r) == lineNumber
    ensures lineNumber < 1000 ==> |r| == 3
    ensures lineNumber >= 1000 ==> |r| >= 4 && r[0] != '0'
  {
    if lineNumber < 1000 then Format.ZeroPadded3(lineNumber)
    else Format.DecimalRoundTrip(lineNumber); Format.Decimal(lineNumber)
  }

  /** `prompt()`: `" ares:"`, the line number, `":"`, the indent level, the
      ending, and a space. */
  function PromptText(lineNumber: nat, indentLevel: nat, ending: string): string {
    " ares:" + LineField(lineNumber) + ":" + Format.Decimal(indentLevel) + ending + " "
  }

  /** The prompt opens with `" ares:"` and the line number, which reads back
      from three digits below 1000 and from its unpadded digits (four or
      more, no leading zero) from 1000 on; a `:` follows it. */
  lemma PromptLineNumber(lineNumber: nat, indentLevel: nat, ending: string)
    ensures var r := PromptText(lineNumber, indentLevel, ending);
            var w := |LineField(lineNumber)|;
            && (lineNumber < 1000 ==> w == 3)
            && (lineNumber >= 1000 ==> w >= 4 && r[6] != '0')
            && |r| == 8 + w + |Format.Decimal(indentLevel)| + |ending|
            && r[..6] == " ares:"
            && Format.AllDigits(r[6..6 + w]) && Format.ParseDecimal(r[6..6 + w]) == lineNumber
            && r[6 + w] == ':'
  {
    var field := LineField(lineNumber);
    PromptLayout(field, Format.Decimal(indentLevel), ending);
    assert field[0] == PromptText(lineNumber, indentLevel, ending)[6..6 + |field|][0];
  }

  /** After the line number and its `:` comes the indent level in decimal. */
  lemma PromptIndentLevel(lineNumber: nat, indentLevel: nat, ending: string)
    ensures var r := PromptText(lineNumber, indentLevel, ending);
            var start := 7 + |LineField(lineNumber)|;
            var d := Format.Decimal(indentLevel);
            && start + |d| <= |r|
            && Format.AllDigits(r[start..start + |d|])
            && Format.ParseDecimal(r[start..start + |d|]) == indentLevel
  {
    Format.DecimalRoundTrip(indentLevel);
    PromptLayout(LineField(lineNumber), Format.Decimal(indentLevel), ending);
  }

  /** The prompt closes with the ending and one space. */
  lemma PromptEnding(lineNumber: nat, indentLevel: nat, ending: string)
    ensures var r := PromptText(lineNumber, indentLevel, ending);
            |r| >= |ending| + 1 && r[|r| - 1 - |ending|..] == ending + " "
  {
    PromptLayout(LineField(lineNumber), Format.Decimal(indentLevel), ending);
  }

  /** Where each part of a prompt sits, whatever the parts are. */
  lemma PromptLayout(field: string, digits: string, ending: string)
    ensures var r := " ares:" + field + ":" + digits + ending + " ";
            && |r| == 8 + |field| + |digits| + |ending|
            && r[..6] == " ares:"
            && r[6..6 + |field|] == field
            && r[6 + |field|] == ':'
            && r[7 + |field|..7 + |field| + |digits|] == digits
            && r[|r| - 1 - |ending|..] == ending + " "
  {
    var r := " ares:" + field + ":" + digits + ending + " ";
    var head := " ares:" + field + ":";
    assert r == " ares:" + field + (":" + digits + ending + " ");
    assert r == head + digits + (ending + " ");
    assert r == (head + digits) + (ending + " ");
  }

  // ---------------------------------------------------------------------------
  // The session's state and its transitions

  datatype Session = Session(
    lineNumber: nat,
    indentLevel: nat,
    interrupted: bool,
    ending: string,
    runner: R.RunnerState)

  /** Every state a session can be in: counters within `u32`, one of the two
      prompt endings, and a code file never longer than the rendering. */
  predicate WellFormed(s: Session) {
    && s.lineNumber <= U32_MAX
    && s.indentLevel <= U32_MAX
    && (s.ending == STANDARD_PROMPT || s.ending == PENDING_PROMPT)
    && R.NoStaleBytes(s.runner)
  }

  /** The state `Ares::new` builds. */
  function InitialSession(): (s: Session)
    ensures WellFormed(s)
  {
    Session(1, 0, false, STANDARD_PROMPT, R.RunnerState([], ""))
  }

  datatype Transition = Transition(next: Session, handled: Handled)

  predicate EndsWithSemicolon(line: string) {
    |line| > 0 && line[|line| - 1] == ';'
  }

  /** `execute_line`: clear the interrupt flag and count the line, then run
      the buffer with the line appended if the line ends in `;`, and only
      buffer the line otherwise. */
  function ExecuteLineSpec(s: Session, line: string, world: R.World): (t: Transition)
    ensures !t.handled.Stop?
    ensures !t.next.interrupted && t.next.indentLevel == s.indentLevel
    ensures t.next.runner.lines == s.runner.lines || t.next.runner.lines == s.runner.lines + [line]
    ensures WellFormed(s) ==> WellFormed(t.next)
  {
    var cleared := s.(interrupted := false);
    if s.lineNumber == U32_MAX then
      Transition(cleared, Panic(ADD_OVERFLOW))
    else
      var counted := cleared.(lineNumber := s.lineNumber + 1);
      if EndsWithSemicolon(line) then
        var run := R.ExecuteSpec(s.runner, line, world);
        Transition(counted.(ending := STANDARD_PROMPT, runner := run.state),
                   if run.result.Panic? then Panic(run.result.message) else Continue)
      else
        R.RenderGrows(s.runner.lines, line);
        Transition(counted.(ending := PENDING_PROMPT, runner := s.runner.(lines := s.runner.lines + [line])),
                   Continue)
  }

  /** The line number goes up by one on every line read, and a panic
      replaces that at `u32::MAX`. */
  lemma LineIsCounted(s: Session, line: string, world: R.World)
    ensures var t := ExecuteLineSpec(s, line, world);
            if s.lineNumber == U32_MAX then t == Transition(s.(interrupted := false), Panic(ADD_OVERFLOW))
            else t.next.lineNumber == s.lineNumber + 1
  {
  }

  /** A line ending in `;` (and only such a line) is a complete statement:
      it sets the standard prompt and runs the buffer with it appended, and
      the session continues unless the runner panics. Any other line is
      appended without running anything, with the pending prompt. */
  lemma LineClassification(s: Session, line: string, world: R.World)
    requires s.lineNumber < U32_MAX
    ensures var t := ExecuteLineSpec(s, line, world);
            && (t.next.ending == STANDARD_PROMPT <==> EndsWithSemicolon(line))
            && (EndsWithSemicolon(line) ==>
                 && t.next.runner == R.ExecuteSpec(s.runner, line, world).state
                 && (t.handled.Panic? <==> R.ExecuteSpec(s.runner, line, world).result.Panic?))
            && (!EndsWithSemicolon(line) ==>
                 && t.next.ending == PENDING_PROMPT
                 && t.next.runner == s.runner.(lines := s.runner.lines + [line])
                 && t.handled == Continue)
  {
  }

  /** `eof_handler`: at indent level 0 terminate with status 0, otherwise
      unwind one level and continue. */
  function EofSpec(s: Session): Transition
  {
    if s.indentLevel == 0 then Transition(s, Stop(Ok(0)))
    else Transition(s.(indentLevel := s.indentLevel - 1), Continue)
  }

  /** `interrupt_handler`: a second interrupt terminates with status 2; the
      first only raises the flag. */
  function InterruptSpec(s: Session): Transition
  {
    if s.interrupted then Transition(s, Stop(Ok(2)))
    else Transition(s.(interrupted := true), Continue)
  }

  /** One turn of the `init` loop: dispatch what `readline` returned. */
  function Step(s: Session, event: ReadEvent): (t: Transition)
    ensures t.next.indentLevel <= s.indentLevel
    ensures WellFormed(s) ==> WellFormed(t.next)
  {
    match event
    case Line(text, world) => ExecuteLineSpec(s, text, world)
    case Interrupted => InterruptSpec(s)
    case Eof => EofSpec(s)
    case OtherError(reason) => Transition(s, Stop(Err(RustyLine(reason))))
  }

  /** Which reads end the loop, and with which exit: a read error with that
      error, end-of-input at indent level 0 with status 0, a second interrupt
      with status 2. A line never does; it can only panic. */
  lemma StepExits(s: Session, event: ReadEvent)
    ensures var t := Step(s, event);
            && (t.handled.Stop? && t.handled.exit.Err? <==> event.OtherError?)
            && (t.handled == Stop(Ok(0)) <==> event.Eof? && s.indentLevel == 0)
            && (t.handled == Stop(Ok(2)) <==> event.Interrupted? && s.interrupted)
            && (t.handled.Panic? ==> event.Line?)
  {
  }

  /** How the loop ended: a handler returned `Some(exit)`, a handler
      panicked, or the events ran out while the loop still waits for input. */
  datatype SessionEnd = Exited(exit: Exit) | Aborted(message: string) | AwaitingInput

  datatype Finish = Finish(state: Session, end: SessionEnd, consumed: nat)

  /** `init`: feed events to the handlers until one returns `Some`. */
  function Run(s: Session, events: seq<ReadEvent>): (f: Finish)
    ensures f.consumed <= |events|
    ensures f.end.AwaitingInput? ==> f.consumed == |events|
    ensures !f.end.AwaitingInput? ==> f.consumed >= 1
    decreases |events|
  {
    if events == [] then Finish(s, AwaitingInput, 0)
    else
      var t := Step(s, events[0]);
      match t.handled
      case Continue =>
        var f := Run(t.next, events[1..]);
        f.(consumed := f.consumed + 1)
      case Stop(exit) => Finish(t.next, Exited(exit), 1)
      case Panic(message) => Finish(t.next, Aborted(message), 1)
  }

  // ---------------------------------------------------------------------------
  // Properties of the session

  function Eofs(n: nat): (r: seq<ReadEvent>)
    ensures |r| == n && forall i :: 0 <= i < n ==> r[i] == Eof
  {
    seq(n, _ => Eof)
  }

  /** From indent level N, the first N end-of-input signals each unwind one
      level and the (N+1)-th terminates with status 0; nothing after it is read. */
  lemma {:induction false} EofUnwind(s: Session, rest: seq<ReadEvent>)
    ensures Run(s, Eofs(s.indentLevel + 1) + rest) == Finish(s.(indentLevel := 0), Exited(Ok(0)), s.indentLevel + 1)
    decreases s.indentLevel
  {
    var events := Eofs(s.indentLevel + 1) + rest;
    assert events[0] == Eof;
    if s.indentLevel > 0 {
      var s' := s.(indentLevel := s.indentLevel - 1);
      assert events[1..] == Eofs(s'.indentLevel + 1) + rest;
      EofUnwind(s', rest);
    }
  }

  /** An interrupt with the flag down warns and continues; a second one right
      after terminates with status 2. */
  lemma DoubleInterrupt(s: Session, rest: seq<ReadEvent>)
    requires !s.interrupted
    ensures Run(s, [Interrupted, Interrupted] + rest) == Finish(s.(interrupted := true), Exited(Ok(2)), 2)
  {
    var events := [Interrupted, Interrupted] + rest;
    assert events[1..] == [Interrupted] + rest;
  }

  /** A line read between two interrupts lowers the flag again, so the second
      interrupt only warns. */
  lemma LineResetsInterrupt(s: Session, text: string, world: R.World, rest: seq<ReadEvent>)
    requires !s.interrupted
    requires ExecuteLineSpec(s.(interrupted := true), text, world).handled == Continue
    ensures var u := ExecuteLineSpec(s.(interrupted := true), text, world).next;
            var f := Run(u.(interrupted := true), rest);
            Run(s, [Interrupted, Line(text, world), Interrupted] + rest) == f.(consumed := f.consumed + 3)
  {
    var s1 := s.(interrupted := true);
    var u := ExecuteLineSpec(s1, text, world).next;
    var events := [Interrupted, Line(text, world), Interrupted] + rest;
    var e1 := [Line(text, world), Interrupted] + rest;
    var e2 := [Interrupted] + rest;
    var f := Run(u.(interrupted := true), rest);
    assert events[1..] == e1 && e1[1..] == e2 && e2[1..] == rest;
    assert Step(u, Interrupted) == Transition(u.(interrupted := true), Continue);
    assert Run(u, e2) == f.(consumed := f.consumed + 1);
    assert Run(s1, e1) == f.(consumed := f.consumed + 2);
    assert Step(s, Interrupted) == Transition(s1, Continue);
  }

  /** A read-line failure other than an interrupt or end-of-input terminates
      the loop with that error, leaving the state as it was. */
  lemma ReadErrorTerminates(s: Session, reason: string, rest: seq<ReadEvent>)
    ensures Run(s, [OtherError(reason)] + rest) == Finish(s, Exited(Err(RustyLine(reason))), 1)
  {
  }

  /** Once a handler has returned `Some` or panicked, no later input is read. */
  lemma {:induction false} NothingReadAfterEnd(s: Session, events: seq<ReadEvent>, more: seq<ReadEvent>)
    requires !Run(s, events).end.AwaitingInput?
    ensures Run(s, events + more) == Run(s, events)
    decreases |events|
  {
    assert (events + more)[0] == events[0];
    var t := Step(s, events[0]);
    if t.handled.Continue? {
      assert (events + more)[1..] == events[1..] + more;
      NothingReadAfterEnd(t.next, events[1..], more);
    }
  }

  /** No handler raises the indent level. */
  lemma {:induction false} IndentNeverRises(s: Session, events: seq<ReadEvent>)
    ensures Run(s, events).state.indentLevel <= s.indentLevel
    decreases |events|
  {
    if events != [] {
      var t := Step(s, events[0]);
      if t.handled.Continue? {
        IndentNeverRises(t.next, events[1..]);
      }
    }
  }

  /** So in every session `Ares::new` starts, the indent level stays 0 and
      the first end-of-input signal always terminates with status 0. */
  lemma FreshSessionIndentStaysZero(events: seq<ReadEvent>, rest: seq<ReadEvent>)
    requires Run(InitialSession(), events).end.AwaitingInput?
    ensures Run(InitialSession(), events).state.indentLevel == 0
    ensures var u := Run(InitialSession(), events).state;
            Run(u, [Eof] + rest) == Finish(u, Exited(Ok(0)), 1)
  {
    IndentNeverRises(InitialSession(), events);
  }

  /** The buffer only grows: earlier lines are never changed or removed. */
  lemma {:induction false} BufferOnlyGrows(s: Session, events: seq<ReadEvent>)
    ensures var lines := Run(s, events).state.runner.lines;
            |s.runner.lines| <= |lines| && lines[..|s.runner.lines|] == s.runner.lines
    decreases |events|
  {
    if events != [] {
      var t := Step(s, events[0]);
      assert |s.runner.lines| <= |t.next.runner.lines| && t.next.runner.lines[..|s.runner.lines|] == s.runner.lines;
      if t.handled.Continue? {
        BufferOnlyGrows(t.next, events[1..]);
      }
    }
  }

  /** Every state a run passes through is well formed. */
  lemma {:induction false} RunKeepsWellFormed(s: Session, events: seq<ReadEvent>)
    requires WellFormed(s)
    ensures WellFormed(Run(s, events).state)
    decreases |events|
  {
    if events != [] {
      var t := Step(s, events[0]);
      if t.handled.Continue? {
        RunKeepsWellFormed(t.next, events[1..]);
      }
    }
  }

  function CountLines(events: seq<ReadEvent>): nat
  {
    if events == [] then 0 else CountLines(events[..|events| - 1]) + (if events[|events| - 1].Line? then 1 else 0)
  }

  /** Each line read adds exactly one to the line number, and nothing else
      changes it (the run must not have panicked, which it does at `u32::MAX`). */
  lemma {:induction false} LineNumberCountsLines(s: Session, events: seq<ReadEvent>)
    requires !Run(s, events).end.Aborted?
    ensures Run(s, events).state.lineNumber == s.lineNumber + CountLines(events[..Run(s, events).consumed])
    decreases |events|
  {
    if events != [] {
      var t := Step(s, events[0]);
      var f := Run(s, events);
      CountLinesFirst(events[..f.consumed]);
      StepCountsLine(s, events[0]);
      if t.handled.Continue? {
        var rest := events[1..];
        var g := Run(t.next, rest);
        assert f == g.(consumed := g.consumed + 1);
        LineNumberCountsLines(t.next, rest);
        TakeThenDrop(events, f.consumed);
      } else {
        assert events[..f.consumed] == [events[0]];
      }
    }
  }

  lemma TakeThenDrop<T>(s: seq<T>, k: nat)
    requires 1 <= k <= |s|
    ensures s[..k][1..] == s[1..][..k - 1]
  {
  }

  lemma StepCountsLine(s: Session, event: ReadEvent)
    ensures var t := Step(s, event);
            !t.handled.Panic? ==> t.next.lineNumber == s.lineNumber + (if event.Line? then 1 else 0)
  {
    if event.Line? {
      LineIsCounted(s, event.text, event.world);
    }
  }

  lemma {:induction false} CountLinesFirst(events: seq<ReadEvent>)
    requires events != []
    ensures CountLines(events) == (if events[0].Line? then 1 else 0) + CountLines(events[1..])
    decreases |events|
  {
    if |events| > 1 {
      var init := events[..|events| - 1];
      CountLinesFirst(init);
      assert init[1..] == events[1..][..|events[1..]| - 1];
    } else {
      assert events[1..] == [];
    }
  }

  // ---------------------------------------------------------------------------
  // The session object

  class Ares {
    var lineNumber: nat
    var indentLevel: nat
    var interrupted: bool
    var promptEnding: string
    const runner: R.Runner

    function State(): Session
      reads this, runner
    {
      Session(lineNumber, indentLevel, interrupted, promptEnding, runner.State())
    }

    ghost predicate Valid()
      reads this, runner
    {
      runner.Valid() && WellFormed(State())
    }

    constructor Create(runner: R.Runner)
      requires runner.Valid() && runner.codeLines == [] && runner.file == ""
      ensures Valid() && this.runner == runner
      ensures State() == InitialSession()
    {
      this.runner := runner;
      lineNumber := 1;
      indentLevel := 0;
      promptEnding := STANDARD_PROMPT;
      interrupted := false;
    }

    /** `Ares::new`: build the runner, failing with its error, and start at
        line 1, indent level 0, the standard prompt and no interrupt. */
    static method New(fs: R.Fs) returns (r: Result<Ares>)
      ensures r.Ok? <==> fs.currentDirError.None? && fs.createDirError.None? && fs.createFileError.None?
      ensures r.Err? ==> r.error.RustRunner? && R.NewError(fs) == R.Some(r.error.error)
      ensures r.Ok? ==> fresh(r.value) && fresh(r.value.runner) && r.value.Valid()
      ensures r.Ok? ==> r.value.State() == InitialSession()
    {
      var runner := R.Runner.New(fs);
      if runner.Err? {
        return Err(RustRunner(runner.error));
      }
      var ares := new Ares.Create(runner.value);
      return Ok(ares);
    }

    /** `prompt()`: the prompt of the session's current fields; it ends with
        the current prompt ending and one space. */
    function Prompt(): (r: string)
      reads this
      ensures r == PromptText(lineNumber, indentLevel, promptEnding)
      ensures |r| >= |promptEnding| + 1 && r[|r| - 1 - |promptEnding|..] == promptEnding + " "
    {
      PromptEnding(lineNumber, indentLevel, promptEnding);
      PromptText(lineNumber, indentLevel, promptEnding)
    }

    method ExecuteLine(line: string, world: R.World) returns (h: Handled)
      requires Valid()
      modifies this, runner
      ensures Valid()
      ensures Transition(State(), h) == ExecuteLineSpec(old(State()), line, world)
    {
      interrupted := false;
      if lineNumber == U32_MAX {
        return Panic(ADD_OVERFLOW);
      }
      lineNumber := lineNumber + 1;
      if EndsWithSemicolon(line) {
        promptEnding := STANDARD_PROMPT;
        var result := runner.Execute(line, world);
        // `Ok(output)` and `Err(Io(_))` are printed and the session goes on.
        h := if result.Panic? then Panic(result.message) else Continue;
      } else {
        R.RenderGrows(runner.codeLines, line);
        runner.codeLines := runner.codeLines + [line];
        promptEnding := PENDING_PROMPT;
        h := Continue;
      }
    }

    method EofHandler() returns (h: Handled)
      requires Valid()
      modifies this
      ensures Valid()
      ensures Transition(State(), h) == EofSpec(old(State()))
    {
      if indentLevel == 0 {
        h := Stop(Ok(0));
      } else {
        indentLevel := indentLevel - 1;
        h := Continue;
      }
    }

    method InterruptHandler() returns (h: Handled)
      requires Valid()
      modifies this
      ensures Valid()
      ensures Transition(State(), h) == InterruptSpec(old(State()))
    {
      if interrupted {
        h := Stop(Ok(2));
      } else {
        interrupted := true;
        h := Continue;
      }
    }

    /** The `match` of `init`'s loop body: hand what `readline` returned to
        its handler; a read error other than an interrupt or end-of-input
        becomes the exit. */
    method Dispatch(event: ReadEvent) returns (h: Handled)
      requires Valid()
      modifies this, runner
      ensures Valid()
      ensures Transition(State(), h) == Step(old(State()), event)
    {
      match event {
        case Line(text, world) => h := ExecuteLine(text, world);
        case Interrupted => h := InterruptHandler();
        case Eof => h := EofHandler();
        case OtherError(reason) => h := Stop(Err(RustyLine(reason)));
      }
    }

    /** `init`: read, dispatch, and return as soon as a handler returns
        `Some`. The events stand for successive `readline` results. */
    method Init(events: seq<ReadEvent>) returns (end: SessionEnd, consumed: nat)
      requires Valid()
      modifies this, runner
      ensures Valid()
      ensures Finish(State(), end, consumed) == Run(old(State()), events)
    {
      var i := 0;
      while i < |events|
        invariant 0 <= i <= |events|
        invariant Valid()
        invariant var f := Run(State(), events[i..]);
                  Run(old(State()), events) == f.(consumed := f.consumed + i)
        decreases |events| - i
      {
        var h := Dispatch(events[i]);
        assert events[i..][1..] == events[i + 1..];
        i := i + 1;
        match h {
          case Stop(exit) => return Exited(exit), i;
          case Panic(message) => return Aborted(message), i;
          case Continue =>
        }
      }
      assert events[i..] == [];
      return AwaitingInput, i;
    }
  }
}
