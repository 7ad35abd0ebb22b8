/** The runner: an append-only buffer of source lines, its rendering into a
    complete `main` function, the workspace paths, and the write, compile and
    execute pipeline. The file system and the two child processes (`rustc` and
    the produced `./ares`) are not modelled; their outcomes are supplied as
    values (`Fs`, `WriteFault`, `Process`). The contents of the code file are
    modelled, so that the effect of rewriting it without truncation is visible. */
module RustRunner {

  datatype Option<T> = None | Some(value: T)

  /** `RunnerError` has a single variant, `Io`. */
  datatype RunnerError = Io(reason: string)

  /** What a Rust call does: return `Ok`, return `Err`, or panic. A panic is
      not caught anywhere, so it ends the process. */
  datatype Outcome<T> = Ok(value: T) | Err(error: RunnerError) | Panic(message: string)

  const COMPILE_PANIC := "TODO Compilation failed. Use StdOut and StdErr"
  const RUNTIME_PANIC := "TODO Runtime error in code"

  // ---------------------------------------------------------------------------
  // Workspace paths

  /** A path as the list of its components. */
  datatype Path = Path(components: seq<string>)

  /** `PathBuf::push` of a single relative component. */
  function Join(p: Path, name: string): (r: Path)
    ensures |r.components| == |p.components| + 1
    ensures r.components[..|p.components|] == p.components
    ensures r.components[|p.components|] == name
  {
    Path(p.components + [name])
  }

  const TEMP_DIR_NAME := ".tmp_ares"
  const CODE_FILE_NAME := "ares.rs"

  /** The outcomes of the file-system calls made while building a runner. */
  datatype Fs = Fs(
    currentDir: Path,                 // what `current_dir()` returns when it succeeds
    currentDirError: Option<string>,  // `current_dir()` fails
    createDirError: Option<string>,   // `fs::create_dir` fails (for one, the directory exists)
    createFileError: Option<string>)  // opening `ares.rs` with `create(true)` fails

  /** `generate_temp_dir`: the current directory extended by `.tmp_ares`,
      created on disk; either failure is an `Io` error. */
  function GenerateTempDir(fs: Fs): (r: Outcome<Path>)
    ensures !r.Panic?
    ensures r.Ok? <==> fs.currentDirError.None? && fs.createDirError.None?
    ensures r.Ok? ==> r.value.components == fs.currentDir.components + [TEMP_DIR_NAME]
    ensures fs.currentDirError.Some? ==> r == Err(Io(fs.currentDirError.value))
  {
    if fs.currentDirError.Some? then Err(Io(fs.currentDirError.value))
    else if fs.createDirError.Some? then Err(Io(fs.createDirError.value))
    else Ok(Join(fs.currentDir, TEMP_DIR_NAME))
  }

  /** `generate_code_file`: the directory extended by `ares.rs`, created empty. */
  function GenerateCodeFile(dir: Path, fs: Fs): (r: Outcome<Path>)
    ensures !r.Panic?
    ensures r.Ok? <==> fs.createFileError.None?
    ensures r.Ok? ==> r.value.components == dir.components + [CODE_FILE_NAME]
  {
    if fs.createFileError.Some? then Err(Io(fs.createFileError.value))
    else Ok(Join(dir, CODE_FILE_NAME))
  }

  /** The error `Runner::new` returns: that of the first of its file-system
      calls to fail, passed on by `?`; `None` when none fails. */
  function NewError(fs: Fs): (e: Option<RunnerError>)
    ensures e.None? <==> fs.currentDirError.None? && fs.createDirError.None? && fs.createFileError.None?
    ensures fs.currentDirError.Some? ==> e == Some(Io(fs.currentDirError.value))
    ensures fs.currentDirError.None? && fs.createDirError.Some? ==> e == Some(Io(fs.createDirError.value))
    ensures fs.currentDirError.None? && fs.createDirError.None? && fs.createFileError.Some? ==>
      e == Some(Io(fs.createFileError.value))
  {
    var dir := GenerateTempDir(fs);
    if dir.Err? then Some(dir.error)
    else
      var path := GenerateCodeFile(dir.value, fs);
      if path.Err? then Some(path.error) else None
  }

  /** The two `?` steps of `Runner::new`, in order. */
  lemma WorkspaceLayout(fs: Fs)
    ensures GenerateTempDir(fs).Ok? && GenerateCodeFile(GenerateTempDir(fs).value, fs).Ok?
            <==> fs.currentDirError.None? && fs.createDirError.None? && fs.createFileError.None?
    ensures GenerateTempDir(fs).Ok? && GenerateCodeFile(GenerateTempDir(fs).value, fs).Ok? ==>
            GenerateCodeFile(GenerateTempDir(fs).value, fs).value.components
              == fs.currentDir.components + [TEMP_DIR_NAME, CODE_FILE_NAME]
  {
  }

  // ---------------------------------------------------------------------------
  // Rendering the buffer

  const HEADER := "fn main() {\n"
  const FOOTER := "}"

  /** One buffered line as `write_code` emits it: a tab, the line, a newline. */
  function RenderLine(l: string): string
  {
    "\t" + l + "\n"
  }

  /** The program text up to its closing brace: the header, then every
      buffered line in order. */
  function Opened(lines: seq<string>): string
  {
    if lines == [] then HEADER else Opened(lines[..|lines| - 1]) + RenderLine(lines[|lines| - 1])
  }

  /** Opening one more line of the buffer appends that line's rendering. */
  lemma OpenedStep(lines: seq<string>, i: nat)
    requires i < |lines|
    ensures Opened(lines[..i + 1]) == Opened(lines[..i]) + RenderLine(lines[i])
  {
    assert lines[..i + 1][..i] == lines[..i];
  }

  /** The whole program text `write_code` produces from the buffer. */
  function Render(lines: seq<string>): string
  {
    Opened(lines) + FOOTER
  }

  /** The opened text of a buffer is a prefix of that of any longer buffer. */
  lemma {:induction false} OpenedPrefix(lines: seq<string>, more: seq<string>)
    ensures |Opened(lines)| + |more| <= |Opened(lines + more)|
    ensures Opened(lines + more)[..|Opened(lines)|] == Opened(lines)
    decreases |more|
  {
    if more == [] {
      assert lines + more == lines;
    } else {
      var more' := more[..|more| - 1];
      assert (lines + more)[..|lines + more| - 1] == lines + more';
      OpenedPrefix(lines, more');
      var o := Opened(lines + more');
      assert Opened(lines + more) == o + RenderLine(more[|more| - 1]);
      assert (o + RenderLine(more[|more| - 1]))[..|o|] == o;
    }
  }

  /** The buffer's lines appear in buffer order: the rendering starts with the
      header and the first `i` lines, and line `i` comes next, as
      `"\t" + lines[i] + "\n"`. */
  lemma RenderLineAt(lines: seq<string>, i: nat)
    requires i < |lines|
    ensures |Render(lines)| >= |Opened(lines[..i])| + |lines[i]| + 2
    ensures Render(lines)[..|Opened(lines[..i])| + |lines[i]| + 2] == Opened(lines[..i]) + RenderLine(lines[i])
  {
    var head := lines[..i + 1];
    assert head[..i] == lines[..i];
    assert head + lines[i + 1..] == lines;
    OpenedPrefix(head, lines[i + 1..]);
    assert Opened(head) == Opened(lines[..i]) + RenderLine(lines[i]);
  }

  /** Appending lines to the buffer keeps all of the old rendering but its
      closing brace as a prefix of the new one, and never shortens it. */
  lemma RenderExtends(lines: seq<string>, more: seq<string>)
    ensures Render(lines)[..|Render(lines)| - 1] == Opened(lines)
    ensures |Render(lines)| + |more| <= |Render(lines + more)|
    ensures Render(lines + more)[..|Opened(lines)|] == Opened(lines)
  {
    OpenedPrefix(lines, more);
    var o := Opened(lines + more);
    assert (o + FOOTER)[..|o|] == o;
  }

  /** Appending one line adds exactly that line's text before the closing brace. */
  lemma RenderGrows(lines: seq<string>, l: string)
    ensures Render(lines + [l]) == Opened(lines) + RenderLine(l) + FOOTER
    ensures |Render(lines + [l])| == |Render(lines)| + |l| + 2
  {
    assert (lines + [l])[..|lines|] == lines;
  }

  // ---------------------------------------------------------------------------
  // The code file, rewritten without truncation

  /** The file after `chunk` is written at byte offset `pos`: the bytes under
      the chunk are replaced and any bytes after it are kept. */
  function WriteAt(file: string, pos: nat, chunk: string): (r: string)
    requires pos <= |file|
    ensures |r| == if pos + |chunk| <= |file| then |file| else pos + |chunk|
  {
    file[..pos] + chunk + (if pos + |chunk| <= |file| then file[pos + |chunk|..] else "")
  }

  /** The file after `text` has been written from offset 0 into it, without
      truncating it first (`OpenOptions::new().write(true)`). */
  function Overwrite(file: string, text: string): (r: string)
    ensures |r| == if |file| <= |text| then |text| else |file|
    ensures |file| <= |text| ==> r == text
  {
    if |file| <= |text| then text else text + file[|text|..]
  }

  /** A write at `pos` changes exactly the bytes it covers. */
  lemma WriteAtChanges(file: string, pos: nat, chunk: string)
    requires pos <= |file|
    ensures WriteAt(file, pos, chunk)[..pos] == file[..pos]
    ensures WriteAt(file, pos, chunk)[pos..pos + |chunk|] == chunk
    ensures forall i :: pos + |chunk| <= i < |WriteAt(file, pos, chunk)| ==> WriteAt(file, pos, chunk)[i] == file[i]
  {
  }

  /** After an overwrite the file starts with the text, and any bytes of the
      old contents beyond the text's length are still there. */
  lemma OverwriteKeepsTail(file: string, text: string)
    ensures Overwrite(file, text)[..|text|] == text
    ensures forall i :: |text| <= i < |Overwrite(file, text)| ==> Overwrite(file, text)[i] == file[i]
  {
  }

  /** Writing the next chunk at the cursor continues the overwrite. */
  lemma WriteAtCursor(before: string, written: string, chunk: string)
    ensures |written| <= |Overwrite(before, written)|
    ensures WriteAt(Overwrite(before, written), |written|, chunk) == Overwrite(before, written + chunk)
  {
    var f := Overwrite(before, written);
    var r := WriteAt(f, |written|, chunk);
    var o := Overwrite(before, written + chunk);
    WriteAtChanges(f, |written|, chunk);
    OverwriteKeepsTail(before, written);
    OverwriteKeepsTail(before, written + chunk);
    assert |r| == |o|;
    forall i | 0 <= i < |r|
      ensures r[i] == o[i]
    {
      if i < |written| {
        assert r[i] == r[..|written|][i] == f[..|written|][i];
        assert o[i] == o[..|written + chunk|][i];
      } else if i < |written| + |chunk| {
        assert r[i] == r[|written|..|written| + |chunk|][i - |written|];
        assert o[i] == o[..|written + chunk|][i];
      }
    }
  }

  /** Which I/O call of `write_code` fails, and how: call 0 opens the file,
      call 1 writes the header, call `2 + i` writes line `i`, call
      `2 + |lines|` writes the closing brace. A fault whose index is past
      the last call never happens. */
  datatype WriteFault = WriteFault(call: nat, reason: string)

  predicate FailsAt(fault: Option<WriteFault>, call: nat) {
    fault.Some? && fault.value.call == call
  }

  /** The runner's state as a value: the buffer and the code file's contents. */
  datatype RunnerState = RunnerState(lines: seq<string>, file: string)

  /** A runner state with the state changed and the result of the call. */
  datatype Effect<T> = Effect(state: RunnerState, result: Outcome<T>)

  /** The file never holds more bytes than the rendering of the buffer, so a
      complete rewrite without truncation leaves nothing of an older version. */
  predicate NoStaleBytes(s: RunnerState) {
    |s.file| <= |Render(s.lines)|
  }

  /** The text that reaches the file before call `call` of `write_code` fails. */
  function WrittenBefore(lines: seq<string>, call: nat): (r: string)
    requires call <= |lines| + 2
  {
    if call <= 1 then "" else Opened(lines[..call - 2])
  }

  /** What reaches the file before a failing call is a proper prefix of the
      rendering. */
  lemma WrittenBeforeIsPrefix(lines: seq<string>, call: nat)
    requires call <= |lines| + 2
    ensures |WrittenBefore(lines, call)| < |Render(lines)|
    ensures WrittenBefore(lines, call) == Render(lines)[..|WrittenBefore(lines, call)|]
  {
    if call > 1 {
      RenderExtends(lines[..call - 2], lines[call - 2..]);
      assert lines[..call - 2] + lines[call - 2..] == lines;
    }
  }

  /** `write_code` as a function of the state: the file after the writes, and
      whether they all succeeded. */
  function WriteSpec(s: RunnerState, fault: Option<WriteFault>): (r: Effect<()>)
    ensures r.state.lines == s.lines && !r.result.Panic?
    ensures r.result.Err? <==> fault.Some? && fault.value.call <= |s.lines| + 2
    ensures r.result.Err? ==> r.result.error == Io(fault.value.reason)
    ensures NoStaleBytes(s) ==> NoStaleBytes(r.state)
    ensures NoStaleBytes(s) && r.result.Ok? ==> r.state.file == Render(s.lines)
  {
    if fault.Some? && fault.value.call <= |s.lines| + 2 then
      WrittenBeforeIsPrefix(s.lines, fault.value.call);
      Effect(s.(file := Overwrite(s.file, WrittenBefore(s.lines, fault.value.call))), Err(Io(fault.value.reason)))
    else
      Effect(s.(file := Overwrite(s.file, Render(s.lines))), Ok(()))
  }

  /** Call `fault.call` fails: the file holds what was written before it. */
  lemma WriteStopped(s: RunnerState, fault: Option<WriteFault>, written: string)
    requires NoStaleBytes(s)
    requires fault.Some? && fault.value.call <= |s.lines| + 2
    requires written == WrittenBefore(s.lines, fault.value.call)
    ensures WriteSpec(s, fault) == Effect(RunnerState(s.lines, Overwrite(s.file, written)), Err(Io(fault.value.reason)))
    ensures NoStaleBytes(RunnerState(s.lines, Overwrite(s.file, written)))
  {
    WrittenBeforeIsPrefix(s.lines, fault.value.call);
  }

  /** No call fails: the file holds exactly the rendering. */
  lemma WriteCompleted(s: RunnerState, fault: Option<WriteFault>)
    requires NoStaleBytes(s)
    requires !(fault.Some? && fault.value.call <= |s.lines| + 2)
    ensures WriteSpec(s, fault) == Effect(RunnerState(s.lines, Render(s.lines)), Ok(()))
    ensures Overwrite(s.file, Render(s.lines)) == Render(s.lines)
  {
  }

  /** The body of `write_code`, with the file's contents as a value: open the
      file for writing without truncating it, then write the header, each
      line in buffer order, and the closing brace, each at the cursor left by
      the previous write. The first failing call ends it with that call's
      error, leaving what was written so far. */
  method WriteFile(lines: seq<string>, file: string, fault: Option<WriteFault>) returns (file': string, res: Outcome<()>)
    requires NoStaleBytes(RunnerState(lines, file))
    ensures Effect(RunnerState(lines, file'), res) == WriteSpec(RunnerState(lines, file), fault)
  {
    file' := file;
    if FailsAt(fault, 0) || FailsAt(fault, 1) {
      WriteStopped(RunnerState(lines, file), fault, "");
      return file', Err(Io(fault.value.reason));
    }
    var cursor;
    file', cursor := WriteChunk(file', 0, HEADER, file, "");
    var written;
    file', cursor, written := WriteLines(lines, file, fault, file', cursor);
    if written < |lines| {
      WriteStopped(RunnerState(lines, file), fault, Opened(lines[..written]));
      return file', Err(Io(fault.value.reason));
    }
    assert lines[..written] == lines;
    if FailsAt(fault, |lines| + 2) {
      WriteStopped(RunnerState(lines, file), fault, Opened(lines));
      return file', Err(Io(fault.value.reason));
    }
    file', cursor := WriteChunk(file', cursor, FOOTER, file, Opened(lines));
    assert Opened(lines) + FOOTER == Render(lines);
    WriteCompleted(RunnerState(lines, file), fault);
    res := Ok(());
  }

  /** The loop of `write_code` over the buffer: each line in order at the
      cursor, until a write fails. `written` lines reached the file; fewer
      than all of them exactly when the write of the next one failed. */
  method WriteLines(lines: seq<string>, ghost before: string, fault: Option<WriteFault>, current: string, at: nat)
    returns (file': string, cursor: nat, written: nat)
    requires current == Overwrite(before, HEADER) && at == |HEADER|
    requires fault.None? || fault.value.call >= 2
    ensures written <= |lines|
    ensures file' == Overwrite(before, Opened(lines[..written]))
    ensures cursor == |Opened(lines[..written])|
    ensures written < |lines| ==> FailsAt(fault, written + 2)
    ensures written == |lines| ==> fault.None? || fault.value.call >= |lines| + 2
  {
    file', cursor := current, at;
    assert HEADER == Opened(lines[..0]);
    written := 0;
    while written < |lines|
      invariant 0 <= written <= |lines|
      invariant file' == Overwrite(before, Opened(lines[..written]))
      invariant cursor == |Opened(lines[..written])|
      invariant fault.None? || fault.value.call >= written + 2
    {
      if FailsAt(fault, written + 2) {
        return;
      }
      OpenedStep(lines, written);
      file', cursor := WriteChunk(file', cursor, RenderLine(lines[written]), before, Opened(lines[..written]));
      written := written + 1;
    }
  }

  /** One `write` call: `chunk` goes at the cursor `at`, which stands just
      after everything written since the file was opened. */
  method WriteChunk(current: string, at: nat, chunk: string, ghost before: string, ghost written: string)
    returns (next: string, cursor: nat)
    requires at == |written| && current == Overwrite(before, written)
    ensures next == Overwrite(before, written + chunk)
    ensures cursor == at + |chunk|
  {
    WriteAtCursor(before, written, chunk);
    next := WriteAt(current, at, chunk);
    cursor := at + |chunk|;
  }

  // ---------------------------------------------------------------------------
  // The child processes

  /** What spawning and awaiting a child process produced: either spawning
      failed with an I/O error, or the process ended with an exit code (`None`
      when a signal ended it) and a standard output, already decoded. */
  datatype Process = SpawnFailed(reason: string) | Exited(code: Option<int>, stdout: string)

  /** The outcomes of the external steps one run would meet. */
  datatype World = World(write: Option<WriteFault>, compiler: Process, program: Process)

  /** `compile_code`: spawn `rustc ares.rs` in the workspace; exit code 0
      succeeds, any other status panics. */
  function CompileCode(compiler: Process): (r: Outcome<()>)
    ensures r.Ok? <==> compiler.Exited? && compiler.code == Some(0)
    ensures r.Err? <==> compiler.SpawnFailed?
    ensures r.Err? ==> r.error == Io(compiler.reason)
    ensures r.Panic? ==> r.message == COMPILE_PANIC
  {
    match compiler
    case SpawnFailed(reason) => Err(Io(reason))
    case Exited(code, _) => if code == Some(0) then Ok(()) else Panic(COMPILE_PANIC)
  }

  /** `execute_code`: spawn `./ares` in the workspace; exit code 0 yields its
      standard output, any other status panics. */
  function ExecuteCode(program: Process): (r: Outcome<string>)
    ensures r.Ok? <==> program.Exited? && program.code == Some(0)
    ensures r.Ok? ==> r.value == program.stdout
    ensures r.Err? <==> program.SpawnFailed?
    ensures r.Err? ==> r.error == Io(program.reason)
    ensures r.Panic? ==> r.message == RUNTIME_PANIC
  {
    match program
    case SpawnFailed(reason) => Err(Io(reason))
    case Exited(code, stdout) => if code == Some(0) then Ok(stdout) else Panic(RUNTIME_PANIC)
  }

  /** `run_code`: write, then compile, then execute; the first step that does
      not return `Ok` decides the outcome and the later steps never run. */
  function RunSpec(s: RunnerState, world: World): (r: Effect<string>)
    ensures r.state == WriteSpec(s, world.write).state
    ensures WriteSpec(s, world.write).result.Err? ==> r.result == Err(WriteSpec(s, world.write).result.error)
    ensures r.result.Ok? <==>
      WriteSpec(s, world.write).result.Ok? && CompileCode(world.compiler).Ok? && ExecuteCode(world.program).Ok?
    ensures r.result.Ok? ==> r.result.value == world.program.stdout
    ensures WriteSpec(s, world.write).result.Ok? && CompileCode(world.compiler).Err? ==>
      r.result == Err(CompileCode(world.compiler).error)
    ensures WriteSpec(s, world.write).result.Ok? && CompileCode(world.compiler).Panic? ==>
      r.result == Panic(COMPILE_PANIC)
    ensures WriteSpec(s, world.write).result.Ok? && CompileCode(world.compiler).Ok? ==>
      r.result == ExecuteCode(world.program)
    ensures r.result.Panic? <==>
      WriteSpec(s, world.write).result.Ok?
      && (CompileCode(world.compiler).Panic? || (CompileCode(world.compiler).Ok? && ExecuteCode(world.program).Panic?))
  {
    var w := WriteSpec(s, world.write);
    if w.result.Err? then Effect(w.state, Err(w.result.error))
    else
      match CompileCode(world.compiler)
      case Err(e) => Effect(w.state, Err(e))
      case Panic(m) => Effect(w.state, Panic(m))
      case Ok(_) => Effect(w.state, ExecuteCode(world.program))
  }

  /** The program's outcome is looked at only when both the write and the
      compiler succeeded; otherwise the run ends the same whatever it is. */
  lemma ProgramRunsOnlyAfterCompile(s: RunnerState, write: Option<WriteFault>, compiler: Process, p1: Process, p2: Process)
    ensures RunSpec(s, World(write, compiler, p1)) != RunSpec(s, World(write, compiler, p2)) ==>
      WriteSpec(s, write).result.Ok? && CompileCode(compiler).Ok?
  {
  }

  /** The compiler's outcome is looked at only when the write succeeded. */
  lemma CompileRunsOnlyAfterWrite(s: RunnerState, write: Option<WriteFault>, c1: Process, c2: Process, p1: Process, p2: Process)
    ensures RunSpec(s, World(write, c1, p1)) != RunSpec(s, World(write, c2, p2)) ==>
      WriteSpec(s, write).result.Ok?
  {
  }

  /** `execute`: push the line, then run the whole buffer. */
  function ExecuteSpec(s: RunnerState, line: string, world: World): (r: Effect<string>)
    ensures r.state.lines == s.lines + [line]
    ensures NoStaleBytes(s) ==> NoStaleBytes(r.state)
    ensures NoStaleBytes(s) && WriteSpec(s.(lines := s.lines + [line]), world.write).result.Ok? ==>
      r.state.file == Render(s.lines + [line])
  {
    RenderGrows(s.lines, line);
    RunSpec(s.(lines := s.lines + [line]), world)
  }

  // ---------------------------------------------------------------------------
  // The runner object

  class Runner {
    var codeLines: seq<string>
    /** The contents of the code file `ares.rs` in the workspace. */
    var file: string
    const tempDir: Path
    const codeFilePath: Path

    function State(): RunnerState
      reads this
    {
      RunnerState(codeLines, file)
    }

    ghost predicate Valid()
      reads this
    {
      && codeFilePath.components == tempDir.components + [CODE_FILE_NAME]
      && NoStaleBytes(State())
    }

    constructor Create(tempDir: Path, codeFilePath: Path)
      requires codeFilePath.components == tempDir.components + [CODE_FILE_NAME]
      ensures Valid()
      ensures this.tempDir == tempDir && this.codeFilePath == codeFilePath
      ensures codeLines == [] && file == ""
    {
      this.tempDir := tempDir;
      this.codeFilePath := codeFilePath;
      codeLines := [];
      file := "";
    }

    /** `Runner::new`: make the workspace directory and the empty code file,
        and start with an empty buffer. */
    static method New(fs: Fs) returns (r: Outcome<Runner>)
      ensures !r.Panic?
      ensures r.Ok? <==> fs.currentDirError.None? && fs.createDirError.None? && fs.createFileError.None?
      ensures r.Err? && fs.currentDirError.Some? ==> r.error == Io(fs.currentDirError.value)
      ensures r.Err? ==> NewError(fs) == Some(r.error)
      ensures r.Ok? ==> fresh(r.value) && r.value.Valid()
      ensures r.Ok? ==> r.value.codeLines == [] && r.value.file == ""
      ensures r.Ok? ==> r.value.tempDir.components == fs.currentDir.components + [TEMP_DIR_NAME]
      ensures r.Ok? ==> r.value.codeFilePath.components == fs.currentDir.components + [TEMP_DIR_NAME, CODE_FILE_NAME]
    {
      var dir := GenerateTempDir(fs);
      if !dir.Ok? {
        return Err(dir.error);
      }
      var path := GenerateCodeFile(dir.value, fs);
      if !path.Ok? {
        return Err(path.error);
      }
      var runner := new Runner.Create(dir.value, path.value);
      return Ok(runner);
    }

    /** `execute`: push the line onto the buffer, then run the buffer. */
    method Execute(nextLine: string, world: World) returns (res: Outcome<string>)
      requires Valid()
      modifies this
      ensures Valid()
      ensures codeLines == old(codeLines) + [nextLine]
      ensures Effect(State(), res) == ExecuteSpec(old(State()), nextLine, world)
    {
      RenderGrows(codeLines, nextLine);
      codeLines := codeLines + [nextLine];
      res := RunCode(world);
    }

    /** `run_code`: write, compile, execute, stopping at the first step that
        does not return `Ok`. */
    method RunCode(world: World) returns (res: Outcome<string>)
      requires Valid()
      modifies this
      ensures Valid()
      ensures codeLines == old(codeLines)
      ensures Effect(State(), res) == RunSpec(old(State()), world)
    {
      var written := WriteCode(world.write);
      if written.Err? {
        return Err(written.error);
      }
      var compiled := CompileCode(world.compiler);
      if !compiled.Ok? {
        return if compiled.Err? then Err(compiled.error) else Panic(compiled.message);
      }
      res := ExecuteCode(world.program);
    }

    /** `write_code`: rewrite the code file from the buffer (see `WriteFile`). */
    method WriteCode(fault: Option<WriteFault>) returns (res: Outcome<()>)
      requires Valid()
      modifies this`file
      ensures Valid()
      ensures Effect(State(), res) == WriteSpec(old(State()), fault)
    {
      file, res := WriteFile(codeLines, file, fault);
    }
  }
}
