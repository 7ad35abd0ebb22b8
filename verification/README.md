# ares: a model of the REPL session and its code runner

ares is a read–eval–print loop for Rust. The user types statements at a
prompt such as ` ares:001:0-> `. A line that does not end in `;` is only
added to the code buffer, and the prompt ending changes to `-*`. A line
that does end in `;` is added and the whole buffer is run:

1. The buffer is written into `.tmp_ares/ares.rs` as the body of
   `fn main() { … }`.
2. The file is compiled with `rustc`.
3. The produced `./ares` binary is run, and its output is shown.

The session counts lines and tracks an indent level. An interrupt (Ctrl-C)
must be sent twice in a row to end the session, with status 2. End-of-input
(Ctrl-D) ends it with status 0 when the indent level is 0, and otherwise
only lowers the indent level.

The model has three modules:

- `Format`: Rust's `{}` and `{:03}` rendering of unsigned integers, and
  reading the digits back.
- `RustRunner`: the runner.
  - `Runner` is a class whose fields are the code buffer and the contents
    of the code file.
  - `New`, `Execute`, `RunCode` and `WriteCode` are methods that update
    those fields.
  - `WriteFile` and `WriteLines` hold `write_code`'s loop.
  - Each is proved against a function of the runner's state (`WriteSpec`,
    `RunSpec`, `ExecuteSpec`).
- `Ares`: the session.
  - `Ares` is a class with the session's counters, flag and prompt ending.
    Its handlers and its `Init` loop are methods.
  - Each is proved against a pure transition (`ExecuteLineSpec`,
    `EofSpec`, `InterruptSpec`, `Step`, `Run`), and the lemmas about whole
    runs are stated over those transitions.

Everything outside the process is a parameter, because nothing outside it
can be modelled:

| external input | what the model takes instead |
|---|---|
| the file system | `Fs`, and a `WriteFault` naming which I/O call of `write_code` fails |
| the two child processes | `Process`: spawning failed, or exited with a code and an output |
| the line editor | a sequence of `ReadEvent`s |

A Rust panic is not caught anywhere in the program, so it ends the process.
The model shows each panic as an explicit `Panic` outcome. There are three:

- `rustc` exits with a non-zero status;
- the produced program exits with a non-zero status;
- the `u32` line counter overflows.

The code file is opened for writing without truncation. The model keeps the
file's bytes, so the effect of that is visible. `NoStaleBytes` states that
the file is never longer than the rendering of the buffer. Every operation
preserves it, so each complete rewrite leaves exactly the rendered program
in the file, with no leftover bytes from an earlier version.

## Model

| member | source | states |
|---|---|---|
| Format.Decimal | src/ares.rs:91 | `{}` of a `u32`: at least one digit, no leading zero except for 0 itself, 1/2/3 digits exactly below 10/100/1000 |
| Format.ZeroPadded3 | src/ares.rs:89 | `{:03}`: digits that read back to the number, exactly three of them below 1000, the plain decimal from 1000 on |
| Format.DecimalRoundTrip | src/ares.rs:91 | reading back the decimal rendering of n gives n |
| Format.ParseLeadingZeros | src/ares.rs:89 | zero padding on the left does not change the value read back |
| Format.ParseZeros | src/ares.rs:89 | a string of zeros reads back as 0 |
| RustRunner.Join | src/rust_runner.rs:110-111 | pushing a component extends the path by exactly that component and keeps the rest |
| RustRunner.GenerateTempDir | src/rust_runner.rs:109-114 | succeeds exactly when both `current_dir` and `create_dir` succeed; the result is the current directory joined with `.tmp_ares`; a `current_dir` failure is reported as its I/O error; never panics |
| RustRunner.GenerateCodeFile | src/rust_runner.rs:116-121 | succeeds exactly when opening with `create(true)` succeeds; the result is the directory joined with `ares.rs` |
| RustRunner.WorkspaceLayout | src/rust_runner.rs:53-61 | both workspace steps succeed exactly when no file-system call fails, and the code file is then `<cwd>/.tmp_ares/ares.rs` |
| RustRunner.NewError | src/rust_runner.rs:53-55 | `Runner::new` fails exactly when one of its three file-system calls fails, and its error is that of the first failing call: `current_dir`, then `create_dir`, then opening `ares.rs` |
| RustRunner.RenderLine | src/rust_runner.rs:79 | `"\t{}\n"` of one line; by definition, with its place in the program given by `RenderLineAt` and `OpenedStep` |
| RustRunner.Opened | src/rust_runner.rs:77-80 | the header followed by every line's rendering in buffer order; by definition, with `OpenedStep`, `OpenedPrefix` and `RenderLineAt` stating its structure |
| RustRunner.Render | src/rust_runner.rs:77-81 | the whole program `write_code` writes: `Opened` plus the closing brace; by definition, with `RenderLineAt`, `RenderExtends` and `RenderGrows` stating its structure |
| RustRunner.OpenedStep | src/rust_runner.rs:78-80 | writing one more line of the buffer appends exactly that line's `\t…\n` rendering |
| RustRunner.OpenedPrefix | src/rust_runner.rs:75-83 | the text written for a buffer is a prefix of the text for any longer buffer, by at least one byte per extra line |
| RustRunner.RenderLineAt | src/rust_runner.rs:78-80 | line i of the buffer is rendered right after the header and the lines before it, in buffer order |
| RustRunner.RenderExtends | src/rust_runner.rs:75-83 | the program for a buffer is its opened text plus the closing brace, and that opened text is a prefix of the program for every extension of the buffer |
| RustRunner.RenderGrows | src/rust_runner.rs:63-66 | pushing a line makes the program the old opened text, the new line's rendering and the brace; it grows by the line's length plus two |
| RustRunner.WriteAt | src/rust_runner.rs:79 | after a `write` at the cursor, the file is as long as the larger of its old length and the end of the chunk |
| RustRunner.Overwrite | src/rust_runner.rs:76 | writing text from the start of a file not truncated on open: the longer of the two lengths, and exactly the text when the file was not longer |
| RustRunner.WriteAtChanges | src/rust_runner.rs:77-81 | a `write` keeps the bytes before the cursor, puts the chunk at the cursor and keeps the old bytes after it |
| RustRunner.OverwriteKeepsTail | src/rust_runner.rs:76 | after writing text from the start, the file begins with that text and keeps the old bytes past its end |
| RustRunner.WriteAtCursor | src/rust_runner.rs:77-81 | writing at the cursor left by the previous writes is the same as writing their concatenation from the start |
| RustRunner.WrittenBeforeIsPrefix | src/rust_runner.rs:75-83 | what reaches the file before a failing call is a proper prefix of the full program |
| RustRunner.WriteSpec | src/rust_runner.rs:75-83 | `write_code` keeps the buffer, never panics, and fails exactly when one of its calls fails, with that call's I/O error; it keeps `NoStaleBytes`, and on success the file is exactly the rendered program |
| RustRunner.WriteStopped | src/rust_runner.rs:76-81 | when call k fails, the file holds the old file overwritten by the header and lines written before call k, and the result is that call's error |
| RustRunner.WriteCompleted | src/rust_runner.rs:81-82 | when no call fails, the file holds exactly the rendered program |
| RustRunner.WriteFile | src/rust_runner.rs:75-83 | the body of `write_code` on values (open, header, each line at the cursor, brace, stopping at the first failure) yields exactly `WriteSpec`'s file and result |
| RustRunner.WriteLines | src/rust_runner.rs:78-80 | the `for` loop writes lines in buffer order; the file then holds the header and the lines written so far; it stops short only when the next line's write fails |
| RustRunner.WriteChunk | src/rust_runner.rs:77 | one `write` at the cursor extends what was written since the open by the chunk, and advances the cursor by its length |
| RustRunner.CompileCode | src/rust_runner.rs:86-95 | `Ok` exactly when `rustc` ran and exited with 0; a spawn failure is its I/O error; any other status (or none) panics with the compile message |
| RustRunner.ExecuteCode | src/rust_runner.rs:98-107 | `Ok` with the program's output exactly when it ran and exited with 0; a spawn failure is its I/O error; any other status panics with the runtime message |
| RustRunner.RunSpec | src/rust_runner.rs:68-72 | the file is what `write_code` left, and a write error is the result. After a successful write: a `rustc` spawn error is the result; a non-zero `rustc` status panics with the compile message; and once compiled, the result is exactly `execute_code`'s. The run is `Ok` exactly when all three steps succeed, with the program's stdout as its value. It panics exactly when the write succeeded and then the compile panicked, or the compile succeeded and the execution panicked |
| RustRunner.ProgramRunsOnlyAfterCompile | src/rust_runner.rs:68-72 | the program's outcome can change the run only when the write and the compile both succeeded (the `?` short-circuit) |
| RustRunner.CompileRunsOnlyAfterWrite | src/rust_runner.rs:68-72 | the compiler's and program's outcomes can change the run only when the write succeeded |
| RustRunner.ExecuteSpec | src/rust_runner.rs:63-66 | `execute` appends the line to the buffer and keeps `NoStaleBytes`; when the write succeeds the file is the rendering of the extended buffer |
| RustRunner.Runner.Create | src/rust_runner.rs:56-60 | a runner starts with an empty buffer, an empty code file and the given paths |
| RustRunner.Runner.New | src/rust_runner.rs:53-61 | `Runner::new` succeeds exactly when no file-system call fails, and otherwise returns the first failing call's error (`NewError`); a new runner has an empty buffer, an empty file, and the paths `<cwd>/.tmp_ares` and `<cwd>/.tmp_ares/ares.rs`; never panics |
| RustRunner.Runner.Execute | src/rust_runner.rs:63-66 | pushes the line onto the buffer and leaves the runner and result `ExecuteSpec` gives |
| RustRunner.Runner.RunCode | src/rust_runner.rs:68-72 | leaves the buffer unchanged, and the file and result `RunSpec` gives |
| RustRunner.Runner.WriteCode | src/rust_runner.rs:75-83 | leaves the file and result `WriteSpec` gives, and keeps the runner valid |
| Ares.LineField | src/ares.rs:88-92 | the prompt's line-number field reads back to the line number; it has three digits below 1000, and four or more with no leading zero from 1000 on |
| Ares.PromptText | src/ares.rs:87-93 | ` ares:`, the line-number field, `:`, the indent level, the ending and a space; by definition, with `PromptLineNumber`, `PromptIndentLevel` and `PromptEnding` reading each field back |
| Ares.PromptLineNumber | src/ares.rs:87-93 | the prompt starts with ` ares:`, then the line number (read back from its field), then `:` |
| Ares.PromptIndentLevel | src/ares.rs:89 | after that `:` the prompt holds the indent level in decimal |
| Ares.PromptEnding | src/ares.rs:89 | the prompt ends with the prompt ending and one space |
| Ares.PromptLayout | src/ares.rs:89 | the positions of the parts of ` ares:{}:{}{} ` for any field contents |
| Ares.InitialSession | src/ares.rs:136-146 | the session `Ares::new` builds is well formed |
| Ares.EndsWithSemicolon | src/ares.rs:99 | `ends_with(";")`: the line is non-empty and its last character is `;`; by definition, used by `LineClassification` |
| Ares.ExecuteLineSpec | src/ares.rs:95-115 | a line never ends the loop; it clears the interrupt flag, leaves the indent level alone, adds nothing or exactly that line to the buffer, and keeps the session well formed |
| Ares.LineIsCounted | src/ares.rs:96-98 | each line adds one to the line number; at `u32::MAX` the addition panics instead |
| Ares.LineClassification | src/ares.rs:99-114 | the standard prompt `->` follows exactly the lines ending in `;`. Such a line runs the extended buffer, and the session panics exactly when the runner does. Any other line gets the pending prompt `-*` and is appended without running, and the session continues |
| Ares.EofSpec | src/ares.rs:117-124 | `eof_handler` as a transition; by definition, with `EofUnwind`, `StepExits` and `IndentNeverRises` stating its effect |
| Ares.InterruptSpec | src/ares.rs:126-134 | `interrupt_handler` as a transition; by definition, with `DoubleInterrupt`, `LineResetsInterrupt` and `StepExits` stating its effect |
| Ares.Step | src/ares.rs:74-79 | no read raises the indent level, and every read keeps the session well formed |
| Ares.StepExits | src/ares.rs:74-79 | a read error exits with that error; end-of-input exits with 0 exactly at indent level 0; an interrupt exits with 2 exactly when the flag is up; only a line can panic |
| Ares.Run | src/ares.rs:69-85 | the loop reads at most the events given; it waits for input only after reading all of them, and ends after at least one read |
| Ares.EofUnwind | src/ares.rs:117-124 | from indent level N, N end-of-input signals unwind to 0, and the next exits with status 0 after exactly N+1 reads |
| Ares.DoubleInterrupt | src/ares.rs:126-134 | with the flag down, one interrupt only raises it, and a second in a row exits with status 2 |
| Ares.LineResetsInterrupt | src/ares.rs:96 | interrupt, line, interrupt does not exit: the line lowers the flag again |
| Ares.ReadErrorTerminates | src/ares.rs:78 | any other read failure exits with `RustyLine` and that error, leaving the state unchanged |
| Ares.NothingReadAfterEnd | src/ares.rs:80-83 | once a handler returns `Some` or panics, later input does not affect the run |
| Ares.IndentNeverRises | src/ares.rs:117-124 | no run raises the indent level |
| Ares.FreshSessionIndentStaysZero | src/ares.rs:141-142 | in a session started by `Ares::new`, the indent level stays 0, so the first end-of-input exits with status 0 |
| Ares.BufferOnlyGrows | src/ares.rs:111 | the buffer only grows: earlier lines are never changed or removed |
| Ares.RunKeepsWellFormed | src/ares.rs:69-85 | every state a run reaches is well formed (counters within `u32`, one of the two endings, no stale bytes in the code file) |
| Ares.StepCountsLine | src/ares.rs:98 | a read that does not panic adds one to the line number for a line and nothing otherwise |
| Ares.LineNumberCountsLines | src/ares.rs:98 | over a run that did not panic, the line number goes up by exactly the number of lines read |
| Ares.Ares.Create | src/ares.rs:138-145 | a new session is at line 1, indent level 0, with the standard prompt and the flag down |
| Ares.Ares.New | src/ares.rs:136-146 | `Ares::new` succeeds exactly when `Runner::new` does; otherwise it fails with `RustRunner` wrapping exactly the runner's error (`NewError`); it starts from the initial session |
| Ares.Ares.Prompt | src/ares.rs:87-93 | the prompt is `PromptText` of the session's current fields, and ends with the current prompt ending and one space |
| Ares.Ares.ExecuteLine | src/ares.rs:95-115 | updates the session and runner to exactly `ExecuteLineSpec`'s transition, and returns its result |
| Ares.Ares.EofHandler | src/ares.rs:117-124 | updates the session to `EofSpec`'s transition: exit 0 at indent level 0, otherwise one level lower |
| Ares.Ares.InterruptHandler | src/ares.rs:126-134 | updates the session to `InterruptSpec`'s transition: exit 2 when the flag is up, otherwise raise it |
| Ares.Ares.Dispatch | src/ares.rs:74-79 | hands each read outcome to its handler: the session takes `Step`'s transition |
| Ares.Ares.Init | src/ares.rs:69-85 | the loop ends the way `Run` says (the exit, the panic, or waiting for input), after the same number of reads and in the same state |

## Left out

- The line editor (`rustyline`) is not modelled. Each `readline` result is an input event, and `add_history_entry` (src/ares.rs:97) is not modelled.
- The prompt passed to `readline` is not recorded. `Prompt` and the prompt lemmas state what it is.
- Console output is not modelled. This covers the banner `print!`, the `println!` of a run's output or I/O error, and the interrupt warning.
- The match arm for `RunnerError::Compilation` (src/ares.rs:104-106) is left out, because `RunnerError` has only the `Io` variant (src/rust_runner.rs:17-20). The model follows the runner's definition, so a compile failure reaches the session as a panic.
- The `Display`, `Error` and `From` implementations are not modelled. An error is kept only as its reason text.
- `Drop for Runner` (src/rust_runner.rs:124-128), which removes the workspace, is not modelled.
- src/main.rs is not part of this model.
- Child processes are not modelled: the command names, the arguments and the working directory are fixed in the source. Only what each process produced is modelled. An exit code of `None` (a signal) is handled like any non-zero code.
- `from_utf8_lossy` is not modelled: the program's output is taken as already decoded text.
- `WriteFile`: each write call either writes its whole chunk or fails, leaving nothing of it. Two cases are not modelled. A short count from `Write::write` (src/rust_runner.rs:77, 81) is ignored by the source. A `write!` of a line (src/rust_runner.rs:79) goes through `write_all`, which can fail after writing part of the line.
- `WriteFile`: the file and the cursor are sequences of characters, while the program writes the UTF-8 bytes of the text. UTF-8 encoding preserves concatenation and prefixes, so `NoStaleBytes` and the success case (the file holds exactly the rendered program) carry over to the bytes.
- `Ares.LineIsCounted`: models the overflow check of a debug build, where `+=` on a `u32` at its maximum panics. A release build would wrap to 0, and that is not modelled.
- `Init`: when the given events run out, the model returns `AwaitingInput`, whereas the real loop would block in `readline`.
- Concurrency is not modelled: the program has none.
