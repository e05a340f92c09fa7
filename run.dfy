/**
 * The run button: the request built from the editor, the selector and the
 * stdin box, the "running" feedback shown before the request leaves, and the
 * four texts (output, status, execution time, memory) rendered from the
 * execution service's reply or from the failure that replaced it.
 */
module Run {
  import opened Js
  import opened Monaco

  /** The `status` object of a reply. */
  datatype StatusInfo = StatusInfo(description: Option<string>)

  /** A parsed reply of the execution service; every field may be absent. */
  datatype RunResult = RunResult(
    stdout: Option<string>,
    stderr: Option<string>,
    compileOutput: Option<string>,
    status: Option<StatusInfo>,
    time: Option<Scalar>,
    memory: Option<Scalar>)

  /** What the request produced: a parsed reply, or the message of whatever was thrown on the way. */
  datatype Reply = Answered(data: RunResult) | Failed(message: string)

  /** The body posted to the execution service. */
  datatype RunRequest = RunRequest(sourceCode: string, languageId: int, stdin: string)

  /** The texts of the output area, the status line, the time line and the memory line. */
  datatype Display = Display(output: string, status: string, time: string, memory: string)

  predicate NoneTruthyBefore(candidates: seq<Option<string>>, i: nat)
    requires i <= |candidates|
  {
    forall j :: 0 <= j < i ==> !Truthy(candidates[j])
  }

  /** The value of the first truthy candidate, or `fallback` when none is truthy. */
  function FirstTruthy(candidates: seq<Option<string>>, fallback: string): (r: string)
    ensures (forall i :: 0 <= i < |candidates| ==> !Truthy(candidates[i])) ==> r == fallback
    ensures forall i :: 0 <= i < |candidates| && Truthy(candidates[i]) && NoneTruthyBefore(candidates, i) ==>
              r == candidates[i].value
  {
    if candidates == [] then fallback
    else if Truthy(candidates[0]) then candidates[0].value
    else FirstTruthy(candidates[1..], fallback)
  }

  /** `data.stdout || data.stderr || data.compile_output || "(no output)"`. */
  function OutputText(data: RunResult): (out: string)
    ensures out != ""
  {
    Or(Or(Or(data.stdout, data.stderr), data.compileOutput), Some("(no output)")).value
  }

  /** `data.status?.description`. */
  function Description(data: RunResult): Option<string>
  {
    match data.status
    case None => None
    case Some(info) => info.description
  }

  /** `"Status: " + (data.status?.description || "done")`. */
  function StatusText(data: RunResult): (r: string)
    ensures |r| > |"Status: "| && r[..|"Status: "|] == "Status: "
  {
    "Status: " + Or(Description(data), Some("done")).value
  }

  /** `"Execution time: " + (data.time ?? "-")`. */
  function TimeText(data: RunResult): string
  {
    "Execution time: " + ScalarText(Nullish(data.time, Str("-")))
  }

  /** `"Memory: " + (data.memory ?? "-")`. */
  function MemoryText(data: RunResult): string
  {
    "Memory: " + ScalarText(Nullish(data.memory, Str("-")))
  }

  const RunningOutput := "Running..."
  const RunningStatus := "Status: running..."
  const ErrorStatus := "Status: error"

  /** The display once the reply (or failure) has been handled, starting from `shown`. */
  function Render(reply: Reply, shown: Display): (d: Display)
    ensures reply.Failed? ==> d.time == shown.time && d.memory == shown.memory
    ensures d.output != ""
  {
    match reply
    case Answered(data) => Display(OutputText(data), StatusText(data), TimeText(data), MemoryText(data))
    case Failed(message) => Display("Error: " + message, ErrorStatus, shown.time, shown.memory)
  }

  /** The output is the first non-empty one of stdout, stderr and compile output, else "(no output)". */
  lemma {:induction false} OutputIsFirstNonEmpty(data: RunResult)
    ensures OutputText(data) == FirstTruthy([data.stdout, data.stderr, data.compileOutput], "(no output)")
  {
    var c := [data.stdout, data.stderr, data.compileOutput];
    if Truthy(data.stdout) {
      assert NoneTruthyBefore(c, 0);
    } else if Truthy(data.stderr) {
      assert NoneTruthyBefore(c, 1);
    } else if Truthy(data.compileOutput) {
      assert NoneTruthyBefore(c, 2);
    }
  }

  /** The status line shows a non-empty description, otherwise "done". */
  lemma StatusLine(data: RunResult)
    ensures Truthy(Description(data)) ==> StatusText(data) == "Status: " + Description(data).value
    ensures !Truthy(Description(data)) ==> StatusText(data) == "Status: done"
    ensures data.status.None? ==> StatusText(data) == "Status: done"
  {
  }

  /**
   * Time and memory fall back to "-" only when absent: a present value,
   * even 0 or the empty string, is shown as it is.
   */
  lemma TimeAndMemoryLines(data: RunResult)
    ensures data.time.None? ==> TimeText(data) == "Execution time: -"
    ensures data.time.Some? ==> TimeText(data) == "Execution time: " + ScalarText(data.time.value)
    ensures data.time == Some(Num(0)) ==> TimeText(data) == "Execution time: 0"
    ensures data.memory.None? ==> MemoryText(data) == "Memory: -"
    ensures data.memory.Some? ==> MemoryText(data) == "Memory: " + ScalarText(data.memory.value)
    ensures data.memory == Some(Num(0)) ==> MemoryText(data) == "Memory: 0"
  {
  }

  /** A failure shows its message and the error status, and keeps the time and memory lines. */
  lemma FailureLines(message: string, shown: Display)
    ensures Render(Failed(message), shown).output == "Error: " + message
    ensures Render(Failed(message), shown).status == "Status: error"
    ensures Render(Failed(message), shown).time == shown.time
    ensures Render(Failed(message), shown).memory == shown.memory
  {
  }

  /** A reply whose outputs are all empty and whose other fields are absent. */
  lemma EmptyReplyRendering(shown: Display)
    ensures Render(Answered(RunResult(Some(""), Some(""), Some(""), Some(StatusInfo(None)), None, None)), shown)
         == Display("(no output)", "Status: done", "Execution time: -", "Memory: -")
  {
  }

  /** A reply with only stdout shows exactly that stdout. */
  lemma StdoutOnlyRendering(out: string, shown: Display)
    requires out != ""
    ensures Render(Answered(RunResult(Some(out), None, None, None, None, None)), shown).output == out
  {
  }

  /** The panel of texts the run button writes to. */
  class RunPanel {
    var output: string
    var status: string
    var time: string
    var memory: string

    function Shown(): Display
      reads this
    {
      Display(output, status, time, memory)
    }

    /** The panel with the texts the page starts with. */
    constructor (initial: Display)
      ensures Shown() == initial
    {
      output, status, time, memory := initial.output, initial.status, initial.time, initial.memory;
    }

    /**
     * The first, synchronous part of a click: show the running feedback and
     * build the request from the editor text (empty before the editor has
     * loaded), the selected id and the stdin box.
     */
    method Start(editor: Editor?, languageValue: int, stdinValue: string) returns (req: RunRequest)
      modifies this
      ensures output == RunningOutput && status == RunningStatus
      ensures time == old(time) && memory == old(memory)
      ensures req == RunRequest(if editor != null then editor.text else "", languageValue, stdinValue)
    {
      var source := if editor != null then editor.text else "";
      status := RunningStatus;
      output := RunningOutput;
      req := RunRequest(source, languageValue, stdinValue);
    }

    /** The second part of a click, once the reply or failure is in: render it, then ask for a layout pass. */
    method Finish(reply: Reply, editor: Editor?)
      modifies this, editor
      ensures Shown() == Render(reply, old(Shown()))
      ensures editor != null ==> editor.layouts == old(editor.layouts) + 1
      ensures editor != null ==> editor.text == old(editor.text) && editor.mode == old(editor.mode)
      ensures editor != null ==> editor.theme == old(editor.theme)
    {
      match reply {
        case Answered(data) =>
          var out := OutputText(data);
          output := out;
          status := StatusText(data);
          time := TimeText(data);
          memory := MemoryText(data);
        case Failed(message) =>
          output := "Error: " + message;
          status := ErrorStatus;
      }
      if editor != null {
        editor.Layout();
      }
    }

    /**
     * A whole click, with the execution service given as `execute`, the reply
     * (or failure) it produces for a request.
     */
    method OnRunClick(editor: Editor?, languageValue: int, stdinValue: string, execute: RunRequest -> Reply)
      modifies this, editor
      ensures var req := RunRequest(if editor != null then old(editor.text) else "", languageValue, stdinValue);
              Shown() == Render(execute(req), Display(RunningOutput, RunningStatus, old(time), old(memory)))
      ensures editor != null ==> editor.layouts == old(editor.layouts) + 1
      ensures editor != null ==> editor.text == old(editor.text) && editor.mode == old(editor.mode)
      ensures editor != null ==> editor.theme == old(editor.theme)
    {
      var req := Start(editor, languageValue, stdinValue);
      Finish(execute(req), editor);
    }
  }
}
