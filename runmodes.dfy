/**
 * The shell's run modes as a state machine over an explicit shell state.
 *
 * The line reader and the script engine are oracles: the input is a list of
 * chunks, each holding what readSentence (or readAll) returns, the line
 * number it leaves in `lineNumber`, and what evaluating that text yields.
 * Once the chunks are exhausted every read returns a null text, leaves the
 * line number alone and evaluates to undefined. Output is kept in logs of
 * evaluations, printed results, printed uncaught exceptions and `finished`
 * emissions.
 */
module RunModes {
  import opened Optional
  import opened ScriptValues
  import opened EngineBinding

  /** What one evaluation yields: its value, whether it threw, and an exit(code) the script called. */
  datatype Outcome = Outcome(value: Value, threw: bool, exitRequest: Option<int>)

  /** One read: the text (None for a null QString), the next line number, and its evaluation. */
  datatype Chunk = Chunk(text: Option<string>, nextLine: int, outcome: Outcome)

  /** One call of evaluate: the program text, the file name and the first line number. */
  datatype Evaluation = Evaluation(text: Option<string>, fileName: string, line: int)

  datatype Mode = Interactive | Quiet | Batch | OneSentence | OneSentenceInteractive

  /**
   * The reading and reporting half of the shell's private state: the line
   * number, the exit flag and code, the file name, the reader's remaining
   * input and the output logs.
   */
  datatype Session = Session(
    lineNumber: int,
    exit: bool,
    exitCode: int,
    fileName: string,
    pending: seq<Chunk>,
    evaluations: seq<Evaluation>,
    results: seq<Value>,
    exceptions: seq<Value>,
    finished: seq<int>)

  /**
   * The engine half: the isInitialized flag and the policy, the engine's
   * global object and process-events interval. `standard` is the global
   * object of a fresh engine, `api` the members of the scriptable shell
   * engine; `inits` counts the calls of initEngine.
   */
  datatype Setup = Setup(
    isInitialized: bool,
    useGlobalEngine: bool,
    global: seq<Prop>,
    interval: int,
    standard: seq<Prop>,
    api: seq<Prop>,
    inits: nat)

  datatype ShellState = ShellState(session: Session, setup: Setup)

  /** The state a new shell starts in, with a fresh engine and nothing logged. */
  function Initial(standard: seq<Prop>, api: seq<Prop>, interval: int, input: seq<Chunk>): ShellState {
    ShellState(Session(1, false, 0, "", input, [], [], [], []),
               Setup(false, true, standard, interval, standard, api, 0))
  }

  /** The read that happens once the input is exhausted. */
  function EndOfInput(line: int): Chunk {
    Chunk(None, line, Outcome(Undefined, false, None))
  }

  function NextChunk(s: Session): Chunk {
    if s.pending == [] then EndOfInput(s.lineNumber) else s.pending[0]
  }

  function Drop(p: seq<Chunk>, n: nat): seq<Chunk> {
    if n >= |p| then [] else p[n..]
  }

  /** The guard every run method, engine() and completeScriptExpression start with. */
  function EnsureInitialized(e: Setup): Setup {
    if e.isInitialized then e
    else e.(isInitialized := true, global := Installed(e.global, e.api, e.useGlobalEngine), inits := e.inits + 1)
  }

  /** The common prologue of the run methods. */
  function Begin(s: ShellState): ShellState {
    ShellState(s.session.(exit := false, exitCode := 0), EnsureInitialized(s.setup))
  }

  /** Shell::exit. */
  function ExitShell(s: Session, code: int): Session {
    s.(exit := true, exitCode := code, finished := s.finished + [code])
  }

  /** The reporting after an evaluation; only the printing modes print results. */
  function Report(s: Session, o: Outcome, printing: bool): Session {
    if o.threw then s.(exceptions := s.exceptions + [o.value])
    else if printing && !o.value.Undefined? then s.(results := s.results + [o.value])
    else s
  }

  /** Read one text, evaluate it at the line number held before the read, report. */
  function Step(s: Session, printing: bool): Session {
    var c := NextChunk(s);
    var read := s.(lineNumber := c.nextLine, pending := Drop(s.pending, 1),
                   evaluations := s.evaluations + [Evaluation(c.text, s.fileName, s.lineNumber)]);
    var exited := if c.outcome.exitRequest.Some? then ExitShell(read, c.outcome.exitRequest.value) else read;
    Report(exited, c.outcome, printing)
  }

  /** The do-while loop of runInteractive and runQuiet. */
  function Loop(s: Session, printing: bool): Session
    decreases |s.pending|
  {
    var t := Step(s, printing);
    if NextChunk(s).text.Some? && !t.exit then Loop(t, printing) else t
  }

  /** The epilogue of the looping and batch modes: finished(0) unless exit was called. */
  function Finish(s: Session): Session {
    if s.exit then s else s.(finished := s.finished + [0])
  }

  function Printing(mode: Mode): bool {
    mode == Interactive || mode == OneSentenceInteractive
  }

  /** What a run in `mode` does to the session once the prologue has run. */
  function RunSession(mode: Mode, s: Session): Session {
    match mode
    case Interactive => Finish(Loop(s, true))
    case Quiet => Finish(Loop(s, false))
    case Batch => Finish(Step(s, false))
    case OneSentence => Step(s, false)
    case OneSentenceInteractive => Step(s, true)
  }

  function Run(mode: Mode, s: ShellState): ShellState {
    var b := Begin(s);
    ShellState(RunSession(mode, b.session), b.setup)
  }

  /** Shell::reset: a new engine with the old interval; exitCode, fileName and the policy survive. */
  function Reset(s: ShellState): ShellState {
    ShellState(s.session.(lineNumber := 1, exit := false),
               s.setup.(global := s.setup.standard, isInitialized := false))
  }

  // ---------------------------------------------------------------------
  // A reference account of the same behaviour: which chunks a run reads,
  // and what the logs gain from them.
  // ---------------------------------------------------------------------

  /** A read the loop stops after: a null text, or a script that called exit. */
  predicate Stops(c: Chunk) {
    c.text.None? || c.outcome.exitRequest.Some?
  }

  /**
   * The chunks the loop reads from `p` when the line number is `line`: up
   * to and including the first one that stops, or all of them followed by
   * the end-of-input read.
   */
  function Taken(line: int, p: seq<Chunk>): (t: seq<Chunk>)
    ensures 1 <= |t| <= |p| + 1
    ensures Stops(t[|t| - 1])
    ensures forall i :: 0 <= i < |t| - 1 ==> !Stops(t[i])
    ensures forall i :: 0 <= i < |t| && i < |p| ==> t[i] == p[i]
    decreases |p|
  {
    if p == [] then [EndOfInput(line)]
    else if Stops(p[0]) then [p[0]]
    else [p[0]] + Taken(p[0].nextLine, p[1..])
  }

  /** The evaluate calls for the chunks `cs` read in order from line `line`. */
  function EvaluationsOf(line: int, fileName: string, cs: seq<Chunk>): seq<Evaluation>
    decreases |cs|
  {
    if cs == [] then []
    else [Evaluation(cs[0].text, fileName, line)] + EvaluationsOf(cs[0].nextLine, fileName, cs[1..])
  }

  /** The line number after reading `cs` from line `line`. */
  function FinalLine(line: int, cs: seq<Chunk>): int
    decreases |cs|
  {
    if cs == [] then line else FinalLine(cs[0].nextLine, cs[1..])
  }

  /** The uncaught exceptions among the evaluations of `cs`. */
  function ThrownValues(cs: seq<Chunk>): seq<Value>
    decreases |cs|
  {
    if cs == [] then []
    else (if cs[0].outcome.threw then [cs[0].outcome.value] else []) + ThrownValues(cs[1..])
  }

  /** The results a printing mode prints: not thrown and not undefined. */
  function PrintableValues(cs: seq<Chunk>): seq<Value>
    decreases |cs|
  {
    if cs == [] then []
    else
      var o := cs[0].outcome;
      (if !o.threw && !o.value.Undefined? then [o.value] else []) + PrintableValues(cs[1..])
  }

  /** The exit codes the scripts of `cs` passed to exit(). */
  function RequestedCodes(cs: seq<Chunk>): seq<int>
    decreases |cs|
  {
    if cs == [] then []
    else (if cs[0].outcome.exitRequest.Some? then [cs[0].outcome.exitRequest.value] else []) + RequestedCodes(cs[1..])
  }

  /** The state after reading, evaluating and reporting the chunks `cs` in one go. */
  function Apply(s: Session, cs: seq<Chunk>, printing: bool): Session {
    var codes := RequestedCodes(cs);
    s.(lineNumber := FinalLine(s.lineNumber, cs),
       pending := Drop(s.pending, |cs|),
       evaluations := s.evaluations + EvaluationsOf(s.lineNumber, s.fileName, cs),
       results := s.results + (if printing then PrintableValues(cs) else []),
       exceptions := s.exceptions + ThrownValues(cs),
       exit := s.exit || codes != [],
       exitCode := if codes != [] then codes[|codes| - 1] else s.exitCode,
       finished := s.finished + codes)
  }

  /** The chunks a run in `mode` reads, starting from state `s`. */
  function ChunksRead(mode: Mode, s: Session): seq<Chunk> {
    if mode == Interactive || mode == Quiet then Taken(s.lineNumber, s.pending) else [NextChunk(s)]
  }
}
