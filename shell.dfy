/**
 * The Shell object: its private state, the script engine it owns, and the
 * methods that change them. Each method is proved against the state machine
 * of RunModes, read through State().
 */
module ShellDriver {
  import opened Optional
  import opened ScriptValues
  import opened EngineBinding
  import opened RunModes
  import Completion
  import Strings

  /** QScriptEngine's process-events interval when nobody has set it. */
  const DefaultInterval: int := -1

  /**
   * Shell::arguments as written: the null test on the scriptable shell
   * engine is inverted, so a missing engine is dereferenced (None here) and
   * an existing engine's arguments are never returned. This is a
   * definition of the code as written; the ensures spell it out for
   * ArgumentsAsWrittenLosesArguments.
   */
  function ArgumentsAsWritten(scriptableArguments: Option<seq<string>>): (r: Option<seq<string>>)
    ensures r.None? <==> scriptableArguments.None?
    ensures r.Some? ==> r.value == []
  {
    if scriptableArguments.None? then None else Some([])
  }

  /** The arguments set with setArguments are lost by the getter as written. */
  lemma ArgumentsAsWrittenLosesArguments(arguments: seq<string>)
    requires arguments != []
    ensures ArgumentsAsWritten(SetArguments(None, arguments)) != Some(arguments)
    ensures ArgumentsAsWritten(None).None?
  {
  }

  /** Shell::setArguments: creates the scriptable shell engine if needed and stores the list. */
  function SetArguments(scriptableArguments: Option<seq<string>>, arguments: seq<string>): Option<seq<string>> {
    Some(arguments)
  }

  /** Shell::arguments with the null test the right way round. */
  function Arguments(scriptableArguments: Option<seq<string>>): seq<string> {
    if scriptableArguments.Some? then scriptableArguments.value else []
  }

  /** What setArguments stores, the corrected getter returns; without an engine it returns the empty list. */
  lemma ArgumentsRoundTrip(scriptableArguments: Option<seq<string>>, arguments: seq<string>)
    ensures Arguments(SetArguments(scriptableArguments, arguments)) == arguments
    ensures Arguments(None) == []
  {
  }

  /** The part of QScriptEngine the shell touches: its global object and its interval. */
  class ScriptEngine {
    var global: seq<Prop>
    var processEventsInterval: int

    /** A new engine with its standard global object. */
    constructor (standard: seq<Prop>)
      ensures global == standard && processEventsInterval == DefaultInterval
    {
      global := standard;
      processEventsInterval := DefaultInterval;
    }

    method SetProcessEventsInterval(interval: int)
      modifies this
      ensures processEventsInterval == interval && global == old(global)
    {
      processEventsInterval := interval;
    }
  }

  class Shell {
    var lineNumber: int
    var engine: ScriptEngine
    var isInitialized: bool
    var useGlobalEngine: bool
    var exit: bool
    var exitCode: int
    var fileName: string

    /** The global object a new engine starts with, and the scriptable shell engine's members. */
    const standard: seq<Prop>
    const api: seq<Prop>

    /** The reader's remaining input and the output the shell has produced. */
    var pending: seq<Chunk>
    var evaluations: seq<Evaluation>
    var results: seq<Value>
    var exceptions: seq<Value>
    var finished: seq<int>

    /** How often initEngine has run. */
    ghost var inits: nat

    /** The reading and reporting half of the state. */
    ghost function SessionState(): Session
      reads this
    {
      Session(lineNumber, exit, exitCode, fileName, pending, evaluations, results, exceptions, finished)
    }

    /** The engine half of the state. */
    ghost function SetupState(): Setup
      reads this, engine
    {
      Setup(isInitialized, useGlobalEngine, engine.global, engine.processEventsInterval, standard, api, inits)
    }

    ghost function State(): ShellState
      reads this, engine
    {
      ShellState(SessionState(), SetupState())
    }

    /** Shell::Shell with the defaults of ShellPrivate and a new engine. */
    constructor (standard: seq<Prop>, api: seq<Prop>, input: seq<Chunk>)
      ensures State() == Initial(standard, api, DefaultInterval, input)
      ensures fresh(engine)
    {
      this.standard := standard;
      this.api := api;
      lineNumber := 1;
      isInitialized := false;
      useGlobalEngine := true;
      exit := false;
      exitCode := 0;
      fileName := "";
      engine := new ScriptEngine(standard);
      pending := input;
      evaluations, results, exceptions, finished := [], [], [], [];
      inits := 0;
    }

    /** initEngine: the merge or isolate installation followed by `sr`. */
    method InitEngine()
      modifies engine
      ensures engine.global == Installed(old(engine.global), api, useGlobalEngine)
      ensures engine.processEventsInterval == old(engine.processEventsInterval)
    {
      var global := engine.global;
      if useGlobalEngine {
        var globalEngine := api;
        var i := 0;
        while i < |global|
          invariant 0 <= i <= |global|
          invariant globalEngine == Merge(api, global[..i])
        {
          assert global[..i + 1][..i] == global[..i];
          if global[i].name != "print" {
            globalEngine := SetProperty(globalEngine, global[i]);
          }
          i := i + 1;
        }
        assert global[..|global|] == global;
        global := globalEngine;
      } else {
        global := SetProperty(global, PrintProp);
      }
      global := SetProperty(global, SrProp(api));
      engine.global := global;
    }

    /** The lazy guard: the flag is set first, then the engine is initialised. */
    method EnsureInitialized()
      modifies this, engine
      ensures engine == old(engine)
      ensures SessionState() == old(SessionState())
      ensures SetupState() == RunModes.EnsureInitialized(old(SetupState()))
    {
      if !isInitialized {
        isInitialized := true;
        inits := inits + 1;
        InitEngine();
      }
    }

    /** Shell::exit: sets the flag and the code and emits finished(code). */
    method Exit(code: int)
      modifies this
      ensures engine == old(engine)
      ensures SessionState() == ExitShell(old(SessionState()), code)
      ensures SetupState() == old(SetupState())
    {
      exit := true;
      exitCode := code;
      finished := finished + [code];
    }

    /**
     * readSentence or readAll: the next text, with the line number of the
     * following one stored in lineNumber.
     */
    method Read() returns (chunk: Chunk)
      modifies this
      ensures engine == old(engine)
      ensures chunk == NextChunk(old(SessionState()))
      ensures SessionState() == old(SessionState()).(lineNumber := chunk.nextLine, pending := Drop(old(pending), 1))
      ensures SetupState() == old(SetupState())
    {
      if pending == [] {
        chunk := EndOfInput(lineNumber);
      } else {
        chunk := pending[0];
        pending := pending[1..];
      }
      lineNumber := chunk.nextLine;
    }

    /** engine->evaluate(text, fileName, line); a script's exit() reaches Shell::exit. */
    method Evaluate(chunk: Chunk, line: int) returns (outcome: Outcome)
      modifies this
      ensures engine == old(engine)
      ensures outcome == chunk.outcome
      ensures var logged := old(SessionState()).(evaluations := old(evaluations) + [Evaluation(chunk.text, fileName, line)]);
        SessionState() == if outcome.exitRequest.Some? then ExitShell(logged, outcome.exitRequest.value) else logged
      ensures SetupState() == old(SetupState())
    {
      evaluations := evaluations + [Evaluation(chunk.text, fileName, line)];
      outcome := chunk.outcome;
      if outcome.exitRequest.Some? {
        Exit(outcome.exitRequest.value);
      }
    }

    method PrintUncaughtException(exception: Value)
      modifies this
      ensures engine == old(engine)
      ensures SessionState() == old(SessionState()).(exceptions := old(exceptions) + [exception])
      ensures SetupState() == old(SetupState())
    {
      exceptions := exceptions + [exception];
    }

    method PrintResult(result: Value)
      modifies this
      ensures engine == old(engine)
      ensures SessionState() == old(SessionState()).(results := old(results) + [result])
      ensures SetupState() == old(SetupState())
    {
      results := results + [result];
    }

    /** The reporting after an evaluation, printing results only when `printing`. */
    method ReportOutcome(outcome: Outcome, printing: bool)
      modifies this
      ensures engine == old(engine)
      ensures SessionState() == Report(old(SessionState()), outcome, printing)
      ensures SetupState() == old(SetupState())
    {
      if outcome.threw {
        PrintUncaughtException(outcome.value);
      } else if printing && !outcome.value.Undefined? {
        PrintResult(outcome.value);
      }
    }

    /** The prologue of every run method. */
    method BeginRun()
      modifies this, engine
      ensures engine == old(engine)
      ensures State() == Begin(old(State()))
    {
      EnsureInitialized();
      exit := false;
      exitCode := 0;
    }

    /** The do-while loop shared by runInteractive and runQuiet. */
    method EvaluateSentences(printing: bool)
      requires !exit
      modifies this
      ensures engine == old(engine)
      ensures SessionState() == Loop(old(SessionState()), printing)
      ensures SetupState() == old(SetupState())
    {
      ghost var target := Loop(SessionState(), printing);
      var previousLine := lineNumber;
      while true
        invariant previousLine == lineNumber && !exit && engine == old(engine)
        invariant Loop(SessionState(), printing) == target
        invariant SetupState() == old(SetupState())
        decreases |pending|
      {
        ghost var before := SessionState();
        var sentence := Read();
        var outcome := Evaluate(sentence, previousLine);
        previousLine := lineNumber;
        ReportOutcome(outcome, printing);
        assert SessionState() == Step(before, printing);
        if sentence.text.None? || exit {
          break;
        }
      }
    }

    /** One read, one evaluation at the line held before it, one report. */
    method EvaluateOnce(printing: bool)
      modifies this
      ensures engine == old(engine)
      ensures SessionState() == Step(old(SessionState()), printing)
      ensures SetupState() == old(SetupState())
    {
      var previousLine := lineNumber;
      var sentence := Read();
      var outcome := Evaluate(sentence, previousLine);
      ReportOutcome(outcome, printing);
    }

    /** emit finished(0) unless exit was called. */
    method FinishRun()
      modifies this
      ensures engine == old(engine)
      ensures SessionState() == Finish(old(SessionState()))
      ensures SetupState() == old(SetupState())
    {
      if !exit {
        finished := finished + [0];
      }
    }

    method RunInteractive()
      modifies this, engine
      ensures engine == old(engine)
      ensures State() == Run(Interactive, old(State()))
    {
      BeginRun();
      EvaluateSentences(true);
      FinishRun();
    }

    method RunQuiet()
      modifies this, engine
      ensures engine == old(engine)
      ensures State() == Run(Quiet, old(State()))
    {
      BeginRun();
      EvaluateSentences(false);
      FinishRun();
    }

    method RunBatch()
      modifies this, engine
      ensures engine == old(engine)
      ensures State() == Run(Batch, old(State()))
    {
      BeginRun();
      EvaluateOnce(false);
      FinishRun();
    }

    method RunOneSentence()
      modifies this, engine
      ensures engine == old(engine)
      ensures State() == Run(OneSentence, old(State()))
    {
      BeginRun();
      EvaluateOnce(false);
    }

    method RunOneSentenceInteractive()
      modifies this, engine
      ensures engine == old(engine)
      ensures State() == Run(OneSentenceInteractive, old(State()))
    {
      BeginRun();
      EvaluateOnce(true);
    }

    /** Shell::reset: a new engine that keeps the old interval. */
    method Reset()
      modifies this
      ensures fresh(engine)
      ensures State() == RunModes.Reset(old(State()))
    {
      lineNumber := 1;
      var interval := engine.processEventsInterval;
      engine := new ScriptEngine(standard);
      engine.SetProcessEventsInterval(interval);
      isInitialized := false;
      exit := false;
    }

    /** Shell::engine: the engine, initialised on first use. */
    method Engine() returns (e: ScriptEngine)
      modifies this, engine
      ensures e == engine && engine == old(engine)
      ensures SessionState() == old(SessionState())
      ensures SetupState() == RunModes.EnsureInitialized(old(SetupState()))
    {
      EnsureInitialized();
      e := engine;
    }

    /** completeScriptExpression, completing against the engine's global object. */
    method CompleteScriptExpression(expression: string, commonName: string)
      returns (result: seq<string>, completionStartAt: nat, commonOut: string)
      modifies this, engine
      ensures engine == old(engine)
      ensures SessionState() == old(SessionState())
      ensures SetupState() == RunModes.EnsureInitialized(old(SetupState()))
      ensures var sp := Completion.SplitExpression(expression);
        var thisObject := Obj(engine.global);
        && completionStartAt == sp.start
        && Strings.Sorted(result)
        && multiset(result) == multiset(Completion.Collected(thisObject, sp.path, sp.name))
        && commonOut == match Completion.CommonName(thisObject, sp.path, sp.name)
                        case Some(c) => c
                        case None => commonName
    {
      EnsureInitialized();
      result, completionStartAt, commonOut := Completion.CompleteExpression(Obj(engine.global), expression, commonName);
    }

    method SetUseGlobalEngine(useGlobalEngine: bool)
      modifies this
      ensures engine == old(engine)
      ensures SessionState() == old(SessionState())
      ensures SetupState() == old(SetupState()).(useGlobalEngine := useGlobalEngine)
    {
      this.useGlobalEngine := useGlobalEngine;
    }

    method SetFileName(fileName: string)
      modifies this
      ensures engine == old(engine)
      ensures SessionState() == old(SessionState()).(fileName := fileName)
      ensures SetupState() == old(SetupState())
    {
      this.fileName := fileName;
    }

    method SetCurrentLineNumber(currentLineNumber: int)
      modifies this
      ensures engine == old(engine)
      ensures SessionState() == old(SessionState()).(lineNumber := currentLineNumber)
      ensures SetupState() == old(SetupState())
    {
      lineNumber := currentLineNumber;
    }

    method SetProcessEventsInterval(interval: int)
      modifies engine
      ensures SessionState() == old(SessionState())
      ensures SetupState() == old(SetupState()).(interval := interval)
    {
      engine.SetProcessEventsInterval(interval);
    }
  }
}
