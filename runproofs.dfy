/**
 * Properties of the run modes: every run is the reference account of the
 * chunks it reads, and from that what each run logs, where it leaves the
 * reader, how it sets exit and exitCode and when it initialises the engine.
 */
module RunProofs {
  import EngineBinding
  import opened RunModes
  import opened Strings

  /** The reference functions on a single read. */
  lemma OneRead(line: int, fileName: string, c: Chunk)
    ensures EvaluationsOf(line, fileName, [c]) == [Evaluation(c.text, fileName, line)]
    ensures FinalLine(line, [c]) == c.nextLine
    ensures ThrownValues([c]) == if c.outcome.threw then [c.outcome.value] else []
    ensures PrintableValues([c]) == if !c.outcome.threw && !c.outcome.value.Undefined? then [c.outcome.value] else []
    ensures RequestedCodes([c]) == if c.outcome.exitRequest.Some? then [c.outcome.exitRequest.value] else []
  {
    assert [c][1..] == [];
  }

  /** The exit codes a single read requests. */
  lemma OneCode(c: Chunk)
    ensures RequestedCodes([c]) == if c.outcome.exitRequest.Some? then [c.outcome.exitRequest.value] else []
  {
    assert [c][1..] == [];
  }

  /** A read that does not stop requests no code, in front of others too. */
  lemma CodesCons(c: Chunk, cs: seq<Chunk>)
    requires !Stops(c)
    ensures RequestedCodes([c]) == []
    ensures RequestedCodes([c] + cs) == RequestedCodes(cs)
  {
    var all := [c] + cs;
    assert all[0] == c && all[1..] == cs;
    assert [] + RequestedCodes(cs) == RequestedCodes(cs);
  }

  /** One step is the reference account of its single read. */
  lemma StepApply(s: Session, printing: bool)
    ensures Step(s, printing) == Apply(s, [NextChunk(s)], printing)
  {
    OneRead(s.lineNumber, s.fileName, NextChunk(s));
  }

  /** The reference functions on a chunk in front of others. */
  lemma ConsParts(line: int, fileName: string, c: Chunk, cs: seq<Chunk>)
    ensures EvaluationsOf(line, fileName, [c] + cs) == [Evaluation(c.text, fileName, line)] + EvaluationsOf(c.nextLine, fileName, cs)
    ensures FinalLine(line, [c] + cs) == FinalLine(c.nextLine, cs)
    ensures ThrownValues([c] + cs) == ThrownValues([c]) + ThrownValues(cs)
    ensures PrintableValues([c] + cs) == PrintableValues([c]) + PrintableValues(cs)
    ensures RequestedCodes([c] + cs) == RequestedCodes([c]) + RequestedCodes(cs)
  {
    var all := [c] + cs;
    assert all[0] == c && all[1..] == cs;
    assert [c][1..] == [];
  }

  /** Reading a chunk that does not stop, then the rest, is reading them all. */
  lemma ApplyCons(s: Session, c: Chunk, cs: seq<Chunk>, printing: bool)
    requires s.pending != [] && c == s.pending[0] && !Stops(c)
    ensures Apply(Apply(s, [c], printing), cs, printing) == Apply(s, [c] + cs, printing)
  {
    ConsParts(s.lineNumber, s.fileName, c, cs);
    OneRead(s.lineNumber, s.fileName, c);
    ApplyConsReader(s, c, cs, printing);
    ApplyConsEvaluations(s, c, cs, printing);
    ApplyConsResults(s, c, cs, printing);
    ApplyConsExceptions(s, c, cs, printing);
    ApplyConsExit(s, c, cs, printing);
  }

  lemma ApplyConsReader(s: Session, c: Chunk, cs: seq<Chunk>, printing: bool)
    requires s.pending != [] && c == s.pending[0]
    ensures var l, r := Apply(Apply(s, [c], printing), cs, printing), Apply(s, [c] + cs, printing);
      l.lineNumber == r.lineNumber && l.pending == r.pending
  {
    ConsParts(s.lineNumber, s.fileName, c, cs);
    OneRead(s.lineNumber, s.fileName, c);
    assert Drop(s.pending[1..], |cs|) == Drop(s.pending, |[c] + cs|);
  }

  lemma ApplyConsEvaluations(s: Session, c: Chunk, cs: seq<Chunk>, printing: bool)
    ensures Apply(Apply(s, [c], printing), cs, printing).evaluations == Apply(s, [c] + cs, printing).evaluations
  {
    ConsParts(s.lineNumber, s.fileName, c, cs);
    OneRead(s.lineNumber, s.fileName, c);
    var t := Apply(s, [c], printing);
    var e := [Evaluation(c.text, s.fileName, s.lineNumber)];
    var rest := EvaluationsOf(c.nextLine, s.fileName, cs);
    assert t.evaluations == s.evaluations + e && t.lineNumber == c.nextLine && t.fileName == s.fileName;
    assert Apply(t, cs, printing).evaluations == (s.evaluations + e) + rest;
    assert Apply(s, [c] + cs, printing).evaluations == s.evaluations + (e + rest);
    AppendAssociative(s.evaluations, e, rest);
  }

  lemma ApplyConsResults(s: Session, c: Chunk, cs: seq<Chunk>, printing: bool)
    ensures Apply(Apply(s, [c], printing), cs, printing).results == Apply(s, [c] + cs, printing).results
  {
    ConsParts(s.lineNumber, s.fileName, c, cs);
    var p := if printing then PrintableValues([c]) else [];
    var q := if printing then PrintableValues(cs) else [];
    assert Apply(s, [c], printing).results == s.results + p;
    assert (if printing then PrintableValues([c] + cs) else []) == p + q;
    AppendAssociative(s.results, p, q);
  }

  lemma ApplyConsExceptions(s: Session, c: Chunk, cs: seq<Chunk>, printing: bool)
    ensures Apply(Apply(s, [c], printing), cs, printing).exceptions == Apply(s, [c] + cs, printing).exceptions
  {
    ConsParts(s.lineNumber, s.fileName, c, cs);
    var x := ThrownValues([c]);
    assert Apply(s, [c], printing).exceptions == s.exceptions + x;
    AppendAssociative(s.exceptions, x, ThrownValues(cs));
  }

  lemma ApplyConsExit(s: Session, c: Chunk, cs: seq<Chunk>, printing: bool)
    requires !Stops(c)
    ensures var l, r := Apply(Apply(s, [c], printing), cs, printing), Apply(s, [c] + cs, printing);
      l.exit == r.exit && l.exitCode == r.exitCode && l.finished == r.finished
  {
    CodesCons(c, cs);
    var t := Apply(s, [c], printing);
    assert t.finished == s.finished + [];
    assert s.finished + [] == s.finished;
    assert t.exit == s.exit && t.exitCode == s.exitCode;
  }

  /** The loop reads exactly the chunks Taken names, and the logs gain exactly what they produce. */
  lemma {:induction false} LoopApply(s: Session, printing: bool)
    requires !s.exit
    ensures Loop(s, printing) == Apply(s, Taken(s.lineNumber, s.pending), printing)
    decreases |s.pending|
  {
    StepApply(s, printing);
    var t := Step(s, printing);
    if s.pending != [] && !Stops(s.pending[0]) {
      var c := s.pending[0];
      assert Taken(s.lineNumber, s.pending) == [c] + Taken(c.nextLine, s.pending[1..]);
      assert t.lineNumber == c.nextLine && t.pending == s.pending[1..] && !t.exit;
      LoopApply(t, printing);
      ApplyCons(s, c, Taken(c.nextLine, s.pending[1..]), printing);
    }
  }

  /** Once the prologue has cleared exit, every run mode is the reference account of the chunks it reads. */
  lemma RunSessionApply(mode: Mode, s: Session)
    requires !s.exit
    ensures var a := Apply(s, ChunksRead(mode, s), Printing(mode));
      RunSession(mode, s) == if mode == OneSentence || mode == OneSentenceInteractive then a else Finish(a)
  {
    if mode == Interactive || mode == Quiet {
      LoopApply(s, Printing(mode));
    } else {
      StepApply(s, Printing(mode));
    }
  }

  /** A whole run: the prologue, then the reference account of the chunks read from the state before it. */
  lemma RunApply(mode: Mode, s: ShellState)
    ensures var a := Apply(Begin(s).session, ChunksRead(mode, s.session), Printing(mode));
      Run(mode, s).session == if mode == OneSentence || mode == OneSentenceInteractive then a else Finish(a)
  {
    var b := Begin(s).session;
    assert ChunksRead(mode, b) == ChunksRead(mode, s.session);
    RunSessionApply(mode, b);
  }

  /** Evaluation i of a list of reads gets the line number held before read i. */
  lemma {:induction false} EvaluationLines(line: int, fileName: string, cs: seq<Chunk>, i: nat)
    requires i < |cs|
    ensures |EvaluationsOf(line, fileName, cs)| == |cs|
    ensures EvaluationsOf(line, fileName, cs)[i] ==
      Evaluation(cs[i].text, fileName, if i == 0 then line else cs[i - 1].nextLine)
    decreases |cs|
  {
    if i > 0 {
      EvaluationLines(cs[0].nextLine, fileName, cs[1..], i - 1);
    } else if |cs| > 1 {
      EvaluationLines(cs[0].nextLine, fileName, cs[1..], 0);
    }
  }

  /** Only the last read of the loop can be a script that called exit. */
  lemma TakenRequestsAtMostOnce(line: int, p: seq<Chunk>)
    ensures var t := Taken(line, p); RequestedCodes(t) == RequestedCodes([t[|t| - 1]])
  {
    CodesOfLast(Taken(line, p));
  }

  /** When no read but the last called exit(), only the last can request a code. */
  lemma {:induction false} CodesOfLast(cs: seq<Chunk>)
    requires cs != []
    requires forall i :: 0 <= i < |cs| - 1 ==> !Stops(cs[i])
    ensures RequestedCodes(cs) == RequestedCodes([cs[|cs| - 1]])
    decreases |cs|
  {
    if |cs| > 1 {
      var rest := cs[1..];
      assert forall i :: 0 <= i < |rest| - 1 ==> rest[i] == cs[i + 1];
      CodesOfLast(rest);
      assert RequestedCodes(cs) == [] + RequestedCodes(rest);
      assert [] + RequestedCodes(rest) == RequestedCodes(rest);
      assert rest[|rest| - 1] == cs[|cs| - 1];
    }
  }

  /** What every run adds to the logs, and where it leaves the reader. */
  lemma RunLogs(mode: Mode, s: ShellState)
    ensures var t, cs, r := s.session, ChunksRead(mode, s.session), Run(mode, s).session;
      && r.evaluations == t.evaluations + EvaluationsOf(t.lineNumber, t.fileName, cs)
      && r.results == t.results + (if Printing(mode) then PrintableValues(cs) else [])
      && r.exceptions == t.exceptions + ThrownValues(cs)
      && r.lineNumber == FinalLine(t.lineNumber, cs)
      && r.pending == Drop(t.pending, |cs|)
      && r.fileName == t.fileName
  {
    RunApply(mode, s);
  }

  /** runQuiet, runBatch and runOneSentence never print a result. */
  lemma QuietModesPrintNoResults(mode: Mode, s: ShellState)
    requires mode == Quiet || mode == Batch || mode == OneSentence
    ensures Run(mode, s).session.results == s.session.results
  {
    RunLogs(mode, s);
  }

  /**
   * Every run starts with exit cleared: afterwards exit is set exactly when
   * a script called exit(), exitCode is that call's code or 0, and finished
   * gains the codes of those calls, then 0 when a looping or batch run was
   * not exited.
   */
  lemma RunExit(mode: Mode, s: ShellState)
    ensures var codes, r := RequestedCodes(ChunksRead(mode, s.session)), Run(mode, s).session;
      && (r.exit <==> codes != [])
      && r.exitCode == (if codes != [] then codes[|codes| - 1] else 0)
      && r.finished == s.session.finished + codes
           + (if mode == OneSentence || mode == OneSentenceInteractive || codes != [] then [] else [0])
  {
    RunApply(mode, s);
  }

  /** A run reads at most one script that called exit(). */
  lemma AtMostOneCode(mode: Mode, b: Session)
    ensures |RequestedCodes(ChunksRead(mode, b))| <= 1
  {
    if mode == Interactive || mode == Quiet {
      var t := Taken(b.lineNumber, b.pending);
      TakenRequestsAtMostOnce(b.lineNumber, b.pending);
      OneCode(t[|t| - 1]);
    } else {
      OneCode(NextChunk(b));
    }
  }

  /** The looping and batch runs emit finished exactly once, with the exit code. */
  lemma RunFinishedOnce(mode: Mode, s: ShellState)
    requires mode == Interactive || mode == Quiet || mode == Batch
    ensures var r := Run(mode, s).session;
      |r.finished| == |s.session.finished| + 1 && r.finished[|r.finished| - 1] == r.exitCode
  {
    RunExit(mode, s);
    AtMostOneCode(mode, s.session);
  }

  /** The state before a run's exit and exitCode are irrelevant: both are cleared first. */
  lemma RunIgnoresPriorExit(mode: Mode, s: ShellState, e: bool, c: int)
    ensures Run(mode, ShellState(s.session.(exit := e, exitCode := c), s.setup)) == Run(mode, s)
  {
    assert Begin(ShellState(s.session.(exit := e, exitCode := c), s.setup)) == Begin(s);
  }

  /**
   * initEngine runs at most once: only a run on an uninitialised shell
   * installs the globals; the policy, the interval and the API are kept.
   */
  lemma RunInitializes(mode: Mode, s: ShellState)
    ensures var e, r := s.setup, Run(mode, s).setup;
      && r.isInitialized
      && r.inits == e.inits + (if e.isInitialized then 0 else 1)
      && r.global == (if e.isInitialized then e.global else EngineBinding.Installed(e.global, e.api, e.useGlobalEngine))
      && r.useGlobalEngine == e.useGlobalEngine && r.interval == e.interval
      && r.standard == e.standard && r.api == e.api
  {
  }

  /** Two runs in a row initialise no more than one. */
  lemma InitializedOnce(first: Mode, second: Mode, s: ShellState)
    ensures Run(second, Run(first, s)).setup.inits == s.setup.inits + (if s.setup.isInitialized then 0 else 1)
  {
    RunInitializes(first, s);
    RunInitializes(second, Run(first, s));
  }

  /** After reset the next run installs the globals again, into the fresh engine's global object. */
  lemma ResetReinitializes(mode: Mode, s: ShellState)
    ensures var r := Run(mode, Reset(s));
      && r.setup.inits == s.setup.inits + 1
      && r.setup.global == EngineBinding.Installed(s.setup.standard, s.setup.api, s.setup.useGlobalEngine)
      && r.session.fileName == s.session.fileName && r.setup.useGlobalEngine == s.setup.useGlobalEngine
  {
    RunInitializes(mode, Reset(s));
    RunLogs(mode, Reset(s));
  }

  /** runBatch and the one-sentence runs read once and evaluate once, at the current line. */
  lemma SingleEvaluation(mode: Mode, s: ShellState)
    requires mode == Batch || mode == OneSentence || mode == OneSentenceInteractive
    ensures var t, r := s.session, Run(mode, s).session;
      && |r.evaluations| == |t.evaluations| + 1
      && r.evaluations[|t.evaluations|] == Evaluation(NextChunk(t).text, t.fileName, t.lineNumber)
      && r.pending == Drop(t.pending, 1)
  {
    RunLogs(mode, s);
    EvaluationLines(s.session.lineNumber, s.session.fileName, [NextChunk(s.session)], 0);
  }

  /**
   * runInteractive and runQuiet read the input in order and evaluate every
   * read, the final null one included: each read before the last had a text
   * and no exit() call.
   */
  lemma LoopReads(mode: Mode, s: ShellState)
    requires mode == Interactive || mode == Quiet
    ensures var cs := ChunksRead(mode, s.session);
      && |Run(mode, s).session.evaluations| == |s.session.evaluations| + |cs|
      && (forall i :: 0 <= i < |cs| - 1 ==> cs[i].text.Some? && cs[i].outcome.exitRequest.None?)
      && (forall i :: 0 <= i < |cs| && i < |s.session.pending| ==> cs[i] == s.session.pending[i])
  {
    RunLogs(mode, s);
    var cs := ChunksRead(mode, s.session);
    EvaluationLines(s.session.lineNumber, s.session.fileName, cs, 0);
  }

  /** The loop stops after a null text or once a script has called exit. */
  lemma LoopStops(mode: Mode, s: ShellState)
    requires mode == Interactive || mode == Quiet
    ensures var cs := ChunksRead(mode, s.session);
      cs[|cs| - 1].text.None? || Run(mode, s).session.exit
  {
    var b := s.session;
    var cs := Taken(b.lineNumber, b.pending);
    assert cs == ChunksRead(mode, b);
    var last := cs[|cs| - 1];
    RunExit(mode, s);
    if last.text.Some? {
      assert last.outcome.exitRequest.Some?;
      TakenRequestsAtMostOnce(b.lineNumber, b.pending);
      OneCode(last);
    }
  }
}
