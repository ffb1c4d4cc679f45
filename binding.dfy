/**
 * How initEngine installs the shell into a script engine's global object.
 *
 * Merge policy (useGlobalEngine): the wrapper of the scriptable shell engine
 * becomes the global object, and every property of the old global object
 * except `print` is copied onto it, flags included; the wrapper's own
 * `print` stays. Isolate policy: the old global object is kept and gets an
 * undeletable `print` that forwards to the shell. Both policies then add an
 * undeletable `sr` object whose undeletable `engine` property is a second
 * wrapper of the scriptable shell engine.
 */
module EngineBinding {
  import opened Optional
  import opened ScriptValues

  /** The function object initEngine creates around the static print forwarder; its own members are not modelled. */
  const PrintFunction: Value := Atom("print")

  /** The `print` property the isolate policy installs. */
  const PrintProp: Prop := Prop("print", PrintFunction, false, true)

  /** A wrapper object of the scriptable shell engine, whose members are `api`. */
  function EngineObject(api: seq<Prop>): Value {
    Obj(api)
  }

  /** The `sr` property: a new object holding an undeletable `engine`. */
  function SrProp(api: seq<Prop>): Prop {
    Prop("sr", Obj([Prop("engine", EngineObject(api), false, true)]), false, true)
  }

  /**
   * The copy loop of the merge policy, over the first |from| properties of
   * the old global object in iteration order: each one other than `print`
   * is set on the target with its own flags.
   */
  function Merge(target: seq<Prop>, from: seq<Prop>): seq<Prop>
    decreases |from|
  {
    if from == [] then target
    else
      var merged := Merge(target, from[..|from| - 1]);
      var last := from[|from| - 1];
      if last.name == "print" then merged else SetProperty(merged, last)
  }

  /** The properties of the global object after initEngine. */
  function Installed(global: seq<Prop>, api: seq<Prop>, useGlobalEngine: bool): seq<Prop> {
    var base := if useGlobalEngine then Merge(api, global) else SetProperty(global, PrintProp);
    SetProperty(base, SrProp(api))
  }

  /**
   * After the merge every copied global shadows the wrapper member of the
   * same name; `print` and names the old global object lacks keep the
   * wrapper's member.
   */
  lemma {:induction false} MergeFind(target: seq<Prop>, from: seq<Prop>, n: string)
    requires UniqueNames(from)
    ensures Find(Merge(target, from), n) ==
      if n != "print" && n in NamesOf(from) then Find(from, n) else Find(target, n)
    decreases |from|
  {
    if from != [] {
      var init := from[..|from| - 1];
      var last := from[|from| - 1];
      assert from == init + [last];
      assert UniqueNames(init);
      MergeFind(target, init, n);
      SetPropertyFind(Merge(target, init), last);
      FindAppend(init, last, n);
      assert NamesOf(from) == NamesOf(init) + [last.name];
      if last.name == n {
        assert n !in NamesOf(init);
      }
    }
  }

  /**
   * What a script sees under every global name once initEngine has run,
   * for both policies.
   */
  lemma InstalledFind(global: seq<Prop>, api: seq<Prop>, useGlobalEngine: bool, n: string)
    requires UniqueNames(global)
    ensures Find(Installed(global, api, useGlobalEngine), n) ==
      if n == "sr" then Some(SrProp(api))
      else if useGlobalEngine then
        (if n != "print" && n in NamesOf(global) then Find(global, n) else Find(api, n))
      else if n == "print" then Some(PrintProp)
      else Find(global, n)
  {
    var base := if useGlobalEngine then Merge(api, global) else SetProperty(global, PrintProp);
    SetPropertyFind(base, SrProp(api));
    if useGlobalEngine {
      MergeFind(api, global, n);
    } else {
      SetPropertyFind(global, PrintProp);
    }
  }

  /** `sr` and `sr.engine` are undeletable under either policy, and `sr.engine` is the wrapper. */
  lemma InstalledSr(global: seq<Prop>, api: seq<Prop>, useGlobalEngine: bool)
    ensures var g := Obj(Installed(global, api, useGlobalEngine));
      && Find(g.props, "sr").Some? && Find(g.props, "sr").value.undeletable
      && Lookup(g, "sr").Obj? && Find(Lookup(g, "sr").props, "engine").Some?
      && Find(Lookup(g, "sr").props, "engine").value.undeletable
      && Lookup(Lookup(g, "sr"), "engine") == EngineObject(api)
  {
    var base := if useGlobalEngine then Merge(api, global) else SetProperty(global, PrintProp);
    SetPropertyFind(base, SrProp(api));
  }

  /** Isolate policy: `print` is undeletable and is the forwarder. */
  lemma IsolatedPrint(global: seq<Prop>, api: seq<Prop>)
    ensures Lookup(Obj(Installed(global, api, false)), "print") == PrintFunction
    ensures Find(Installed(global, api, false), "print").value.undeletable
  {
    SetPropertyFind(global, PrintProp);
    SetPropertyFind(SetProperty(global, PrintProp), SrProp(api));
  }

  /** A property set well-formed before initEngine is well-formed after it. */
  lemma {:induction false} InstalledUnique(global: seq<Prop>, api: seq<Prop>, useGlobalEngine: bool)
    requires UniqueNames(global) && UniqueNames(api)
    ensures UniqueNames(Installed(global, api, useGlobalEngine))
  {
    var base := if useGlobalEngine then Merge(api, global) else SetProperty(global, PrintProp);
    if useGlobalEngine {
      MergeUnique(api, global);
    } else {
      SetPropertyFind(global, PrintProp);
    }
    SetPropertyFind(base, SrProp(api));
  }

  lemma {:induction false} MergeUnique(target: seq<Prop>, from: seq<Prop>)
    requires UniqueNames(target)
    ensures UniqueNames(Merge(target, from))
    decreases |from|
  {
    if from != [] {
      MergeUnique(target, from[..|from| - 1]);
      SetPropertyFind(Merge(target, from[..|from| - 1]), from[|from| - 1]);
    }
  }

  /** One printOut call of the forwarder: the argument and the `last` flag. */
  datatype PrintCall = PrintCall(message: Value, last: bool)

  /**
   * The static print forwarder: every argument goes to printOut with
   * last = false except the final one; no arguments, no output. The
   * callee's data is the shell, so the calls are returned as the log the
   * shell receives. The script sees undefined.
   */
  method PrintForward(arguments: seq<Value>) returns (calls: seq<PrintCall>, r: Value)
    ensures |calls| == |arguments|
    ensures forall i :: 0 <= i < |calls| ==> calls[i].message == arguments[i]
    ensures forall i :: 0 <= i < |calls| ==> (calls[i].last <==> i == |arguments| - 1)
    ensures r == Undefined
  {
    calls := [];
    var argumentCount := |arguments|;
    if argumentCount > 0 {
      var i := 0;
      while i < argumentCount - 1
        invariant 0 <= i <= argumentCount - 1
        invariant calls == seq(i, k requires 0 <= k < i => PrintCall(arguments[k], false))
      {
        calls := calls + [PrintCall(arguments[i], false)];
        i := i + 1;
      }
      calls := calls + [PrintCall(arguments[argumentCount - 1], true)];
    }
    r := Undefined;
  }
}
