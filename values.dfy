/**
 * The part of the script engine's value graph that the shell looks at:
 * objects are ordered lists of own properties (the order QScriptValueIterator
 * visits them in), each with a name, a value and the two property flags the
 * shell sets. Property lookup takes the first property with the wanted name;
 * anything that is not an object has no properties.
 */
module ScriptValues {
  import opened Optional

  datatype Value =
    | Undefined
    | Atom(kind: string)          // a value modelled without members: number, string, boolean, or a function (whose own members are not modelled)
    | Obj(props: seq<Prop>)

  datatype Prop = Prop(name: string, value: Value, readOnly: bool, undeletable: bool)

  /**
   * The names of a property list, in iteration order. This is a definition:
   * its ensures only spell it out pointwise for the lemmas about Find and
   * Matching.
   */
  function NamesOf(props: seq<Prop>): (names: seq<string>)
    ensures |names| == |props|
    ensures forall i :: 0 <= i < |props| ==> names[i] == props[i].name
  {
    seq(|props|, i requires 0 <= i < |props| => props[i].name)
  }

  /** The names QScriptValueIterator yields for v. */
  function Names(v: Value): seq<string> {
    if v.Obj? then NamesOf(v.props) else []
  }

  /** Well-formed objects: every own property name occurs once. */
  predicate UniqueNames(props: seq<Prop>) {
    forall i, j :: 0 <= i < j < |props| ==> props[i].name != props[j].name
  }

  /** The index of the first property called `name`, or |props| when there is none. */
  function FindIndex(props: seq<Prop>, name: string): (i: nat)
    ensures i <= |props|
    ensures i < |props| ==> props[i].name == name
    ensures forall j :: 0 <= j < i ==> props[j].name != name
  {
    if props == [] then 0
    else if props[0].name == name then 0
    else 1 + FindIndex(props[1..], name)
  }

  /** Any index with the characterising properties of FindIndex is FindIndex. */
  lemma FindIndexUnique(props: seq<Prop>, name: string, k: nat)
    requires k <= |props|
    requires k < |props| ==> props[k].name == name
    requires forall j :: 0 <= j < k ==> props[j].name != name
    ensures FindIndex(props, name) == k
  {
  }

  /** The first property called `name`. */
  function Find(props: seq<Prop>, name: string): (r: Option<Prop>)
    ensures r.None? <==> name !in NamesOf(props)
    ensures r.Some? ==> r.value in props && r.value.name == name
  {
    var i := FindIndex(props, name);
    if i < |props| then Some(props[i]) else None
  }

  /** QScriptValue::property over own properties: the value of the property, undefined when it is missing. */
  function Lookup(v: Value, name: string): Value {
    if v.Obj? then
      match Find(v.props, name)
      case Some(p) => p.value
      case None => Undefined
    else Undefined
  }

  /**
   * QScriptValue::setProperty with explicit flags: the existing property of
   * that name gets the new value and flags in place; otherwise the property
   * is appended.
   */
  function SetProperty(props: seq<Prop>, p: Prop): seq<Prop> {
    var i := FindIndex(props, p.name);
    if i < |props| then props[i := p] else props + [p]
  }

  /** After SetProperty the name has the new property and every other name keeps its old one. */
  lemma SetPropertyFind(props: seq<Prop>, p: Prop)
    ensures Find(SetProperty(props, p), p.name) == Some(p)
    ensures forall n :: n != p.name ==> Find(SetProperty(props, p), n) == Find(props, n)
    ensures UniqueNames(props) ==> UniqueNames(SetProperty(props, p))
  {
    FindIndexUnique(SetProperty(props, p), p.name, FindIndex(props, p.name));
    forall n | n != p.name ensures Find(SetProperty(props, p), n) == Find(props, n) {
      SetPropertyOther(props, p, n);
    }
  }

  lemma SetPropertyOther(props: seq<Prop>, p: Prop, n: string)
    requires n != p.name
    ensures Find(SetProperty(props, p), n) == Find(props, n)
  {
    var r := SetProperty(props, p);
    assert forall j :: 0 <= j < |r| ==> (r[j].name == n <==> j < |props| && props[j].name == n);
    var l := FindIndex(props, n);
    if l < |props| {
      FindIndexUnique(r, n, l);
    } else {
      FindIndexUnique(r, n, |r|);
    }
  }

  /** Appending a property never hides an earlier one of the same name. */
  lemma FindAppend(props: seq<Prop>, p: Prop, n: string)
    ensures Find(props + [p], n) ==
      if n in NamesOf(props) then Find(props, n)
      else if p.name == n then Some(p)
      else None
  {
    var r := props + [p];
    assert NamesOf(r) == NamesOf(props) + [p.name];
    var l := FindIndex(props, n);
    if l < |props| || p.name == n {
      FindIndexUnique(r, n, l);
    } else {
      FindIndexUnique(r, n, |r|);
    }
  }
}
