/**
 * Completion of a partial script expression (Shell::completeScriptExpression
 * and the static findCompletions of engine/shell.cpp).
 *
 * The expression is split from the right into the identifier being typed
 * (`name`, starting at `start`) and the dot-separated `path` in front of it;
 * the path is resolved against the context's `this` object; the names of the
 * resolved value's properties that start with `name` are collected, plus
 * the reserved words when the path is empty, and sorted; when `name` is
 * non-empty the part of their longest common prefix that follows `name` is
 * reported as `commonName`.
 */
module Completion {
  import opened Optional
  import opened Strings
  import opened ScriptValues

  /**
   * isIdentifierChar: a letter, a digit or '_'. Letters and digits are the
   * ASCII ones (QChar::isLetter/isNumber also accept other Unicode letters
   * and numbers).
   */
  predicate IsIdentifierChar(c: char) {
    ('a' <= c <= 'z') || ('A' <= c <= 'Z') || ('0' <= c <= '9') || c == '_'
  }

  predicate AllIdentifierChars(s: string) {
    forall k :: 0 <= k < |s| ==> IsIdentifierChar(s[k])
  }

  /** Where the maximal run of identifier characters that ends just before j starts. */
  function IdentifierStart(e: string, j: nat): (i: nat)
    requires j <= |e|
    ensures i <= j
    ensures forall k :: i <= k < j ==> IsIdentifierChar(e[k])
    ensures i == 0 || !IsIdentifierChar(e[i - 1])
    decreases j
  {
    if j > 0 && IsIdentifierChar(e[j - 1]) then IdentifierStart(e, j - 1) else j
  }

  /**
   * The path segments in front of position `at`, left to right: while
   * e[at] is a dot that is not the first character, the identifier run just
   * before that dot is a segment and the scan goes on in front of that run.
   */
  function PathBefore(e: string, at: int): seq<string>
    requires -1 <= at < |e|
    decreases at + 1
  {
    if at > 0 && e[at] == '.' then
      var s := IdentifierStart(e, at);
      PathBefore(e, s - 1) + [e[s..at]]
    else []
  }

  /** Where the text that PathBefore(e, at) was read from starts. */
  function PathStart(e: string, at: int): (p: nat)
    requires -1 <= at < |e|
    ensures p <= at + 1
    decreases at + 1
  {
    if at > 0 && e[at] == '.' then PathStart(e, IdentifierStart(e, at) - 1) else at + 1
  }

  /** The segments written out, each followed by a dot. */
  function Dotted(path: seq<string>): string {
    if path == [] then "" else Dotted(path[..|path| - 1]) + path[|path| - 1] + "."
  }

  datatype Split = Split(path: seq<string>, name: string, start: nat)

  /** The decomposition completeScriptExpression computes. */
  function SplitExpression(e: string): Split {
    var start := IdentifierStart(e, |e|);
    Split(PathBefore(e, start - 1), e[start..], start)
  }

  /** The text the path was read from is the segments, each followed by a dot. */
  lemma {:induction false} PathBeforeText(e: string, at: int)
    requires -1 <= at < |e|
    ensures e[PathStart(e, at)..at + 1] == Dotted(PathBefore(e, at))
    decreases at + 1
  {
    if at > 0 && e[at] == '.' {
      var s: int := IdentifierStart(e, at);
      PathBeforeText(e, s - 1);
      var prefix := PathBefore(e, s - 1);
      var path := prefix + [e[s..at]];
      assert path[..|path| - 1] == prefix;
      var p := PathStart(e, s - 1);
      assert e[p..at + 1] == e[p..s] + e[s..at] + [e[at]];
    }
  }

  /** Every segment is a run of identifier characters (possibly empty). */
  lemma {:induction false} PathBeforeSegments(e: string, at: int)
    requires -1 <= at < |e|
    ensures forall k :: 0 <= k < |PathBefore(e, at)| ==> AllIdentifierChars(PathBefore(e, at)[k])
    decreases at + 1
  {
    if at > 0 && e[at] == '.' {
      var s: int := IdentifierStart(e, at);
      PathBeforeSegments(e, s - 1);
      var prefix := PathBefore(e, s - 1);
      var seg := e[s..at];
      assert AllIdentifierChars(seg) by {
        forall m | 0 <= m < |seg| ensures IsIdentifierChar(seg[m]) {
          assert seg[m] == e[s + m];
        }
      }
      assert PathBefore(e, at) == prefix + [seg];
    }
  }

  /**
   * The scan stops in front of the path: no identifier character is glued
   * to its left, and it is not preceded by a dot that could have been
   * consumed (a dot at index 0 never is).
   */
  lemma {:induction false} PathBeforeStops(e: string, at: int)
    requires -1 <= at < |e|
    requires at == -1 || !IsIdentifierChar(e[at])
    ensures PathStart(e, at) == 0 || !IsIdentifierChar(e[PathStart(e, at) - 1])
    ensures !(PathStart(e, at) >= 2 && e[PathStart(e, at) - 1] == '.')
    ensures 0 <= at && e[0] == '.' ==> PathStart(e, at) >= 1
    decreases at + 1
  {
    if at > 0 && e[at] == '.' {
      var s: int := IdentifierStart(e, at);
      PathBeforeStops(e, s - 1);
    }
  }

  /** `name` is the maximal trailing run of identifier characters of the expression, starting at `start`. */
  lemma SplitName(e: string)
    ensures SplitExpression(e).start <= |e|
    ensures SplitExpression(e).name == e[SplitExpression(e).start..]
    ensures AllIdentifierChars(SplitExpression(e).name)
    ensures SplitExpression(e).start == 0 || !IsIdentifierChar(e[SplitExpression(e).start - 1])
  {
    var start: int := IdentifierStart(e, |e|);
    var name := e[start..];
    assert AllIdentifierChars(name) by {
      forall m | 0 <= m < |name| ensures IsIdentifierChar(name[m]) {
        assert name[m] == e[start + m];
      }
    }
  }

  /** In front of `name` the expression reads `seg0.seg1. ... segN.`: the path, left to right. */
  lemma SplitPathText(e: string)
    ensures e[PathStart(e, SplitExpression(e).start - 1)..] == Dotted(SplitExpression(e).path) + SplitExpression(e).name
  {
    var start: int := IdentifierStart(e, |e|);
    PathBeforeText(e, start - 1);
    var p := PathStart(e, start - 1);
    assert e[p..] == e[p..start] + e[start..];
  }

  /** Every path segment is a run of identifier characters; two dots in a row give an empty one. */
  lemma SplitPathSegments(e: string)
    ensures forall k :: 0 <= k < |SplitExpression(e).path| ==> AllIdentifierChars(SplitExpression(e).path[k])
  {
    var start: int := IdentifierStart(e, |e|);
    PathBeforeSegments(e, start - 1);
  }

  /**
   * The path cannot be extended to the left: no identifier character is glued
   * to it and no consumable dot precedes it (a dot at index 0 never is consumed).
   */
  lemma SplitPathStops(e: string)
    ensures var p := PathStart(e, SplitExpression(e).start - 1);
      (p == 0 || !IsIdentifierChar(e[p - 1])) && !(p >= 2 && e[p - 1] == '.')
    ensures e != "" && e[0] == '.' ==> PathStart(e, SplitExpression(e).start - 1) >= 1
  {
    var start: int := IdentifierStart(e, |e|);
    PathBeforeStops(e, start - 1);
    if e != "" && e[0] == '.' {
      assert !IsIdentifierChar(e[0]);
      assert start >= 1;
    }
  }

  /** An expression that ends in a non-identifier character completes an empty name at its end. */
  lemma SplitAfterNonIdentifier(e: string)
    requires |e| > 0 && !IsIdentifierChar(e[|e| - 1])
    ensures SplitExpression(e).name == "" && SplitExpression(e).start == |e|
  {
  }

  /** An empty expression, and one whose only dot is its first character: no path. */
  lemma SplitExamplesNoPath()
    ensures SplitExpression("") == Split([], "", 0)
    ensures SplitExpression(".foo") == Split([], "foo", 1)
  {
    var e := ".foo";
    assert IdentifierStart(e, 4) == 1;
    assert e[1..] == "foo";
  }

  /** `this.` completes an empty name in `this`. */
  lemma SplitExampleThis()
    ensures SplitExpression("this.") == Split(["this"], "", 5)
  {
    var e := "this.";
    assert IdentifierStart(e, 5) == 5;
    assert IdentifierStart(e, 4) == 0;
    assert PathBefore(e, -1) == [];
    assert PathBefore(e, 4) == [] + [e[0..4]];
    assert e[0..4] == "this" && e[5..] == "";
  }

  /** `a.b.ba` completes `ba` in `a.b`. */
  lemma SplitExampleNested()
    ensures SplitExpression("a.b.ba") == Split(["a", "b"], "ba", 4)
  {
    var e := "a.b.ba";
    assert IdentifierStart(e, 6) == 4;
    assert IdentifierStart(e, 3) == 2;
    assert IdentifierStart(e, 1) == 0;
    assert PathBefore(e, -1) == [];
    assert PathBefore(e, 1) == [] + [e[0..1]];
    assert PathBefore(e, 3) == PathBefore(e, 1) + [e[2..3]];
    assert e[0..1] == "a" && e[2..3] == "b" && e[4..] == "ba";
  }

  /** Two dots in a row give an empty segment. */
  lemma SplitExampleDoubleDot()
    ensures SplitExpression("a..b") == Split(["a", ""], "b", 3)
  {
    var e := "a..b";
    assert IdentifierStart(e, 4) == 3;
    assert IdentifierStart(e, 2) == 2;
    assert IdentifierStart(e, 1) == 0;
    assert PathBefore(e, -1) == [];
    assert PathBefore(e, 1) == [] + [e[0..1]];
    assert PathBefore(e, 2) == PathBefore(e, 1) + [e[2..2]];
    assert e[0..1] == "a" && e[2..2] == "" && e[3..] == "b";
  }

  /** The property names that have `name` as a case-sensitive prefix, in their order. */
  function Matching(names: seq<string>, name: string): seq<string> {
    if names == [] then []
    else (if IsPrefix(name, names[0]) then [names[0]] else []) + Matching(names[1..], name)
  }

  lemma {:induction false} MatchingMembers(names: seq<string>, name: string)
    ensures forall x :: x in Matching(names, name) <==> x in names && IsPrefix(name, x)
  {
    if names != [] {
      MatchingMembers(names[1..], name);
      assert names == [names[0]] + names[1..];
    }
  }

  lemma {:induction false} MatchingAppend(a: seq<string>, b: seq<string>, name: string)
    ensures Matching(a + b, name) == Matching(a, name) + Matching(b, name)
  {
    if a == [] {
      assert a + b == b;
    } else {
      assert (a + b)[0] == a[0];
      assert (a + b)[1..] == a[1..] + b;
      MatchingAppend(a[1..], b, name);
    }
  }

  /** With nothing typed, every name matches. */
  lemma {:induction false} MatchingEmptyName(names: seq<string>)
    ensures Matching(names, "") == names
  {
    if names != [] {
      MatchingEmptyName(names[1..]);
    }
  }

  /** Follow the path from v, one property lookup per segment. */
  function Walk(v: Value, path: seq<string>): Value
    decreases |path|
  {
    if path == [] then v else Walk(Lookup(v, path[0]), path[1..])
  }

  /** findCompletions' resolution: a leading "this" denotes the context object itself. */
  function Resolve(thisObject: Value, path: seq<string>): Value {
    if |path| > 0 && path[0] == "this" then Walk(thisObject, path[1..]) else Walk(thisObject, path)
  }

  lemma {:induction false} WalkConcat(v: Value, a: seq<string>, b: seq<string>)
    ensures Walk(v, a + b) == Walk(Walk(v, a), b)
    decreases |a|
  {
    if a == [] {
      assert a + b == b;
    } else {
      assert (a + b)[0] == a[0];
      assert (a + b)[1..] == a[1..] + b;
      WalkConcat(Lookup(v, a[0]), a[1..], b);
    }
  }

  lemma {:induction false} WalkUndefined(path: seq<string>)
    ensures Walk(Undefined, path) == Undefined
  {
    if path != [] {
      WalkUndefined(path[1..]);
    }
  }

  /** A segment that names a missing property makes the whole walk undefined. */
  lemma WalkDeadEnd(v: Value, path: seq<string>, k: nat)
    requires k < |path|
    requires Lookup(Walk(v, path[..k]), path[k]) == Undefined
    ensures Walk(v, path) == Undefined
  {
    assert path == path[..k] + [path[k]] + path[k + 1..];
    WalkConcat(v, path[..k] + [path[k]], path[k + 1..]);
    WalkConcat(v, path[..k], [path[k]]);
    WalkUndefined(path[k + 1..]);
  }

  /** "this" is skipped only as the first segment; everywhere else it is a property name. */
  lemma ResolveThis(thisObject: Value, rest: seq<string>)
    ensures Resolve(thisObject, ["this"]) == thisObject
    ensures Resolve(thisObject, ["this"] + rest) == Walk(thisObject, rest)
    ensures Resolve(thisObject, ["a", "this"]) == Lookup(Lookup(thisObject, "a"), "this")
  {
    assert (["this"] + rest)[1..] == rest;
    assert ["a", "this"][1..] == ["this"];
    assert ["this"][1..] == [];
  }

  const Reserved: seq<string> := ["this", "true", "false", "null"]

  /** The reserved words that start with `name`, in the order findCompletions appends them. */
  lemma MatchingReserved(name: string)
    ensures Matching(Reserved, name) ==
      (if IsPrefix(name, "this") then ["this"] else [])
      + (if IsPrefix(name, "true") then ["true"] else [])
      + (if IsPrefix(name, "false") then ["false"] else [])
      + (if IsPrefix(name, "null") then ["null"] else [])
  {
    assert Reserved[1..] == ["true", "false", "null"];
    assert Reserved[1..][1..] == ["false", "null"];
    assert Reserved[1..][1..][1..] == ["null"];
    assert Reserved[1..][1..][1..][1..] == [];
    assert Matching(Reserved[3..], name) == (if IsPrefix(name, "null") then ["null"] else []) + Matching([], name);
    assert Matching(Reserved[2..], name) == (if IsPrefix(name, "false") then ["false"] else []) + Matching(Reserved[3..], name);
    assert Matching(Reserved[1..], name) == (if IsPrefix(name, "true") then ["true"] else []) + Matching(Reserved[2..], name);
    assert Matching(Reserved, name) == (if IsPrefix(name, "this") then ["this"] else []) + Matching(Reserved[1..], name);
  }

  /** The candidates findCompletions collects, before sorting. */
  function Collected(thisObject: Value, path: seq<string>, name: string): seq<string> {
    Matching(Names(Resolve(thisObject, path)), name)
      + (if path == [] then Matching(Reserved, name) else [])
  }

  /**
   * The value written to commonName: the longest common prefix of the
   * matching property names with `name` cut off, when `name` is non-empty
   * and some property matched; None when the out-parameter is left alone.
   */
  function CommonName(thisObject: Value, path: seq<string>, name: string): Option<string> {
    var m := Matching(Names(Resolve(thisObject, path)), name);
    if name != "" && m != [] then
      MatchingMembers(Names(Resolve(thisObject, path)), name);
      assert m[0] in m;
      LongestCommonPrefixIsLongest(m, name);
      Some(LongestCommonPrefix(m)[|name|..])
    else None
  }

  /** Exactly the matching property names, and the matching reserved words when the path is empty. */
  lemma CollectedMembers(thisObject: Value, path: seq<string>, name: string, x: string)
    ensures x in Collected(thisObject, path, name) <==>
      || (x in Names(Resolve(thisObject, path)) && IsPrefix(name, x))
      || (path == [] && x in Reserved && IsPrefix(name, x))
  {
    MatchingMembers(Names(Resolve(thisObject, path)), name);
    MatchingMembers(Reserved, name);
  }

  /** With nothing typed: every property name, then all four reserved words when the path is empty. */
  lemma CollectedEmptyName(thisObject: Value, path: seq<string>)
    ensures Collected(thisObject, path, "") ==
      Names(Resolve(thisObject, path)) + (if path == [] then Reserved else [])
  {
    MatchingEmptyName(Names(Resolve(thisObject, path)));
    MatchingEmptyName(Reserved);
  }

  /** A path that resolves to nothing offers no candidates and leaves commonName alone. */
  lemma DeadEndHasNoCandidates(thisObject: Value, path: seq<string>, name: string, k: nat)
    requires |path| > 0
    requires var q := if path[0] == "this" then path[1..] else path;
      k < |q| && Lookup(Walk(thisObject, q[..k]), q[k]) == Undefined
    ensures Collected(thisObject, path, name) == []
    ensures CommonName(thisObject, path, name) == None
  {
    var q := if path[0] == "this" then path[1..] else path;
    WalkDeadEnd(thisObject, q, k);
  }

  /**
   * commonName is written exactly when something was typed and some property
   * matched; `name` followed by it is then a prefix of every matching
   * property name, and every prefix they all share is a prefix of it.
   */
  lemma CommonNameSpec(thisObject: Value, path: seq<string>, name: string, p: string)
    ensures var m := Matching(Names(Resolve(thisObject, path)), name);
      CommonName(thisObject, path, name).Some? <==> name != "" && m != []
    ensures var m := Matching(Names(Resolve(thisObject, path)), name);
      CommonName(thisObject, path, name).Some? ==>
        && (forall x :: x in m ==> IsPrefix(name + CommonName(thisObject, path, name).value, x))
        && ((forall x :: x in m ==> IsPrefix(p, x)) ==> IsPrefix(p, name + CommonName(thisObject, path, name).value))
  {
    var m := Matching(Names(Resolve(thisObject, path)), name);
    if name != "" && m != [] {
      var c := CommonName(thisObject, path, name).value;
      var lcp := LongestCommonPrefix(m);
      MatchingMembers(Names(Resolve(thisObject, path)), name);
      assert m[0] in m;
      LongestCommonPrefixIsLongest(m, name);
      assert name + c == lcp;
      forall x | x in m ensures IsPrefix(name + c, x) {
        var i :| 0 <= i < |m| && m[i] == x;
      }
      if forall x :: x in m ==> IsPrefix(p, x) {
        forall i | 0 <= i < |m| ensures IsPrefix(p, m[i]) {
          assert m[i] in m;
        }
        LongestCommonPrefixIsLongest(m, p);
      }
    }
  }

  /** The path-walking loop at the top of findCompletions. */
  method ResolvePath(thisObject: Value, path: seq<string>) returns (v: Value)
    ensures v == Resolve(thisObject, path)
  {
    v := thisObject;
    var length := |path|;
    if length > 0 {
      var pos := 0;
      if path[pos] == "this" {
        pos := pos + 1;
      }
      while pos < length
        invariant 0 <= pos <= length
        invariant Walk(v, path[pos..]) == Resolve(thisObject, path)
      {
        assert path[pos..][1..] == path[pos + 1..];
        v := Lookup(v, path[pos]);
        pos := pos + 1;
      }
    }
  }

  /** The inner loop of findCompletions: how long a prefix `common` and `propertyName` share. */
  method SharedPrefixLength(common: string, propertyName: string) returns (k: nat)
    ensures k == PrefixLength(common, propertyName)
  {
    k := 0;
    while k < |common| && k < |propertyName|
      invariant k <= |common| && k <= |propertyName|
      invariant common[..k] == propertyName[..k]
    {
      if common[k] != propertyName[k] {
        break;
      }
      k := k + 1;
    }
    PrefixLengthUnique(common, propertyName, k);
  }

  /**
   * The iteration of findCompletions when a name was typed: the matching names
   * in order, and their common prefix (None while nothing matched).
   */
  method CollectMatching(names: seq<string>, name: string) returns (collected: seq<string>, common: Option<string>)
    ensures collected == Matching(names, name)
    ensures common == if collected == [] then None else Some(LongestCommonPrefix(collected))
  {
    collected := [];
    common := None;
    var i := 0;
    while i < |names|
      invariant 0 <= i <= |names|
      invariant collected == Matching(names[..i], name)
      invariant common == if collected == [] then None else Some(LongestCommonPrefix(collected))
    {
      var propertyName := names[i];
      assert names[..i + 1] == names[..i] + [propertyName];
      MatchingAppend(names[..i], [propertyName], name);
      if IsPrefix(name, propertyName) {
        var extended := collected + [propertyName];
        assert extended[..|extended| - 1] == collected;
        if common.None? {
          common := Some(propertyName);
        } else {
          var k := SharedPrefixLength(common.value, propertyName);
          common := Some(common.value[..k]);
        }
        collected := extended;
      }
      i := i + 1;
    }
    assert names[..|names|] == names;
  }

  /** The iteration of findCompletions when no name was typed: every property name, in order. */
  method CollectAll(names: seq<string>) returns (collected: seq<string>)
    ensures collected == Matching(names, "")
  {
    collected := [];
    var i := 0;
    while i < |names|
      invariant 0 <= i <= |names|
      invariant collected == names[..i]
    {
      collected := collected + [names[i]];
      i := i + 1;
    }
    assert names[..|names|] == names;
    MatchingEmptyName(names);
  }

  /** The reserved words findCompletions appends, one test each, after a typed name. */
  method AppendReserved(collected: seq<string>, name: string) returns (r: seq<string>)
    ensures r == collected + Matching(Reserved, name)
  {
    r := collected;
    var word := "this";
    if IsPrefix(name, word) {
      r := r + [word];
    }
    word := "true";
    if IsPrefix(name, word) {
      r := r + [word];
    }
    word := "false";
    if IsPrefix(name, word) {
      r := r + [word];
    }
    word := "null";
    if IsPrefix(name, word) {
      r := r + [word];
    }
    MatchingReserved(name);
  }

  /**
   * findCompletions: resolve the path, collect the matching names while
   * narrowing their common prefix, add the reserved words, sort.
   */
  method FindCompletions(thisObject: Value, path: seq<string>, name: string, commonName: string)
    returns (result: seq<string>, commonOut: string)
    ensures Sorted(result)
    ensures multiset(result) == multiset(Collected(thisObject, path, name))
    ensures commonOut == match CommonName(thisObject, path, name)
                         case Some(c) => c
                         case None => commonName
  {
    var v := ResolvePath(thisObject, path);
    var length := |path|;
    var names := Names(v);
    commonOut := commonName;
    var collected: seq<string>;
    if name == "" {
      collected := CollectAll(names);
      if length == 0 {
        collected := collected + ["this", "true", "false", "null"];
        MatchingEmptyName(Reserved);
      }
    } else {
      var common;
      collected, common := CollectMatching(names, name);
      if common.Some? {
        MatchingMembers(names, name);
        assert collected[0] in collected;
        LongestCommonPrefixIsLongest(collected, name);
        commonOut := common.value[|name|..];
      }
      if length == 0 {
        collected := AppendReserved(collected, name);
      }
    }
    assert collected == Collected(thisObject, path, name);
    result := SortStrings(collected);
  }

  /** The backward scan over identifier characters that completeScriptExpression does twice. */
  method ScanIdentifier(expression: string, endAt: nat) returns (startWord: nat)
    requires endAt <= |expression|
    ensures startWord == IdentifierStart(expression, endAt)
  {
    startWord := endAt;
    while startWord > 0 && IsIdentifierChar(expression[startWord - 1])
      invariant 0 <= startWord <= endAt
      invariant IdentifierStart(expression, startWord) == IdentifierStart(expression, endAt)
    {
      startWord := startWord - 1;
    }
  }

  /** One round of the dot loop: a consumable dot at `at` adds the segment in front of it. */
  lemma PathBeforeStep(e: string, at: int)
    requires 0 < at < |e| && e[at] == '.'
    ensures var s := IdentifierStart(e, at); PathBefore(e, at) == PathBefore(e, s - 1) + [e[s..at]]
  {
  }

  /** The dot loop of completeScriptExpression, walking left from `at`. */
  method ScanPath(expression: string, at: int) returns (path: seq<string>)
    requires -1 <= at < |expression|
    ensures path == PathBefore(expression, at)
  {
    path := [];
    var startWord := at;
    while startWord > 0 && expression[startWord] == '.'
      invariant -1 <= startWord < |expression|
      invariant PathBefore(expression, startWord) + path == PathBefore(expression, at)
    {
      var endWord := startWord;
      PathBeforeStep(expression, endWord);
      startWord := ScanIdentifier(expression, endWord);
      var pathItem := expression[startWord..endWord];
      AppendAssociative(PathBefore(expression, startWord - 1), [pathItem], path);
      path := [pathItem] + path;
      startWord := startWord - 1;
    }
  }

  /** The index arithmetic of completeScriptExpression: name, its start, and the path. */
  method SplitScriptExpression(expression: string) returns (path: seq<string>, name: string, start: nat)
    ensures Split(path, name, start) == SplitExpression(expression)
  {
    path, name := [], "";
    if expression == "" {
      start := 0;
      return;
    }
    var endWord: int := |expression| - 1;
    var startWord: int := ScanIdentifier(expression, endWord + 1);
    if startWord <= endWord {
      name := expression[startWord..endWord + 1];
    }
    start := startWord;
    path := ScanPath(expression, startWord - 1);
  }

  /**
   * completeScriptExpression, once the engine is initialised: split the
   * expression and complete it against the context's `this` object.
   */
  method CompleteExpression(thisObject: Value, expression: string, commonName: string)
    returns (result: seq<string>, start: nat, commonOut: string)
    ensures var sp := SplitExpression(expression);
      && start == sp.start
      && Sorted(result)
      && multiset(result) == multiset(Collected(thisObject, sp.path, sp.name))
      && commonOut == match CommonName(thisObject, sp.path, sp.name)
                      case Some(c) => c
                      case None => commonName
  {
    var path, name;
    path, name, start := SplitScriptExpression(expression);
    result, commonOut := FindCompletions(thisObject, path, name, commonName);
  }
}
