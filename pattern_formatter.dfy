/**
 * The pattern formatter of the oldest revision: a pattern string and a
 * dictionary of forms it is filled from.  Setting a pattern scans it for
 * placeholders (the matches of `{.*?[}|:]`) and gives every name the forms
 * cannot fill the text `'NONE'`, so that formatting does not fail on it
 * later; a form given as `None` is stored as `'NONE'` too.
 */
module Patterns {
  import opened Python
  import opened Template

  /** The text an unknown placeholder is filled with. */
  const Missing: Value := StrV("NONE")

  /** A character that ends a placeholder match of `{.*?[}|:]`. */
  predicate Stop(c: char)
  {
    c == '}' || c == '|' || c == ':'
  }

  /**
   * Where the lazy `.*?[}|:]` starting at position `j` of `p` ends: the
   * first stop character, provided no newline (which `.` does not match)
   * comes before it.
   */
  function MatchEnd(p: string, j: nat): (r: Option<nat>)
    requires j <= |p|
    ensures r.Some? ==> j <= r.value < |p| && Stop(p[r.value])
    ensures r.Some? ==> forall k :: j <= k < r.value ==> !Stop(p[k]) && p[k] != '\n'
    decreases |p| - j
  {
    if j == |p| then None
    else if Stop(p[j]) then Some(j)
    else if p[j] == '\n' then None
    else MatchEnd(p, j + 1)
  }

  /**
   * `[form[1:-1] for form in re.findall(r'{.*?[}|:]', p)]`: the matches
   * are taken left to right without overlapping; a `{` that starts no
   * match is passed over.
   */
  function Names(p: string): (ns: seq<string>)
    ensures forall i :: 0 <= i < |ns| ==> forall k :: 0 <= k < |ns[i]| ==> !Stop(ns[i][k]) && ns[i][k] != '\n'
    decreases |p|
  {
    if p == [] then []
    else if p[0] == '{' then
      match MatchEnd(p, 1)
      case None => Names(p[1..])
      case Some(k) =>
        var rest := Names(p[k + 1..]);
        assert forall m :: 0 <= m < |p[1..k]| ==> p[1..k][m] == p[m + 1];
        [p[1..k]] + rest
    else Names(p[1..])
  }

  /** `None` is stored as `'NONE'`. */
  function Stored(v: Value): (r: Value)
    ensures r != NoneV
    ensures v != NoneV ==> r == v
  {
    if v == NoneV then Missing else v
  }

  /** The loop over `*args` of `_set_forms`: each bare name becomes `'NONE'`. */
  function WithNames(forms: map<string, Value>, args: seq<string>): map<string, Value>
    decreases |args|
  {
    if args == [] then forms else WithNames(forms[args[0] := Missing], args[1..])
  }

  /** The loop over `**kwargs` of `_set_forms`. */
  function WithValues(forms: map<string, Value>, kwargs: map<string, Value>): map<string, Value>
  {
    forms + map k | k in kwargs :: Stored(kwargs[k])
  }

  /** `_set_forms(*args, **kwargs)`. */
  function SetForms(forms: map<string, Value>, args: seq<string>, kwargs: map<string, Value>): map<string, Value>
  {
    WithValues(WithNames(forms, args), kwargs)
  }

  /**
   * The scan of `_set_pattern`: each name is tried alone as `{name}`
   * against the forms so far; a `KeyError` gives it `'NONE'`, any other
   * exception escapes with the forms as they are at that point.
   */
  function Scan(forms: map<string, Value>, names: seq<string>): (map<string, Value>, Option<Exception>)
    decreases |names|
  {
    if names == [] then (forms, None)
    else match Format("{" + names[0] + "}", forms)
      case Ok(_) => Scan(forms, names[1..])
      case Raise(KeyError(_)) => Scan(forms[names[0] := Missing], names[1..])
      case Raise(e) => (forms, Some(e))
  }

  /** A formatter's attributes: the pattern (absent before the first one is set) and the forms. */
  datatype PatternState = PatternState(pattern: Option<string>, forms: map<string, Value>)

  /** `_set_pattern(pattern)`: `str(pattern)` is stored and scanned; `None` keeps the pattern, or sets `''` when there is none. */
  function SetPattern(s: PatternState, pattern: Value): (r: (PatternState, Option<Exception>))
    ensures s.pattern.Some? || pattern != NoneV ==> r.0.pattern.Some?
  {
    if pattern != NoneV then
      var p := Str(pattern);
      var (forms, err) := Scan(s.forms, Names(p));
      (PatternState(Some(p), forms), err)
    else if s.pattern.None? then (s.(pattern := Some("")), None)
    else (s, None)
  }

  /** `_set_all(pattern, **kwargs)`, which `modify` is: the forms first, then the pattern. */
  function SetAll(s: PatternState, pattern: Value, kwargs: map<string, Value>): (r: (PatternState, Option<Exception>))
    ensures r.0.pattern.Some?
  {
    SetPattern(s.(forms := SetForms(s.forms, [], kwargs)), pattern)
  }

  /** `Formatter(pattern, **kwargs)`: a keyword named like a parameter gives that parameter a second value. */
  function Created(pattern: Value, kwargs: map<string, Value>): (r: Result<PatternState>)
    ensures r.Ok? ==> r.value.pattern.Some?
  {
    if "self" in kwargs || "pattern" in kwargs then Raise(TypeError)
    else
      var (s, err) := SetAll(PatternState(None, map[]), pattern, kwargs);
      if err.Some? then Raise(err.value) else Ok(s)
  }

  /** `format(**kwargs)`: the pattern filled from the forms, overridden by the arguments. */
  function Rendered(s: PatternState, kwargs: map<string, Value>): (r: Result<string>)
    requires s.pattern.Some?
  {
    Format(s.pattern.value, s.forms + kwargs)
  }

  /** `copy(pattern, **kwargs)`: a new formatter from the pattern (or this one's) and the merged forms. */
  function Copied(s: PatternState, pattern: Value, kwargs: map<string, Value>): (r: Result<PatternState>)
    requires s.pattern.Some?
  {
    Created(if pattern == NoneV then StrV(s.pattern.value) else pattern, s.forms + kwargs)
  }

  class Formatter {
    var pattern: string
    var forms: map<string, Value>

    function Snap(): PatternState
      reads this
    {
      PatternState(Some(pattern), forms)
    }

    /** The object before `_set_all` has run: no forms and no pattern yet (kept as `''`, shown as absent by `New`). */
    constructor Empty()
      ensures pattern == "" && forms == map[]
    {
      pattern, forms := "", map[];
    }

    /** `Formatter(pattern, **kwargs)`: `null` and the exception when the scan fails. */
    static method New(pattern: Value, kwargs: map<string, Value>) returns (f: Formatter?, err: Option<Exception>)
      ensures err.None? <==> Created(pattern, kwargs).Ok?
      ensures err.Some? ==> f == null && err.value == Created(pattern, kwargs).exc
      ensures err.None? ==> f != null && fresh(f) && f.Snap() == Created(pattern, kwargs).value
    {
      if "self" in kwargs || "pattern" in kwargs {
        return null, Some(TypeError);
      }
      var g := new Formatter.Empty();
      g.SetNamedForms([], kwargs);
      if pattern == NoneV {
        return g, None;
      }
      err := g.ScanPattern(Str(pattern));
      if err.Some? {
        return null, err;
      }
      f := g;
    }

    /** `_set_forms(*args, **kwargs)`. */
    method SetNamedForms(args: seq<string>, kwargs: map<string, Value>)
      modifies this`forms
      ensures forms == SetForms(old(forms), args, kwargs)
    {
      var i := 0;
      while i < |args|
        invariant 0 <= i <= |args|
        invariant WithNames(forms, args[i..]) == WithNames(old(forms), args)
      {
        assert args[i..][1..] == args[i + 1..];
        forms := forms[args[i] := Missing];
        i := i + 1;
      }
      assert args[i..] == [];
      ghost var named := forms;
      var rest := kwargs.Keys;
      ghost var done: set<string> := {};
      while rest != {}
        invariant rest <= kwargs.Keys && done == kwargs.Keys - rest
        invariant forms == named + (map k | k in done :: Stored(kwargs[k]))
        decreases |rest|
      {
        var k :| k in rest;
        ValuesStep(named, kwargs, done, k);
        forms := forms[k := Stored(kwargs[k])];
        rest := rest - {k};
        done := done + {k};
      }
      assert done == kwargs.Keys;
    }

    /** The part of `_set_pattern` for a pattern that is not `None`. */
    method ScanPattern(p: string) returns (err: Option<Exception>)
      modifies this
      ensures (Snap(), err) == (var (fs, e) := Scan(old(forms), Names(p)); (PatternState(Some(p), fs), e))
    {
      pattern := p;
      var names := Names(p);
      var i := 0;
      err := None;
      while i < |names|
        invariant 0 <= i <= |names|
        invariant Scan(forms, names[i..]) == Scan(old(forms), names) && pattern == p
      {
        assert names[i..][0] == names[i] && names[i..][1..] == names[i + 1..];
        match Template.Format("{" + names[i] + "}", forms) {
          case Ok(_) =>
          case Raise(e) =>
            if e.KeyError? {
              forms := forms[names[i] := Missing];
            } else {
              assert Scan(forms, names[i..]) == (forms, Some(e));
              return Some(e);
            }
        }
        i := i + 1;
      }
      assert names[i..] == [];
    }

    /** `modify(pattern, **kwargs)`. */
    method Modify(pattern: Value, kwargs: map<string, Value>) returns (err: Option<Exception>)
      modifies this
      ensures (Snap(), err) == SetAll(old(Snap()), pattern, kwargs)
    {
      SetNamedForms([], kwargs);
      err := None;
      if pattern != NoneV {
        err := ScanPattern(Str(pattern));
      }
    }

    /** `format(**kwargs)`. */
    function Format(kwargs: map<string, Value>): (r: Result<string>)
      reads this
      ensures r == Rendered(Snap(), kwargs)
    {
      Template.Format(pattern, forms + kwargs)
    }

    /** `copy(pattern, **kwargs)`: this formatter is left as it is. */
    method Copy(pattern: Value, kwargs: map<string, Value>) returns (c: Formatter?, err: Option<Exception>)
      ensures err.None? <==> Copied(Snap(), pattern, kwargs).Ok?
      ensures err.Some? ==> c == null && err.value == Copied(Snap(), pattern, kwargs).exc
      ensures err.None? ==> c != null && fresh(c) && c.Snap() == Copied(Snap(), pattern, kwargs).value
    {
      c, err := New(if pattern == NoneV then StrV(this.pattern) else pattern, forms + kwargs);
    }
  }

  // ---- properties ------------------------------------------------------

  /** `_set_forms`: a keyword's value (`None` as `'NONE'`) wins over a bare name, which is `'NONE'`; other forms stay. */
  lemma {:induction false} SetFormsRule(forms: map<string, Value>, args: seq<string>, kwargs: map<string, Value>, k: string)
    ensures var r := SetForms(forms, args, kwargs);
      k in r <==> (k in forms || k in args || k in kwargs)
    ensures var r := SetForms(forms, args, kwargs);
      k in r ==> r[k] == if k in kwargs then Stored(kwargs[k]) else if k in args then Missing else forms[k]
    decreases |args|
  {
    if args != [] {
      SetFormsRule(forms[args[0] := Missing], args[1..], kwargs, k);
      assert k in args <==> k == args[0] || k in args[1..];
    }
  }

  /** One more keyword of the `**kwargs` loop. */
  lemma ValuesStep(named: map<string, Value>, kwargs: map<string, Value>, done: set<string>, k: string)
    requires done <= kwargs.Keys && k in kwargs
    ensures named + (map j | j in done + {k} :: Stored(kwargs[j]))
      == (named + (map j | j in done :: Stored(kwargs[j])))[k := Stored(kwargs[k])]
  {
  }

  /** Forms of plain names are never overwritten by the scan. */
  lemma {:induction false} ScanKeepsForms(forms: map<string, Value>, names: seq<string>, k: string)
    requires PlainName(k) && k in forms
    ensures k in Scan(forms, names).0 && Scan(forms, names).0[k] == forms[k]
    decreases |names|
  {
    if names != [] {
      if names[0] == k {
        FieldPrefix(k, "", forms);
        assert "{" + k + "}" + "" == "{" + k + "}";
      }
      match Format("{" + names[0] + "}", forms)
      case Ok(_) => ScanKeepsForms(forms, names[1..], k);
      case Raise(e) =>
        if e.KeyError? { ScanKeepsForms(forms[names[0] := Missing], names[1..], k); }
    }
  }

  /** A scan that succeeds leaves every plain name it met among the forms. */
  lemma {:induction false} ScanFillsNames(forms: map<string, Value>, names: seq<string>, i: int)
    requires 0 <= i < |names| && PlainName(names[i]) && Scan(forms, names).1.None?
    ensures names[i] in Scan(forms, names).0
    decreases |names|
  {
    var n := names[0];
    var next := match Format("{" + n + "}", forms)
      case Ok(_) => forms
      case Raise(_) => forms[n := Missing];
    assert Scan(forms, names) == Scan(next, names[1..]);
    if i == 0 {
      FieldPrefix(n, "", forms);
      assert "{" + n + "}" + "" == "{" + n + "}";
      ScanKeepsForms(next, names[1..], n);
    } else {
      ScanFillsNames(next, names[1..], i - 1);
    }
  }

  /**
   * A new formatter holds every keyword a plain name as given (`None` as
   * `'NONE'`), since the forms are set before the scan, and every plain
   * placeholder of its pattern as a form.
   */
  lemma Construction(pattern: Value, kwargs: map<string, Value>, k: string)
    requires Created(pattern, kwargs).Ok?
    ensures var s := Created(pattern, kwargs).value;
      (k in kwargs && PlainName(k) ==> k in s.forms && s.forms[k] == Stored(kwargs[k]))
      && (pattern != NoneV && k in Names(Str(pattern)) && PlainName(k) ==> k in s.forms)
      && s.pattern == Some(if pattern == NoneV then "" else Str(pattern))
  {
    var forms := SetForms(map[], [], kwargs);
    SetFormsRule(map[], [], kwargs, k);
    if pattern != NoneV {
      var ns := Names(Str(pattern));
      if k in kwargs && PlainName(k) { ScanKeepsForms(forms, ns, k); }
      if k in ns && PlainName(k) {
        var i :| 0 <= i < |ns| && ns[i] == k;
        ScanFillsNames(forms, ns, i);
      }
    }
  }

  /** `modify` with a `None` pattern only merges forms. */
  lemma ModifyWithoutPattern(s: PatternState, kwargs: map<string, Value>)
    requires s.pattern.Some?
    ensures SetAll(s, NoneV, kwargs) == (s.(forms := SetForms(s.forms, [], kwargs)), None)
  {
  }

  /** A placeholder found by the scan: the name between a `{` and the stop character that ends it. */
  lemma NamesOfField(n: string, c: char, rest: string)
    requires Stop(c) && forall k :: 0 <= k < |n| ==> !Stop(n[k]) && n[k] != '\n'
    ensures Names("{" + n + [c] + rest) == [n] + Names(rest)
  {
    var p := "{" + n + [c] + rest;
    var j := |n| + 1;
    while j > 1
      invariant 1 <= j <= |n| + 1
      invariant MatchEnd(p, j) == Some(|n| + 1)
    {
      assert p[j - 1] == n[j - 2];
      j := j - 1;
    }
    assert p[1..|n| + 1] == n && p[|n| + 2..] == rest;
  }

  /** A pattern without `{` has no placeholders. */
  lemma {:induction false} NamesOfPlainText(p: string)
    requires '{' !in p
    ensures Names(p) == []
    decreases |p|
  {
    if p != [] {
      NamesOfPlainText(p[1..]);
    }
  }

  /**
   * A placeholder nobody supplies renders as `'NONE'`: `{n}` followed by
   * brace-free text formats to the keyword's value if one was given and
   * to `NONE` otherwise.
   */
  lemma UnknownRendersNone(n: string, rest: string, kwargs: map<string, Value>)
    requires PlainName(n) && BraceFree(rest) && '\n' !in n && '|' !in n
    requires "self" !in kwargs && "pattern" !in kwargs
    ensures Created(StrV("{" + n + "}" + rest), kwargs).Ok?
    ensures var fs := Created(StrV("{" + n + "}" + rest), kwargs).value.forms;
      n in fs && fs[n] == if n in kwargs then Stored(kwargs[n]) else Missing
    ensures Rendered(Created(StrV("{" + n + "}" + rest), kwargs).value, map[])
      == Ok(Str(if n in kwargs then Stored(kwargs[n]) else Missing) + rest)
  {
    var p := "{" + n + "}" + rest;
    assert p == "{" + n + ['}'] + rest;
    NamesOfField(n, '}', rest);
    assert '{' !in rest;
    NamesOfPlainText(rest);
    assert Names(p) == [n];
    var forms := SetForms(map[], [], kwargs);
    FieldPrefix(n, "", forms);
    assert "{" + n + "}" + "" == "{" + n + "}";
    assert [n][1..] == [];
    var fs0 := if n in forms then forms else forms[n := Missing];
    assert Scan(forms, [n]) == (fs0, None);
    var s := Created(StrV(p), kwargs);
    assert s.Ok?;
    var fs := s.value.forms;
    assert n in fs && fs[n] == (if n in kwargs then Stored(kwargs[n]) else Missing);
    FieldPrefix(n, rest, fs + map[]);
    assert fs + map[] == fs;
    BraceFreeIsLiteral(rest, fs);
  }

  /**
   * A dotted placeholder on an argument nobody supplies: the scan's
   * `KeyError` stores the whole name `a.b` as `'NONE'`, yet `format()`
   * looks up the argument `a` first and raises `KeyError('a')` again.
   */
  lemma DottedPlaceholderRaises()
    ensures Created(StrV("{a.b}"), map[]).Ok?
    ensures var s := Created(StrV("{a.b}"), map[]).value;
      s.forms == map["a.b" := Missing] && Rendered(s, map[]) == Raise(KeyError("a"))
  {
    var p := "{" + "a.b" + ['}'] + "";
    assert p == "{a.b}";
    NamesOfField("a.b", '}', "");
    NamesOfPlainText("");
    assert Names(p) == ["a.b"];
    var forms: map<string, Value> := map["a.b" := Missing];
    DottedFieldRaises(map[]);
    DottedFieldRaises(forms);
    assert SetForms(map[], [], map[]) == map[];
    assert "{" + ["a.b"][0] + "}" == p && ["a.b"][1..] == [];
    assert Scan(map[], ["a.b"]) == (forms, None);
    assert forms + map[] == forms;
  }

  /** `'{a.b}'.format(**fields)` without an `a` raises `KeyError('a')`. */
  lemma DottedFieldRaises(fields: map<string, Value>)
    requires "a" !in fields
    ensures Format("{a.b}", fields) == Raise(KeyError("a"))
  {
    var p := "{a.b}";
    assert p[1] == 'a' && p[2] == '.' && p[3] == 'b' && p[4] == '}' && |p| == 5;
    assert FindClose(p, 4) == Closed(4);
    assert FindClose(p, 3) == Closed(4);
    assert FindClose(p, 2) == Closed(4);
    assert FindClose(p, 1) == Closed(4);
    assert p[1..4] == "a.b" && "a.b"[..3] == "a.b";
    assert FirstPart("a.b") == "a";
    assert NameLength("a.b") == 3;
  }

  /** `format` arguments override the stored forms. */
  lemma ArgumentsOverrideForms(s: PatternState, n: string, rest: string, kwargs: map<string, Value>)
    requires s.pattern == Some("{" + n + "}" + rest) && PlainName(n) && (n in kwargs || n in s.forms)
    ensures Rendered(s, kwargs)
      == Prepend(Str(if n in kwargs then kwargs[n] else s.forms[n]), Format(rest, s.forms + kwargs))
  {
    FieldPrefix(n, rest, s.forms + kwargs);
  }

  /**
   * `copy()` passes the merged forms as keywords next to `pattern`, so a
   * form named `pattern` or `self` makes it raise; any other copy is the
   * formatter built from the pattern and the merged forms.
   */
  lemma CopyRule(s: PatternState, pattern: Value, kwargs: map<string, Value>)
    requires s.pattern.Some?
    ensures ("self" in s.forms + kwargs || "pattern" in s.forms + kwargs) ==> Copied(s, pattern, kwargs) == Raise(TypeError)
    ensures !("self" in s.forms + kwargs || "pattern" in s.forms + kwargs) ==>
      Copied(s, pattern, kwargs) == Created(if pattern == NoneV then StrV(s.pattern.value) else pattern, s.forms + kwargs)
  {
  }

  /**
   * A pattern with a `{pattern}` placeholder gets a `pattern` form from its
   * own scan, so the formatter it builds cannot be copied.
   */
  lemma PatternFormBlocksCopy()
    ensures Created(StrV("{pattern}"), map[]).Ok?
    ensures var s := Created(StrV("{pattern}"), map[]).value;
      "pattern" in s.forms && Copied(s, NoneV, map[]) == Raise(TypeError)
  {
    var p := "{" + "pattern" + "}" + "";
    assert p == "{pattern}";
    UnknownRendersNone("pattern", "", map[]);
    var s := Created(StrV(p), map[]).value;
    assert "pattern" in s.forms;
    CopyRule(s, NoneV, map[]);
  }
}
