/**
 * `str.format(**fields)`, the way the logging library uses it for record
 * layouts, messages, the error layout and file names.
 *
 * The text is read left to right, as CPython's markup iterator does: `{{`
 * and `}}` are escaped braces, a lone `}` or an unclosed `{` is a
 * `ValueError`, and each `{name}` / `{name:spec}` field is looked up and
 * rendered as it is met, so the first failing field decides the exception.
 * An automatically numbered or positional field (`{}`, `{0}`) is an
 * `IndexError` (only keyword arguments are ever passed), a missing name a
 * `KeyError` carrying that name.  A dotted name is looked up as a whole
 * key first: the model supplies the attribute chains the library formats
 * (`root.logger.start_date`) as keys of their own.
 */
module Template {
  import opened Python
  import Clock

  /** `Ok(s + x)` for `Ok(x)`; an exception passes through. */
  function Prepend(s: string, r: Result<string>): (p: Result<string>)
    ensures p.Ok? <==> r.Ok?
    ensures p.Ok? ==> p.value == s + r.value
    ensures p.Raise? ==> p == r
  {
    match r
    case Ok(x) => Ok(s + x)
    case Raise(e) => Raise(e)
  }

  /** Where a replacement field opened at index 0 of `t` ends. */
  datatype FieldEnd = Closed(at: nat) | Unclosed | NestedField

  /** The first `}` (or a nested `{`) after position `i` of `t`. */
  function FindClose(t: string, i: nat): (e: FieldEnd)
    requires i <= |t|
    ensures e.Closed? ==> i <= e.at < |t| && t[e.at] == '}'
    ensures e.Closed? ==> forall k :: i <= k < e.at ==> t[k] != '{' && t[k] != '}'
    ensures e.Unclosed? ==> forall k :: i <= k < |t| ==> t[k] != '{' && t[k] != '}'
    decreases |t| - i
  {
    if i == |t| then Unclosed
    else if t[i] == '}' then Closed(i)
    else if t[i] == '{' then NestedField
    else FindClose(t, i + 1)
  }

  /** `str.format(**fields)` of the template `t`. */
  function Format(t: string, fields: map<string, Value>): (r: Result<string>)
    decreases |t|
  {
    if t == [] then Ok("")
    else if t[0] == '{' && |t| >= 2 && t[1] == '{' then Prepend("{", Format(t[2..], fields))
    else if t[0] == '}' then
      if |t| >= 2 && t[1] == '}' then Prepend("}", Format(t[2..], fields)) else Raise(ValueError)
    else if t[0] == '{' then
      match FindClose(t, 1)
      case Unclosed => Raise(ValueError)
      case NestedField => Raise(Unmodelled)
      case Closed(j) =>
        match RenderField(t[1..j], fields)
        case Raise(e) => Raise(e)
        case Ok(s) => Prepend(s, Format(t[j + 1..], fields))
    else Prepend([t[0]], Format(t[1..], fields))
  }

  /**
   * The text of a field: its name, then an optional `!conversion` or
   * `:spec`.  The argument is looked up before the conversion is applied.
   */
  function RenderField(body: string, fields: map<string, Value>): (r: Result<string>)
  {
    var n := NameLength(body);
    match Lookup(body[..n], fields)
    case Raise(e) => Raise(e)
    case Ok(v) =>
      if n < |body| && body[n] == '!' then Raise(Unmodelled)
      else FormatValue(v, if n < |body| then body[n + 1..] else "")
  }

  /** The length of the field name: up to the first `:` or `!`. */
  function NameLength(body: string): (n: nat)
    ensures n <= |body|
    ensures n < |body| ==> body[n] == ':' || body[n] == '!'
    ensures forall k :: 0 <= k < n ==> body[k] != ':' && body[k] != '!'
  {
    if body == [] then 0
    else if body[0] == ':' || body[0] == '!' then 0
    else 1 + NameLength(body[1..])
  }

  /** The argument name of a field name: up to the first `.` or `[`. */
  function FirstPart(name: string): (p: string)
    ensures |p| <= |name| && p == name[..|p|]
    ensures '.' !in name && '[' !in name ==> p == name
  {
    if name == [] || name[0] == '.' || name[0] == '[' then ""
    else [name[0]] + FirstPart(name[1..])
  }

  predicate AllDigits(s: string)
  {
    forall k :: 0 <= k < |s| ==> '0' <= s[k] <= '9'
  }

  /**
   * The value a field name denotes among keyword arguments only.  The
   * argument name before any `.` or `[` is looked up first, so a missing
   * argument is a `KeyError` even when the whole chain is a key.  An
   * attribute or index chain (`{a.b}`, `{a[0]}`) on an argument that exists
   * is outside the model unless the chain is itself supplied as a key.
   */
  function Lookup(name: string, fields: map<string, Value>): (r: Result<Value>)
    ensures r.Ok? ==> FirstPart(name) in fields && name in fields && r.value == fields[name]
    ensures r.Raise? && r.exc.KeyError? <==> !AllDigits(FirstPart(name)) && FirstPart(name) !in fields
    ensures r.Raise? && r.exc.KeyError? ==> r.exc.key == FirstPart(name)
  {
    var first := FirstPart(name);
    if AllDigits(first) then Raise(IndexError)
    else if first !in fields then Raise(KeyError(first))
    else if name in fields then Ok(fields[name])
    else Raise(Unmodelled)
  }

  /**
   * `format(v, spec)`: an empty spec is `str(v)`; a `datetime` hands a spec
   * to `strftime`; strings and integers (booleans format as integers) take
   * `[[fill]align][width][type]`; `None`, dicts and other objects refuse any
   * spec with a `TypeError`.
   */
  function FormatValue(v: Value, spec: string): (r: Result<string>)
    ensures spec == "" ==> r == Ok(Str(v))
    ensures spec != "" && (v.NoneV? || v.DictV? || v.ObjV?) ==> r == Raise(TypeError)
  {
    if spec == "" then Ok(Str(v))
    else match v
      case TimeV(t) =>
        (match Clock.Strftime(t, spec)
         case Formatted(x) => Ok(x)
         case UnknownDirective => Raise(Unmodelled))
      case StrV(s) => Align(s, spec, '<', 's')
      case IntV(i) => Align(Decimal(i), spec, '>', 'd')
      case BoolV(b) => Align(if b then "1" else "0", spec, '>', 'd')
      case _ => Raise(TypeError)
  }

  datatype Spec = Spec(fill: char, align: char, width: nat)

  predicate IsAlign(c: char)
  {
    c == '<' || c == '>' || c == '^'
  }

  /** `[[fill]align][width][type]`; anything else is outside the model. */
  function ParseSpec(spec: string, defaultAlign: char, typeChar: char): (r: Option<Spec>)
    ensures r.Some? ==> IsAlign(r.value.align) || r.value.align == defaultAlign
  {
    var (fill, align, rest) :=
      if |spec| >= 2 && IsAlign(spec[1]) then (spec[0], spec[1], spec[2..])
      else if |spec| >= 1 && IsAlign(spec[0]) then (' ', spec[0], spec[1..])
      else (' ', defaultAlign, spec);
    var w := DigitRun(rest);
    var tail := rest[w..];
    if (tail == "" || tail == [typeChar]) && (w == 0 || rest[0] != '0') then
      Some(Spec(fill, align, DigitsValue(rest[..w])))
    else None
  }

  /** The length of the run of decimal digits at the start of `s`. */
  function DigitRun(s: string): (n: nat)
    ensures n <= |s| && AllDigits(s[..n])
    ensures n < |s| ==> !('0' <= s[n] <= '9')
  {
    if s != [] && '0' <= s[0] <= '9' then 1 + DigitRun(s[1..]) else 0
  }

  function DigitsValue(s: string): nat
    requires AllDigits(s)
  {
    if s == [] then 0 else 10 * DigitsValue(s[..|s| - 1]) + (s[|s| - 1] as int - '0' as int)
  }

  function Align(s: string, spec: string, defaultAlign: char, typeChar: char): (r: Result<string>)
  {
    match ParseSpec(spec, defaultAlign, typeChar)
    case None => Raise(Unmodelled)
    case Some(sp) => Ok(Pad(s, sp))
  }

  function Fill(c: char, n: int): (r: string)
    ensures |r| == if n <= 0 then 0 else n
    ensures forall k :: 0 <= k < |r| ==> r[k] == c
  {
    if n <= 0 then "" else [c] + Fill(c, n - 1)
  }

  /** Pad `s` to the spec's width, on the side its alignment says. */
  function Pad(s: string, sp: Spec): (r: string)
    ensures |r| == if |s| >= sp.width then |s| else sp.width
    ensures |s| >= sp.width ==> r == s
    ensures sp.align == '<' ==> r == s + Fill(sp.fill, sp.width - |s|)
    ensures sp.align == '>' ==> r == Fill(sp.fill, sp.width - |s|) + s
  {
    var gap := sp.width - |s|;
    if gap <= 0 then s
    else if sp.align == '<' then s + Fill(sp.fill, gap)
    else if sp.align == '>' then Fill(sp.fill, gap) + s
    else if sp.align == '^' then Fill(sp.fill, gap / 2) + s + Fill(sp.fill, gap - gap / 2)
    else Fill(sp.fill, gap) + s
  }

  // ---- properties ------------------------------------------------------

  predicate BraceFree(s: string)
  {
    forall k :: 0 <= k < |s| ==> s[k] != '{' && s[k] != '}'
  }

  /** Text without braces formats to itself, whatever the arguments. */
  lemma {:induction false} BraceFreeIsLiteral(t: string, fields: map<string, Value>)
    requires BraceFree(t)
    ensures Format(t, fields) == Ok(t)
    decreases |t|
  {
    if t != [] {
      BraceFreeIsLiteral(t[1..], fields);
      assert t == [t[0]] + t[1..];
    }
  }

  /** A brace-free prefix is copied in front of whatever the rest formats to. */
  lemma {:induction false} LiteralPrefix(lit: string, t: string, fields: map<string, Value>)
    requires BraceFree(lit)
    ensures Format(lit + t, fields) == Prepend(lit, Format(t, fields))
    decreases |lit|
  {
    if lit == [] {
      assert lit + t == t;
      match Format(t, fields)
      case Ok(x) => assert "" + x == x;
      case Raise(_) =>
    } else {
      assert (lit + t)[1..] == lit[1..] + t;
      LiteralPrefix(lit[1..], t, fields);
      match Format(t, fields)
      case Ok(x) => assert [lit[0]] + (lit[1..] + x) == lit + x;
      case Raise(_) =>
    }
  }

  /** A field name that is a plain identifier: no brace, dot, bracket, colon or bang, not numeric. */
  predicate PlainName(name: string)
  {
    name != [] && !('0' <= name[0] <= '9')
    && forall k :: 0 <= k < |name| ==>
      name[k] != '{' && name[k] != '}' && name[k] != '.' && name[k] != '['
      && name[k] != ':' && name[k] != '!'
  }

  /** `{name}` followed by more text: the value's `str()`, then the rest. */
  lemma {:induction false} FieldPrefix(name: string, t: string, fields: map<string, Value>)
    requires PlainName(name)
    ensures name in fields ==>
      Format("{" + name + "}" + t, fields) == Prepend(Str(fields[name]), Format(t, fields))
    ensures name !in fields ==> Format("{" + name + "}" + t, fields) == Raise(KeyError(name))
  {
    var s := "{" + name + "}" + t;
    FindClosePlain(s, name);
    assert s[1..|name| + 1] == name;
    assert s[|name| + 2..] == t;
    NameLengthPlain(name);
    assert name[..|name|] == name;
    assert FirstPart(name) == name by { FirstPartPlain(name); }
    assert !AllDigits(FirstPart(name)) by { assert !('0' <= name[0] <= '9'); }
  }

  /** `FieldPrefix` for a rest already known to format to `rest`. */
  lemma FieldThen(name: string, t: string, fields: map<string, Value>, rest: string)
    requires PlainName(name) && name in fields && Format(t, fields) == Ok(rest)
    ensures Format("{" + name + "}" + t, fields) == Ok(Str(fields[name]) + rest)
  {
    FieldPrefix(name, t, fields);
  }

  /** `LiteralPrefix` for a rest already known to format to `rest`. */
  lemma LiteralThen(lit: string, t: string, fields: map<string, Value>, rest: string)
    requires BraceFree(lit) && Format(t, fields) == Ok(rest)
    ensures Format(lit + t, fields) == Ok(lit + rest)
  {
    LiteralPrefix(lit, t, fields);
  }

  /** Three fields with one separator between them, then any text: each field is its value's `str()`. */
  lemma ThreeFields(n1: string, n2: string, n3: string, sep: string, t: string, rest: string,
                    fields: map<string, Value>)
    requires PlainName(n1) && PlainName(n2) && PlainName(n3) && BraceFree(sep)
    requires n1 in fields && n2 in fields && n3 in fields
    requires Format(t, fields) == Ok(rest)
    ensures Format("{" + n1 + "}" + (sep + ("{" + n2 + "}" + (sep + ("{" + n3 + "}" + t)))), fields)
      == Ok(Str(fields[n1]) + (sep + (Str(fields[n2]) + (sep + (Str(fields[n3]) + rest)))))
  {
    var a, b, c := Str(fields[n1]), Str(fields[n2]), Str(fields[n3]);
    var t2 := "{" + n3 + "}" + t;
    FieldThen(n3, t, fields, rest);
    LiteralThen(sep, t2, fields, c + rest);
    var t1 := "{" + n2 + "}" + (sep + t2);
    FieldThen(n2, sep + t2, fields, sep + (c + rest));
    LiteralThen(sep, t1, fields, b + (sep + (c + rest)));
    FieldThen(n1, sep + t1, fields, sep + (b + (sep + (c + rest))));
  }

  lemma FindClosePlain(s: string, name: string)
    requires PlainName(name) && |s| > |name| + 1 && s[0] == '{' && s[1..|name| + 1] == name
    requires s[|name| + 1] == '}'
    ensures FindClose(s, 1) == Closed(|name| + 1)
  {
    var i := |name| + 1;
    while i > 1
      invariant 1 <= i <= |name| + 1
      invariant FindClose(s, i) == Closed(|name| + 1)
    {
      assert s[i - 1] == name[i - 2];
      i := i - 1;
    }
  }

  lemma {:induction false} NameLengthPlain(name: string)
    requires forall k :: 0 <= k < |name| ==> name[k] != ':' && name[k] != '!'
    ensures NameLength(name) == |name|
  {
    if name != [] {
      NameLengthPlain(name[1..]);
    }
  }

  lemma {:induction false} FirstPartPlain(name: string)
    requires forall k :: 0 <= k < |name| ==> name[k] != '.' && name[k] != '['
    ensures FirstPart(name) == name
  {
    if name != [] {
      FirstPartPlain(name[1..]);
      assert name == [name[0]] + name[1..];
    }
  }

  /**
   * A `KeyError` always names an argument the template refers to and the
   * arguments lack.
   */
  lemma {:induction false} KeyErrorIsMissingName(t: string, fields: map<string, Value>)
    ensures Format(t, fields).Raise? && Format(t, fields).exc.KeyError? ==>
      Format(t, fields).exc.key !in fields
    decreases |t|
  {
    if t == [] {
    } else if t[0] == '{' && |t| >= 2 && t[1] == '{' {
      KeyErrorIsMissingName(t[2..], fields);
    } else if t[0] == '}' {
      if |t| >= 2 && t[1] == '}' { KeyErrorIsMissingName(t[2..], fields); }
    } else if t[0] == '{' {
      match FindClose(t, 1)
      case Unclosed =>
      case NestedField =>
      case Closed(j) =>
        KeyErrorIsMissingName(t[j + 1..], fields);
    } else {
      KeyErrorIsMissingName(t[1..], fields);
    }
  }

  /** `more` holds every argument of `fields`, with the same value. */
  predicate Agree(fields: map<string, Value>, more: map<string, Value>)
  {
    forall k :: k in fields ==> k in more && more[k] == fields[k]
  }

  /** Extra arguments (`**kwargs` beyond what a template names) never change a successful result. */
  lemma {:induction false} ExtraFieldsIgnored(t: string, fields: map<string, Value>, more: map<string, Value>)
    requires Agree(fields, more)
    requires Format(t, fields).Ok?
    ensures Format(t, more) == Format(t, fields)
    decreases |t|
  {
    if t == [] {
    } else if t[0] == '{' && |t| >= 2 && t[1] == '{' {
      ExtraFieldsIgnored(t[2..], fields, more);
    } else if t[0] == '}' {
      ExtraFieldsIgnored(t[2..], fields, more);
    } else if t[0] == '{' {
      match FindClose(t, 1)
      case Closed(j) =>
        var body := t[1..j];
        var n := NameLength(body);
        assert Lookup(body[..n], more) == Lookup(body[..n], fields);
        ExtraFieldsIgnored(t[j + 1..], fields, more);
    } else {
      ExtraFieldsIgnored(t[1..], fields, more);
    }
  }
}
