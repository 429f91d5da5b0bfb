/**
 * The slice of the Python runtime that the logging library leans on: dynamic
 * values with `isinstance` tests and truthiness, `str()`, the exceptions the
 * library raises or lets through, a few `str` methods and POSIX `os.path`.
 */
module Python {
  import Clock

  datatype Option<T> = None | Some(value: T)

  /** Exceptions raised by the modelled code, or by the builtins it calls. */
  datatype Exception =
    | KeyError(key: string)
    | IndexError
    | ValueError
    | TypeError
    | AttributeError(attr: string)
    | FileNotFoundError(path: string)
    /** A local variable read before any assignment to it. */
    | UnboundLocalError(name: string)
    /** Raised by `sys.exit()`. */
    | SystemExit
    /** The interpreter's recursion limit, reached by a call cycle that never ends. */
    | RecursionError
    /** A construct outside the model (a nested format spec, an unknown strftime directive). */
    | Unmodelled

  datatype Result<T> = Ok(value: T) | Raise(exc: Exception)

  /**
   * A Python object as far as the library inspects it.  `TimeV` is a
   * `datetime` (seconds since the epoch), `DictV` a dict with its insertion
   * order, `ObjV` any other object, known only by its `str()`.
   */
  datatype Value =
    | NoneV
    | BoolV(b: bool)
    | IntV(i: int)
    | StrV(s: string)
    | TimeV(t: int)
    | DictV(entries: seq<(string, Value)>)
    | ObjV(text: string)

  /** `isinstance(v, int)`: `bool` is a subclass of `int`. */
  predicate IsInt(v: Value)
  {
    v.IntV? || v.BoolV?
  }

  /** The integer an `int` (or `bool`) stands for. */
  function AsInt(v: Value): (n: int)
    requires IsInt(v)
    ensures v.BoolV? ==> n == (if v.b then 1 else 0)
  {
    match v
    case IntV(i) => i
    case BoolV(b) => if b then 1 else 0
  }

  /** `bool(v)`. */
  predicate Truthy(v: Value)
  {
    match v
    case NoneV => false
    case BoolV(b) => b
    case IntV(i) => i != 0
    case StrV(s) => s != ""
    case TimeV(_) => true
    case DictV(entries) => entries != []
    case ObjV(_) => true
  }

  /** `a or b`. */
  function Or(a: Value, b: Value): (r: Value)
    ensures r == a || r == b
    ensures Truthy(a) ==> r == a
  {
    if Truthy(a) then a else b
  }

  /** `str(v)`. */
  function Str(v: Value): string
    decreases v, 1
  {
    match v
    case NoneV => "None"
    case BoolV(b) => if b then "True" else "False"
    case IntV(i) => Decimal(i)
    case StrV(s) => s
    case TimeV(t) => Clock.IsoFormat(t)
    case DictV(_) => "{" + Items(v, 0) + "}"
    case ObjV(text) => text
  }

  /** `repr(v)` of a dict's value (strings are quoted without escaping). */
  function Repr(v: Value): string
    decreases v, 2
  {
    match v
    case StrV(s) => "'" + s + "'"
    case TimeV(t) => "datetime(" + Clock.IsoFormat(t) + ")"
    case _ => Str(v)
  }

  /** The items of the dict `d` from position `i` on, as `repr` lists them. */
  function Items(d: Value, i: nat): string
    requires d.DictV? && i <= |d.entries|
    decreases d, 0, |d.entries| - i
  {
    if i == |d.entries| then ""
    else
      "'" + d.entries[i].0 + "': " + Repr(d.entries[i].1)
      + (if i + 1 == |d.entries| then "" else ", " + Items(d, i + 1))
  }

  /** `str(i)` for an integer. */
  function Decimal(i: int): (s: string)
    ensures |s| >= 1
    ensures i >= 0 ==> s == Clock.Digits(i)
  {
    if i < 0 then "-" + Clock.Digits(-i) else Clock.Digits(i)
  }

  /** `s * n`. */
  function Repeat(s: string, n: int): (r: string)
    ensures |r| == if n <= 0 then 0 else |s| * n
    ensures |s| == 1 ==> forall k :: 0 <= k < |r| ==> r[k] == s[0]
  {
    if n <= 0 then "" else s + Repeat(s, n - 1)
  }

  /** The number of bytes the code point `c` takes in UTF-8. */
  function Utf8Width(c: char): (n: nat)
    ensures 1 <= n <= 4
    ensures n == 1 <==> c as int < 0x80
  {
    if c as int < 0x80 then 1
    else if c as int < 0x800 then 2
    else if c as int < 0x10000 then 3
    else 4
  }

  /** `len(s.encode())`: the length of `s` in UTF-8 bytes, which is what `os.stat` reports for a file holding `s`. */
  function Utf8Size(s: string): (n: nat)
    ensures |s| <= n <= 4 * |s|
  {
    if s == [] then 0 else Utf8Width(s[0]) + Utf8Size(s[1..])
  }

  /** Encoding is per character, so the size of a concatenation is the sum of the sizes. */
  lemma {:induction false} Utf8SizeAppend(a: string, b: string)
    ensures Utf8Size(a + b) == Utf8Size(a) + Utf8Size(b)
    decreases |a|
  {
    if a != [] {
      assert (a + b)[0] == a[0];
      assert (a + b)[1..] == a[1..] + b;
      Utf8SizeAppend(a[1..], b);
    } else {
      assert a + b == b;
    }
  }

  /** ASCII text takes one byte per character, and any other character makes the text longer in bytes. */
  lemma {:induction false} Utf8SizeAscii(s: string)
    ensures Utf8Size(s) == |s| <==> forall k :: 0 <= k < |s| ==> s[k] as int < 0x80
    decreases |s|
  {
    if s != [] {
      Utf8SizeAscii(s[1..]);
      assert forall k :: 1 <= k < |s| ==> s[k] == s[1..][k - 1];
    }
  }

  /** `str.upper()` on ASCII letters. */
  function Upper(s: string): (r: string)
    ensures |r| == |s|
    ensures forall k :: 0 <= k < |s| ==> r[k] == UpperChar(s[k])
  {
    if s == [] then "" else [UpperChar(s[0])] + Upper(s[1..])
  }

  /** `str.lower()` on ASCII letters. */
  function Lower(s: string): (r: string)
    ensures |r| == |s|
    ensures forall k :: 0 <= k < |s| ==> r[k] == LowerChar(s[k])
  {
    if s == [] then "" else [LowerChar(s[0])] + Lower(s[1..])
  }

  function UpperChar(c: char): char
  {
    if 'a' <= c <= 'z' then (c as int - 32) as char else c
  }

  function LowerChar(c: char): char
  {
    if 'A' <= c <= 'Z' then (c as int + 32) as char else c
  }

  /** Lower-casing an already lower-cased string changes nothing. */
  lemma LowerIdempotent(s: string)
    ensures Lower(Lower(s)) == Lower(s)
  {
  }

  // ---- os.path (POSIX) -------------------------------------------------

  /** The index just past the last `/` of `p`, or 0 when there is none. */
  function AfterLastSlash(p: string): (i: nat)
    ensures i <= |p|
    ensures i > 0 ==> p[i - 1] == '/'
    ensures forall k :: i <= k < |p| ==> p[k] != '/'
  {
    if p == [] then 0
    else if p[|p| - 1] == '/' then |p|
    else AfterLastSlash(p[..|p| - 1])
  }

  /** `os.path.basename(p)`. */
  function Basename(p: string): (b: string)
    ensures '/' !in b
    ensures '/' !in p ==> b == p
  {
    p[AfterLastSlash(p)..]
  }

  /** `os.path.dirname(p)`: the head, without trailing slashes unless it is all slashes. */
  function Dirname(p: string): (d: string)
  {
    var head := p[..AfterLastSlash(p)];
    if head != [] && exists k :: 0 <= k < |head| && head[k] != '/' then StripTrailingSlashes(head) else head
  }

  function StripTrailingSlashes(s: string): (r: string)
    ensures |r| <= |s| && r == s[..|r|]
  {
    if s != [] && s[|s| - 1] == '/' then StripTrailingSlashes(s[..|s| - 1]) else s
  }

  /** `os.path.join(a, b)`. */
  function Join(a: string, b: string): (r: string)
    ensures |b| > 0 && b[0] == '/' ==> r == b
    ensures !(|b| > 0 && b[0] == '/') ==> |r| >= |a| && r[..|a|] == a
  {
    if |b| > 0 && b[0] == '/' then b
    else if a == "" || a[|a| - 1] == '/' then a + b
    else a + "/" + b
  }

  /** `p.split('/')`: the pieces between slashes, empty pieces included. */
  function Split(p: string): (cs: seq<string>)
    ensures |cs| >= 1
    ensures forall i :: 0 <= i < |cs| ==> '/' !in cs[i]
    decreases |p|
  {
    if p == [] then [""]
    else
      var rest := Split(p[1..]);
      if p[0] == '/' then [""] + rest
      else [[p[0]] + rest[0]] + rest[1..]
  }

  /** `'/'.join(cs)`. */
  function JoinSlash(cs: seq<string>): string
    decreases |cs|
  {
    if cs == [] then ""
    else if |cs| == 1 then cs[0]
    else cs[0] + "/" + JoinSlash(cs[1..])
  }

  /**
   * One component of `normpath`'s loop: empty and `.` components vanish;
   * `..` removes the previous component, except that it is kept in front
   * of a relative path (at the start or after other `..`) and dropped at
   * the root of an absolute one.
   */
  function Push(acc: seq<string>, c: string, rooted: bool): seq<string>
  {
    if c == "" || c == "." then acc
    else if c != ".." || (!rooted && acc == []) || (acc != [] && acc[|acc| - 1] == "..") then acc + [c]
    else if acc != [] then acc[..|acc| - 1]
    else acc
  }

  /** The loop of `normpath` over the components, left to right. */
  function Fold(cs: seq<string>, rooted: bool): seq<string>
    decreases |cs|
  {
    if cs == [] then [] else Push(Fold(cs[..|cs| - 1], rooted), cs[|cs| - 1], rooted)
  }

  /**
   * Components as `normpath` leaves them: none empty, none `.`, none with
   * a slash; `..` only as a run at the start, and never under the root.
   */
  predicate Normal(cs: seq<string>, rooted: bool)
  {
    (forall i :: 0 <= i < |cs| ==> cs[i] != "" && cs[i] != "." && '/' !in cs[i])
    && (forall i, j :: 0 <= i < j < |cs| && cs[j] == ".." ==> cs[i] == "..")
    && (rooted ==> forall i :: 0 <= i < |cs| ==> cs[i] != "..")
  }

  /** The leading slashes `normpath` keeps: two exactly when there are exactly two, as POSIX allows. */
  function LeadingSlashes(p: string): string
  {
    if p == [] || p[0] != '/' then ""
    else if |p| >= 2 && p[1] == '/' && !(|p| >= 3 && p[2] == '/') then "//"
    else "/"
  }

  /** `os.path.normpath(p)` on POSIX. */
  function Normpath(p: string): (r: string)
    ensures r != ""
    ensures |p| > 0 && p[0] == '/' <==> r[0] == '/'
  {
    if p == [] then "."
    else
      var lead := LeadingSlashes(p);
      var cs := Fold(Split(p), lead != "");
      FoldIsNormal(Split(p), lead != "");
      JoinSlashHead(cs);
      var r := lead + JoinSlash(cs);
      if r == "" then "." else r
  }

  /** One step of the loop keeps the components normal. */
  lemma PushNormal(acc: seq<string>, c: string, rooted: bool)
    requires Normal(acc, rooted) && '/' !in c
    ensures Normal(Push(acc, c, rooted), rooted)
  {
    if c != "" && c != "." && c == ".." && rooted && acc != [] && acc[|acc| - 1] != ".." {
      assert Push(acc, c, rooted) == acc[..|acc| - 1];
    }
  }

  /** Whatever the components, the loop leaves them normal. */
  lemma {:induction false} FoldIsNormal(cs: seq<string>, rooted: bool)
    requires forall i :: 0 <= i < |cs| ==> '/' !in cs[i]
    ensures Normal(Fold(cs, rooted), rooted)
    decreases |cs|
  {
    if cs != [] {
      FoldIsNormal(cs[..|cs| - 1], rooted);
      PushNormal(Fold(cs[..|cs| - 1], rooted), cs[|cs| - 1], rooted);
    }
  }

  /** A join starts with its first component. */
  lemma JoinSlashHead(cs: seq<string>)
    ensures cs != [] && cs[0] != "" ==> JoinSlash(cs) != "" && JoinSlash(cs)[0] == cs[0][0]
  {
  }

  /** `'/'.join(p.split('/')) == p`. */
  lemma {:induction false} JoinSplit(p: string)
    ensures JoinSlash(Split(p)) == p
    decreases |p|
  {
    if p != [] {
      var rest := Split(p[1..]);
      JoinSplit(p[1..]);
      assert p == [p[0]] + p[1..];
      if p[0] == '/' {
        assert ([""] + rest)[1..] == rest;
        assert JoinSlash([""] + rest) == "" + "/" + JoinSlash(rest);
      } else {
        JoinSlashCons(p[0], rest);
      }
    }
  }

  /** A character in front of the first piece is a character in front of the join. */
  lemma JoinSlashCons(c: char, rest: seq<string>)
    requires rest != []
    ensures JoinSlash([[c] + rest[0]] + rest[1..]) == [c] + JoinSlash(rest)
  {
    var cs := [[c] + rest[0]] + rest[1..];
    assert cs[0] == [c] + rest[0] && cs[1..] == rest[1..];
    if |rest| > 1 {
      assert [c] + rest[0] + "/" + JoinSlash(rest[1..]) == [c] + (rest[0] + "/" + JoinSlash(rest[1..]));
    }
  }

  /** Text without a slash joins the first piece of what follows it. */
  lemma {:induction false} SplitPrefix(x: string, t: string)
    requires '/' !in x
    ensures Split(x + t) == [x + Split(t)[0]] + Split(t)[1..]
    decreases |x|
  {
    if x == [] {
      var st := Split(t);
      assert x + t == t && x + st[0] == st[0];
      assert st == [st[0]] + st[1..];
    } else {
      SplitPrefix(x[1..], t);
      assert (x + t)[0] == x[0] && (x + t)[1..] == x[1..] + t;
      assert [x[0]] + (x[1..] + Split(t)[0]) == x + Split(t)[0];
    }
  }

  /** What `split('/')` gives back for a join: the components, or `['']` for none. */
  function Parts(cs: seq<string>): seq<string>
  {
    if cs == [] then [""] else cs
  }

  /** `'/'.join(cs).split('/') == cs` when no component holds a slash. */
  lemma {:induction false} SplitJoin(cs: seq<string>)
    requires forall i :: 0 <= i < |cs| ==> '/' !in cs[i]
    ensures Split(JoinSlash(cs)) == Parts(cs)
    decreases |cs|
  {
    if |cs| == 1 {
      SplitPrefix(cs[0], "");
      assert cs[0] + "" == cs[0];
    } else if |cs| > 1 {
      var j := JoinSlash(cs[1..]);
      SplitJoin(cs[1..]);
      assert cs[0] + "/" + j == cs[0] + ("/" + j);
      SplitPrefix(cs[0], "/" + j);
      SplitSlash(j);
      assert Split("/" + j) == [""] + cs[1..];
      assert ([""] + cs[1..])[0] == "" && ([""] + cs[1..])[1..] == cs[1..];
      assert cs[0] + "" == cs[0];
      assert cs == [cs[0]] + cs[1..];
    }
  }

  /** A leading slash splits off an empty piece. */
  lemma SplitSlash(x: string)
    ensures Split("/" + x) == [""] + Split(x)
  {
    assert ("/" + x)[1..] == x;
  }

  /** An empty piece in front changes nothing in the loop. */
  lemma {:induction false} FoldEmptyFirst(cs: seq<string>, rooted: bool)
    ensures Fold([""] + cs, rooted) == Fold(cs, rooted)
    decreases |cs|
  {
    if cs == [] {
      assert Fold([""], rooted) == Push(Fold([], rooted), "", rooted);
    } else {
      var e := [""] + cs;
      assert e[..|e| - 1] == [""] + cs[..|cs| - 1] && e[|e| - 1] == cs[|cs| - 1];
      FoldEmptyFirst(cs[..|cs| - 1], rooted);
    }
  }

  /** Dropping the last component keeps the components normal. */
  lemma NormalPrefix(cs: seq<string>, rooted: bool)
    requires cs != [] && Normal(cs, rooted)
    ensures Normal(cs[..|cs| - 1], rooted)
  {
    var init := cs[..|cs| - 1];
    assert forall i :: 0 <= i < |init| ==> init[i] == cs[i];
  }

  /** The loop leaves normal components as they are. */
  lemma {:induction false} FoldNormal(cs: seq<string>, rooted: bool)
    requires Normal(cs, rooted)
    ensures Fold(cs, rooted) == cs
    decreases |cs|
  {
    if cs != [] {
      var init, c := cs[..|cs| - 1], cs[|cs| - 1];
      NormalPrefix(cs, rooted);
      FoldNormal(init, rooted);
      assert c != "" && c != ".";
      if c == ".." && init != [] {
        assert init[|init| - 1] == cs[|cs| - 2] == "..";
      }
      assert Push(init, c, rooted) == init + [c];
      assert init + [c] == cs;
    }
  }

  /** `normpath` is idempotent: a normalised path is its own normal form. */
  lemma NormpathIdempotent(p: string)
    ensures Normpath(Normpath(p)) == Normpath(p)
  {
    NormpathDot();
    if p != [] {
      var lead := LeadingSlashes(p);
      var cs := Fold(Split(p), lead != "");
      FoldIsNormal(Split(p), lead != "");
      if lead + JoinSlash(cs) != "" {
        NormalFixed(lead, cs);
      }
    }
  }

  /** Normal components after `normpath`'s leading slashes are already normalised. */
  lemma NormalFixed(lead: string, cs: seq<string>)
    requires lead == "" || lead == "/" || lead == "//"
    requires Normal(cs, lead != "") && lead + JoinSlash(cs) != ""
    ensures Normpath(lead + JoinSlash(cs)) == lead + JoinSlash(cs)
  {
    JoinSlashHead(cs);
    SplitJoin(cs);
    if lead == "" {
      assert lead + JoinSlash(cs) == JoinSlash(cs);
      FoldNormal(cs, false);
    } else if lead == "/" {
      RootFixed(cs);
    } else {
      DoubleRootFixed(cs);
    }
  }

  /** One slash and normal components are already normalised. */
  lemma RootFixed(cs: seq<string>)
    requires Normal(cs, true)
    ensures Normpath("/" + JoinSlash(cs)) == "/" + JoinSlash(cs)
  {
    if cs == [] {
      NormpathRoot();
    } else {
      NormpathUnderRoot(cs);
      FoldNormal(cs, true);
    }
  }

  /** `normpath('/')` is `'/'`. */
  lemma NormpathRoot()
    ensures Normpath("/" + JoinSlash([])) == "/"
  {
    assert "/" + JoinSlash([]) == "/" + "";
    SplitSlash("");
    assert Split("/") == [""] + [""];
    FoldEmptyFirst([""], true);
    assert Fold([""], true) == Push(Fold([], true), "", true);
  }

  /** Two slashes and normal components are already normalised. */
  lemma DoubleRootFixed(cs: seq<string>)
    requires Normal(cs, true)
    ensures Normpath("//" + JoinSlash(cs)) == "//" + JoinSlash(cs)
  {
    var j := JoinSlash(cs);
    JoinSlashHead(cs);
    var r := "//" + j;
    assert r == "/" + ("/" + j);
    assert LeadingSlashes(r) == "//";
    SplitJoin(cs);
    SplitSlash("/" + j);
    SplitSlash(j);
    assert Split(r) == [""] + ([""] + Parts(cs));
    RootedParts(cs);
    FoldEmptyFirst([""] + Parts(cs), true);
    FoldEmptyFirst(Parts(cs), true);
  }

  /** Under the root, the loop over the pieces of a join of normal components gives them back. */
  lemma RootedParts(cs: seq<string>)
    requires Normal(cs, true)
    ensures Fold(Parts(cs), true) == cs
  {
    if cs == [] {
      assert Fold([""], true) == Push(Fold([], true), "", true);
    } else {
      FoldNormal(cs, true);
    }
  }

  /** `normpath('.')` and `normpath('')` are both `'.'`. */
  lemma NormpathDot()
    ensures Normpath("") == "." && Normpath(".") == "."
  {
    assert Split(".") == ["."] by {
      assert "."[0] == '.' && "."[1..] == "";
      assert Split("") == [""];
      assert ['.'] + "" == ".";
    }
    assert Fold(["."], false) == Push(Fold([], false), ".", false);
  }

  /** `./logs` and `../logs` under `/home/u` are `/home/u/logs` and `/home/logs`. */
  lemma AbspathFoldsDots()
    ensures Abspath("/home/u", "./logs") == "/home/u/logs"
    ensures Abspath("/home/u", "../logs") == "/home/logs"
  {
    AbspathDot();
    AbspathDotDot();
  }

  lemma AbspathDot()
    ensures Abspath("/home/u", "./logs") == "/home/u/logs"
  {
    DotSpelling(".");
    assert "./logs" == "." + "/logs";
    LogsSpelling();
    NormpathUnderRoot(["home", "u", ".", "logs"]);
    FoldDots();
  }

  lemma AbspathDotDot()
    ensures Abspath("/home/u", "../logs") == "/home/logs"
  {
    DotSpelling("..");
    assert "../logs" == ".." + "/logs";
    LogsSpelling();
    NormpathUnderRoot(["home", "u", "..", "logs"]);
    FoldDots();
  }

  /** `/home/u` joined with `<d>/logs`, spelt as components. */
  lemma DotSpelling(d: string)
    requires d != [] && d[0] != '/'
    ensures Join("/home/u", d + "/logs") == "/" + JoinSlash(["home", "u", d, "logs"])
  {
    var cs := ["home", "u", d, "logs"];
    assert cs[1..] == ["u", d, "logs"] && cs[2..] == [d, "logs"] && cs[3..] == ["logs"];
    assert JoinSlash(cs[3..]) == "logs";
    assert JoinSlash(cs[2..]) == d + "/" + "logs";
    assert JoinSlash(cs[1..]) == "u" + "/" + (d + "/" + "logs");
    assert JoinSlash(cs) == "home" + "/" + ("u" + "/" + (d + "/" + "logs"));
    assert "/home/u" + "/" + (d + "/logs") == "/" + ("home" + "/" + ("u" + "/" + (d + "/" + "logs")));
  }

  /** `/home/u/logs` and `/home/logs`, spelt as components. */
  lemma LogsSpelling()
    ensures "/" + JoinSlash(["home", "u", "logs"]) == "/home/u/logs"
    ensures "/" + JoinSlash(["home", "logs"]) == "/home/logs"
  {
    assert ["home", "u", "logs"][1..] == ["u", "logs"] && ["u", "logs"][1..] == ["logs"];
    assert ["home", "logs"][1..] == ["logs"];
  }

  /** The loop over `home/u/./logs` and `home/u/../logs` under the root. */
  lemma FoldDots()
    ensures Fold(["home", "u", ".", "logs"], true) == ["home", "u", "logs"]
    ensures Fold(["home", "u", "..", "logs"], true) == ["home", "logs"]
  {
    var a := ["home", "u", ".", "logs"];
    var b := ["home", "u", "..", "logs"];
    assert a[..0] == [] && b[..0] == [];
    assert a[..1][..0] == [] && b[..1][..0] == [];
    assert Fold(a[..1], true) == ["home"];
    assert Fold(b[..1], true) == ["home"];
    assert a[..2][..1] == a[..1] && b[..2][..1] == b[..1];
    assert Fold(a[..2], true) == ["home", "u"];
    assert Fold(b[..2], true) == ["home", "u"];
    assert a[..3][..2] == a[..2] && b[..3][..2] == b[..2];
    assert Fold(a[..3], true) == ["home", "u"];
    assert Fold(b[..3], true) == ["home"];
    assert a[..3] == a[..|a| - 1] && b[..3] == b[..|b| - 1];
  }

  /** Under the root, `normpath` is the loop over the components, joined after one slash. */
  lemma NormpathUnderRoot(cs: seq<string>)
    requires cs != [] && cs[0] != "" && forall i :: 0 <= i < |cs| ==> '/' !in cs[i]
    ensures Normpath("/" + JoinSlash(cs)) == "/" + JoinSlash(Fold(cs, true))
  {
    var p := "/" + JoinSlash(cs);
    JoinSlashHead(cs);
    assert p[1] == cs[0][0] && cs[0][0] != '/' by { assert cs[0][0] in cs[0]; }
    assert LeadingSlashes(p) == "/";
    SplitJoin(cs);
    SplitSlash(JoinSlash(cs));
    FoldEmptyFirst(cs, true);
  }

  /** `os.path.abspath(p)` relative to the working directory `cwd`: joined, then normalised. */
  function Abspath(cwd: string, p: string): (r: string)
    ensures |p| > 0 && p[0] == '/' ==> r == Normpath(p)
    ensures r != ""
    ensures (|p| > 0 && p[0] == '/') || (|cwd| > 0 && cwd[0] == '/') ==> r[0] == '/'
  {
    Normpath(Join(cwd, p))
  }

  /** The index of the last `.` of a base name, if any. */
  function LastDot(b: string): (r: Option<nat>)
    ensures r.Some? ==> r.value < |b| && b[r.value] == '.'
    ensures r.Some? ==> forall k :: r.value < k < |b| ==> b[k] != '.'
    ensures r.None? ==> '.' !in b
  {
    if b == [] then None
    else if b[|b| - 1] == '.' then Some(|b| - 1)
    else LastDot(b[..|b| - 1])
  }

  /**
   * `os.path.splitext(b)[0]` of a base name: the extension starts at the
   * last dot, provided something other than dots comes before it.
   */
  function StripExtension(b: string): (r: string)
    ensures |r| <= |b| && r == b[..|r|]
  {
    match LastDot(b)
    case None => b
    case Some(d) => if exists k :: 0 <= k < d && b[k] != '.' then b[..d] else b
  }

  /** A script name `dir/name.py` gives back `name` when `name` has no dot. */
  lemma {:induction false} StripExtensionOfScript(dir: string, name: string, ext: string)
    requires name != [] && '/' !in name && '.' !in name && '/' !in ext && '.' !in ext
    ensures StripExtension(Basename(dir + "/" + name + "." + ext)) == name
  {
    var p := dir + "/" + name + "." + ext;
    var b := name + "." + ext;
    assert p == (dir + "/") + b;
    BasenameOfSuffix(dir + "/", b);
    assert Basename(p) == b;
    LastDotOf(name, ext);
    assert b[..|name|] == name;
    assert b[0] == name[0] && name[0] != '.';
  }

  /** The base name of a path ending in a slash-free part is that part. */
  lemma {:induction false} BasenameOfSuffix(d: string, b: string)
    requires d != [] && d[|d| - 1] == '/' && '/' !in b
    ensures Basename(d + b) == b
    decreases |b|
  {
    if b == [] {
      assert d + b == d;
    } else {
      var p := d + b;
      assert p[..|p| - 1] == d + b[..|b| - 1];
      BasenameOfSuffix(d, b[..|b| - 1]);
      assert AfterLastSlash(p) == AfterLastSlash(d + b[..|b| - 1]);
      assert AfterLastSlash(p) == |d|;
    }
  }

  lemma {:induction false} LastDotOf(name: string, ext: string)
    requires '.' !in ext
    ensures LastDot(name + "." + ext) == Some(|name|)
    decreases |ext|
  {
    var b := name + "." + ext;
    if ext == [] {
      assert b[|b| - 1] == '.';
    } else {
      assert b[..|b| - 1] == name + "." + ext[..|ext| - 1];
      assert b[|b| - 1] == ext[|ext| - 1];
      LastDotOf(name, ext[..|ext| - 1]);
    }
  }
}
