/**
 * The header: an ordered dictionary of named values rendered as a framed
 * block, with a flag recording whether it has been printed.  The newest
 * revision keeps callables that read the logger and the system description
 * when the block is created; the older ones keep plain values and can
 * refresh the local time.
 */
module Headers {
  import opened Python
  import opened OrderedDict
  import opened HeaderLayout
  import Clock

  /** Where a default entry of the newest revision takes its value from when the block is created. */
  datatype Source = App | Desc | Version | Sys(attr: string)

  /** A header entry: a stored value, or a callable evaluated on every `create()`. */
  datatype Item = Static(value: Value) | Live(source: Source)

  /** What the callables read: the logger's identity and the system description `sysinfo.desc`. */
  datatype Context = Context(app: Value, desc: Value, version: Value, sysinfo: map<string, Value>)

  function Eval(it: Item, ctx: Context): (r: Result<Value>)
    ensures it.Static? ==> r == Ok(it.value)
  {
    match it
    case Static(v) => Ok(v)
    case Live(App) => Ok(ctx.app)
    case Live(Desc) => Ok(ctx.desc)
    case Live(Version) => Ok(ctx.version)
    case Live(Sys(a)) => if a in ctx.sysinfo then Ok(ctx.sysinfo[a]) else Raise(AttributeError(a))
  }

  /** The entries as text, evaluated in dict order; the first failing callable raises. */
  function Texts(items: Dict<Item>, ctx: Context): (r: Result<seq<(string, string)>>)
    ensures r.Ok? ==> Keys(r.value) == Keys(items)
  {
    if items == [] then Ok([])
    else match Eval(items[0].1, ctx)
      case Raise(e) => Raise(e)
      case Ok(v) =>
        match Texts(items[1..], ctx)
        case Raise(e) => Raise(e)
        case Ok(rest) =>
          assert Keys([(items[0].0, Str(v))] + rest) == [items[0].0] + Keys(rest);
          Ok([(items[0].0, Str(v))] + rest)
  }

  /**
   * `create()`: the length computation and the first frame are checked
   * before any entry is evaluated.
   */
  function Created(items: Dict<Item>, length: Value, div: Value, offset: nat, ctx: Context): (r: Result<string>)
  {
    var d := Str(div);
    match LayoutError(Keys(items), length, d)
    case Some(e) => Raise(e)
    case None =>
      match Texts(items, ctx)
      case Raise(e) => Raise(e)
      case Ok(texts) => Ok(Render(d, Frames(texts, d, offset), AsInt(length) - 2))
  }

  /** `{k: v}` keyword arguments stored as header entries. */
  function Statics(kwargs: Dict<Value>): (r: Dict<Item>)
    ensures Keys(r) == Keys(kwargs)
  {
    if kwargs == [] then []
    else
      var rest := Statics(kwargs[1..]);
      assert Keys([(kwargs[0].0, Static(kwargs[0].1))] + rest) == [kwargs[0].0] + Keys(rest);
      [(kwargs[0].0, Static(kwargs[0].1))] + rest
  }

  /** `include(pos, **kwargs)` / `add(pos, **kwargs)`. */
  function Included(items: Dict<Item>, pos: string, kwargs: Dict<Value>): Dict<Item>
  {
    if pos == "start" then Merge(Statics(kwargs), items)
    else if pos == "end" then Merge(items, Statics(kwargs))
    else items
  }

  /** `for arg in args: del items[arg]`: the entries left, and the `KeyError` that stopped the loop. */
  function Excluded(items: Dict<Item>, args: seq<string>): (Dict<Item>, Option<Exception>)
    decreases |args|
  {
    if args == [] then (items, None)
    else match Remove(items, args[0])
      case None => (items, Some(KeyError(args[0])))
      case Some(rest) => Excluded(rest, args[1..])
  }

  /** `refresh()`: a present `loctime` that is not `None` takes the new value. */
  function Refreshed(items: Dict<Item>, loctime: Value): Dict<Item>
  {
    match Get(items, "loctime")
    case Some(it) => if it != Static(NoneV) then Set(items, "loctime", Static(loctime)) else items
    case None => items
  }

  /** The default entries of the newest revision, in their order. */
  const DefaultItems: Dict<Item> := [
    ("application", Live(App)), ("description", Live(Desc)), ("version", Live(Version)),
    ("hostname", Live(Sys("hostname"))), ("ip", Live(Sys("ip"))), ("user", Live(Sys("user"))),
    ("pid", Live(Sys("pid"))), ("system", Live(Sys("system"))), ("python", Live(Sys("python"))),
    ("compiler", Live(Sys("compiler"))), ("interpreter", Live(Sys("interpreter"))),
    ("script", Live(Sys("script"))), ("pip", Live(Sys("pip"))), ("locdate", Live(Sys("locdate")))]

  /** The keys the intermediate revision copies from `sysinfo.stat`, in their order. */
  const StatKeys: seq<string> := ["app", "desc", "version", "hostname", "ip", "user", "pid",
    "system", "python", "pyexe", "script", "compiler", "pip", "loctime"]

  /** The intermediate revision's entries: `sysinfo.stat[k]` for each key; a missing one is a `KeyError`. */
  function StatItems(keys: seq<string>, stat: map<string, Value>): (r: Result<Dict<Item>>)
    ensures r.Ok? ==> Keys(r.value) == keys
    ensures r.Raise? ==> exists i :: 0 <= i < |keys| && keys[i] !in stat && r.exc == KeyError(keys[i])
  {
    if keys == [] then Ok([])
    else if keys[0] !in stat then Raise(KeyError(keys[0]))
    else match StatItems(keys[1..], stat)
      case Raise(e) => Raise(e)
      case Ok(rest) =>
        assert Keys([(keys[0], Static(stat[keys[0]]))] + rest) == [keys[0]] + Keys(rest);
        Ok([(keys[0], Static(stat[keys[0]]))] + rest)
  }

  /** What the oldest revision asks the platform for when its header is built. */
  datatype Platform = Platform(hostname: Value, ip: Value, user: Value, system: Value,
    python: Value, exec: Value, compiler: Value, pip: Value)

  /** The oldest revision's entry names, in their order. */
  const PlatformKeys: seq<string> := ["app", "desc", "version", "hostname", "ip", "user", "system", "python",
    "exec", "compiler", "pip", "loctime"]

  /** Constant entries named by `keys`, in their order. */
  function Constants(keys: seq<string>, values: seq<Value>): (r: Dict<Item>)
    requires |keys| == |values|
    ensures Keys(r) == keys
    ensures forall i :: 0 <= i < |r| ==> r[i] == (keys[i], Static(values[i]))
  {
    if keys == [] then []
    else
      var rest := Constants(keys[1..], values[1..]);
      assert Keys([(keys[0], Static(values[0]))] + rest) == [keys[0]] + Keys(rest);
      [(keys[0], Static(values[0]))] + rest
  }

  /** The oldest revision's entries, with the local time of construction. */
  function PlatformItems(app: Value, desc: Value, version: Value, p: Platform, now: int): (r: Dict<Item>)
    ensures Keys(r) == PlatformKeys && Unique(r)
    ensures r[11] == ("loctime", Static(StrV(Clock.IsoFormat(now))))
  {
    var values := [app, desc, version, p.hostname, p.ip, p.user, p.system, p.python, p.exec, p.compiler, p.pip,
      StrV(Clock.IsoFormat(now))];
    var r := Constants(PlatformKeys, values);
    PlatformKeysDistinct();
    assert r[11] == (PlatformKeys[11], Static(values[11]));
    r
  }

  /** No two of the oldest revision's entry names are equal. */
  lemma PlatformKeysDistinct()
    ensures forall i, j :: 0 <= i < j < |PlatformKeys| ==> PlatformKeys[i] != PlatformKeys[j]
  {
    var k := PlatformKeys;
    forall i, j | 0 <= i < j < |k|
      ensures k[i] != k[j]
    {
      assert |k[i]| != |k[j]| || k[i][0] != k[j][0] || k[i][1] != k[j][1] || k[i][|k[i]| - 1] != k[j][|k[j]| - 1];
    }
  }

  class Header {
    var items: Dict<Item>
    var used: bool
    var length: Value
    var div: Value
    /** Spaces added to the longest name: 2 in the newest revision, 3 in the older ones. */
    const offset: nat

    predicate Valid()
      reads this
    {
      Unique(items)
    }

    /** `Header(logger)` of the newest revision: length and divider copied from the formatter. */
    constructor Default(length: Value, div: Value)
      ensures Valid() && items == DefaultItems && !used && offset == 2
      ensures this.length == length && this.div == div
    {
      items, used, this.length, this.div, offset := DefaultItems, false, length, div, 2;
    }

    /** `Header(logger)` of an older revision over the entries it collected. */
    constructor Legacy(data: Dict<Item>, length: Value, div: Value)
      requires Unique(data)
      ensures Valid() && items == data && !used && offset == 3
      ensures this.length == length && this.div == div
    {
      items, used, this.length, this.div, offset := data, false, length, div, 3;
    }

    /** `create()`: marks the header used, then renders it. */
    method Create(ctx: Context) returns (r: Result<string>)
      modifies this
      ensures used
      ensures items == old(items) && length == old(length) && div == old(div)
      ensures r == Created(items, length, div, offset, ctx)
    {
      used := true;
      r := Created(items, length, div, offset, ctx);
    }

    method Include(pos: string, kwargs: Dict<Value>)
      requires Valid() && Unique(kwargs)
      modifies this
      ensures Valid()
      ensures items == Included(old(items), pos, kwargs)
      ensures used == old(used) && length == old(length) && div == old(div)
    {
      IncludedUnique(items, pos, kwargs);
      if pos == "start" {
        items := Merge(Statics(kwargs), items);
      } else if pos == "end" {
        items := Merge(items, Statics(kwargs));
      }
    }

    /** `exclude(*args)` / `delete(*args)`: deletions before a missing name stay done. */
    method Exclude(args: seq<string>) returns (err: Option<Exception>)
      requires Valid()
      modifies this
      ensures Valid()
      ensures (items, err) == Excluded(old(items), args)
      ensures used == old(used) && length == old(length) && div == old(div)
    {
      var i := 0;
      while i < |args|
        invariant 0 <= i <= |args|
        invariant Valid()
        invariant Excluded(old(items), args) == Excluded(items, args[i..])
        invariant used == old(used) && length == old(length) && div == old(div)
      {
        assert args[i..][0] == args[i] && args[i..][1..] == args[i + 1..];
        match Remove(items, args[i])
        case None =>
          return Some(KeyError(args[i]));
        case Some(rest) =>
          RemoveUnique(items, args[i]);
          items := rest;
        i := i + 1;
      }
      assert args[i..] == [];
      err := None;
    }

    /** `refresh()` of the older revisions, with the new local time. */
    method Refresh(loctime: Value)
      requires Valid()
      modifies this
      ensures Valid()
      ensures items == Refreshed(old(items), loctime)
      ensures used == old(used) && length == old(length) && div == old(div)
    {
      SetUnique(items, "loctime", Static(loctime));
      match Get(items, "loctime")
      case Some(it) =>
        if it != Static(NoneV) {
          items := Set(items, "loctime", Static(loctime));
        }
      case None =>
    }
  }

  // ---- properties ------------------------------------------------------

  lemma {:induction false} StaticsUnique(kwargs: Dict<Value>)
    requires Unique(kwargs)
    ensures Unique(Statics(kwargs))
  {
    var r := Statics(kwargs);
    forall i, j | 0 <= i < j < |r|
      ensures r[i].0 != r[j].0
    {
      assert Keys(r)[i] == r[i].0 && Keys(r)[j] == r[j].0;
      assert Keys(kwargs)[i] == kwargs[i].0 && Keys(kwargs)[j] == kwargs[j].0;
    }
  }

  lemma {:induction false} GetStatics(kwargs: Dict<Value>, k: string)
    ensures Get(Statics(kwargs), k) == match Get(kwargs, k) case None => None case Some(v) => Some(Static(v))
    decreases |kwargs|
  {
    if kwargs != [] && kwargs[0].0 != k {
      GetStatics(kwargs[1..], k);
    }
  }

  lemma IncludedUnique(items: Dict<Item>, pos: string, kwargs: Dict<Value>)
    requires Unique(items) && Unique(kwargs)
    ensures Unique(Included(items, pos, kwargs))
  {
    StaticsUnique(kwargs);
    MergeUnique(Statics(kwargs), items);
    MergeUnique(items, Statics(kwargs));
  }

  /**
   * `include(pos='end')` appends new names after the existing ones and
   * gives an existing name the new value in place.
   */
  lemma IncludeEnd(items: Dict<Item>, kwargs: Dict<Value>, k: string)
    requires Unique(kwargs)
    ensures Get(Included(items, "end", kwargs), k)
      == if HasKey(kwargs, k) then Some(Static(Get(kwargs, k).value)) else Get(items, k)
    ensures |Included(items, "end", kwargs)| >= |items|
    ensures Keys(Included(items, "end", kwargs))[..|items|] == Keys(items)
  {
    assert Included(items, "end", kwargs) == Merge(items, Statics(kwargs));
    StaticsUnique(kwargs);
    GetMerge(items, Statics(kwargs), k);
    GetStatics(kwargs, k);
    MergeKeepsOrder(items, Statics(kwargs));
  }

  /**
   * `include(pos='start')` puts the given names first, but a name already
   * present keeps its old value.
   */
  lemma IncludeStart(items: Dict<Item>, kwargs: Dict<Value>, k: string)
    requires Unique(items)
    ensures Get(Included(items, "start", kwargs), k)
      == if HasKey(items, k) then Get(items, k)
         else if HasKey(kwargs, k) then Some(Static(Get(kwargs, k).value)) else None
    ensures |Included(items, "start", kwargs)| >= |kwargs|
    ensures Keys(Included(items, "start", kwargs))[..|kwargs|] == Keys(kwargs)
  {
    assert Included(items, "start", kwargs) == Merge(Statics(kwargs), items);
    GetMerge(Statics(kwargs), items, k);
    GetStatics(kwargs, k);
    MergeKeepsOrder(Statics(kwargs), items);
  }

  /** Any other `pos` changes nothing. */
  lemma IncludeElsewhere(items: Dict<Item>, pos: string, kwargs: Dict<Value>)
    requires pos != "start" && pos != "end"
    ensures Included(items, pos, kwargs) == items
  {
  }

  /**
   * `exclude` removes every name it is given and keeps every other entry;
   * it raises exactly when some name is missing by the time it is reached,
   * and then the `KeyError` names it.
   */
  lemma {:induction false} ExcludeRemoves(items: Dict<Item>, args: seq<string>, k: string)
    requires Unique(items)
    ensures var (rest, err) := Excluded(items, args);
      (err.None? ==> (k in args ==> !HasKey(rest, k)) && (k !in args ==> Get(rest, k) == Get(items, k)))
      && (err.Some? ==> exists i :: 0 <= i < |args| && err.value == KeyError(args[i]))
    decreases |args|
  {
    if args != [] {
      match Remove(items, args[0])
      case None =>
      case Some(r) =>
        RemoveUnique(items, args[0]);
        ExcludeRemoves(r, args[1..], k);
        GetRemove(items, args[0], k);
        var (rest, err) := Excluded(r, args[1..]);
        if err.None? && k == args[0] && k !in args[1..] {
          ExcludeKeepsAbsent(r, args[1..], k);
        }
        if err.Some? {
          var i :| 0 <= i < |args[1..]| && err.value == KeyError(args[1..][i]);
          assert args[i + 1] == args[1..][i];
        }
    }
  }

  /** Deleting other names never brings a name back. */
  lemma {:induction false} ExcludeKeepsAbsent(items: Dict<Item>, args: seq<string>, k: string)
    requires Unique(items) && !HasKey(items, k)
    ensures !HasKey(Excluded(items, args).0, k)
    decreases |args|
  {
    if args != [] {
      match Remove(items, args[0])
      case None =>
      case Some(r) =>
        RemoveUnique(items, args[0]);
        GetRemove(items, args[0], k);
        ExcludeKeepsAbsent(r, args[1..], k);
    }
  }

  /** `refresh` touches `loctime` only, and only when it is present and not `None`. */
  lemma RefreshOnlyLoctime(items: Dict<Item>, loctime: Value, k: string)
    ensures Keys(Refreshed(items, loctime)) == Keys(items)
    ensures k != "loctime" ==> Get(Refreshed(items, loctime), k) == Get(items, k)
    ensures Get(Refreshed(items, loctime), "loctime")
      == if Get(items, "loctime").Some? && Get(items, "loctime") != Some(Static(NoneV))
         then Some(Static(loctime)) else Get(items, "loctime")
  {
    GetSet(items, "loctime", Static(loctime), k);
    GetSet(items, "loctime", Static(loctime), "loctime");
  }

  /**
   * A header that renders is the framed block of its entries' texts in
   * dict order, `len(items) + 4` lines long.
   */
  lemma CreatedIsBlock(items: Dict<Item>, length: Value, div: Value, offset: nat, ctx: Context)
    requires Texts(items, ctx).Ok?
    ensures Created(items, length, div, offset, ctx) == Block(Texts(items, ctx).value, length, Str(div), offset)
    ensures |Frames(Texts(items, ctx).value, Str(div), offset)| == |items| + 4
  {
    BlockShape(Texts(items, ctx).value, Str(div), offset);
  }

  /** A header whose entries were all excluded cannot be created. */
  lemma CreateEmptyFails(length: Value, div: Value, offset: nat, ctx: Context)
    ensures Created([], length, div, offset, ctx).Raise?
  {
  }

  /** A callable entry reads the context at creation: the same entries render anew when it changes. */
  lemma LiveEntriesFollowContext(ctx: Context)
    ensures Texts([("application", Live(App))], ctx) == Ok([("application", Str(ctx.app))])
  {
    var items := [("application", Live(App))];
    assert items[1..] == [];
    assert Texts(items[1..], ctx) == Ok([]);
    assert [("application", Str(ctx.app))] + [] == [("application", Str(ctx.app))];
  }

  /** The newest revision starts with its fourteen entries, all distinct. */
  lemma DefaultItemsShape()
    ensures |DefaultItems| == 14 && Unique(DefaultItems)
    ensures Keys(DefaultItems)[0] == "application" && Keys(DefaultItems)[13] == "locdate"
  {
  }

  /** Evaluating the entries fails only on a missing system attribute. */
  lemma {:induction false} TextsRaiseAttribute(items: Dict<Item>, ctx: Context)
    ensures Texts(items, ctx).Raise? ==> Texts(items, ctx).exc.AttributeError?
    decreases |items|
  {
    if items != [] && Eval(items[0].1, ctx).Ok? {
      TextsRaiseAttribute(items[1..], ctx);
    }
  }

  /**
   * Creating a header fails with a `TypeError` or `ValueError` from the
   * layout, or with the `AttributeError` of an entry; nothing else.
   */
  lemma CreatedErrors(items: Dict<Item>, length: Value, div: Value, offset: nat, ctx: Context)
    ensures var r := Created(items, length, div, offset, ctx);
      r.Raise? ==> r.exc == TypeError || r.exc == ValueError || r.exc.AttributeError?
  {
    TextsRaiseAttribute(items, ctx);
  }

  /** Each copied entry is the system description's value under its key. */
  lemma {:induction false} StatItemsAt(keys: seq<string>, stat: map<string, Value>, i: int)
    requires 0 <= i < |keys|
    ensures StatItems(keys, stat).Ok? ==> keys[i] in stat && StatItems(keys, stat).value[i] == (keys[i], Static(stat[keys[i]]))
    decreases i
  {
    if i > 0 && keys[0] in stat {
      StatItemsAt(keys[1..], stat, i - 1);
      assert keys[1..][i - 1] == keys[i];
    }
  }

  /** Copying succeeds exactly when the system description has every key. */
  lemma StatItemsOk(keys: seq<string>, stat: map<string, Value>)
    ensures StatItems(keys, stat).Ok? <==> forall k :: k in keys ==> k in stat
  {
    if StatItems(keys, stat).Ok? {
      forall k | k in keys
        ensures k in stat
      {
        var i :| 0 <= i < |keys| && keys[i] == k;
        StatItemsAt(keys, stat, i);
      }
    }
  }
}
