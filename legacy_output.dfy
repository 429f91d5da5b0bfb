/**
 * The output of the two older revisions (one module for both: their
 * `output.py` files are the same text).  An `Output` has a master status
 * and two sinks, a file and the console, each with its own `used` flag.
 * The file's path is a pattern formatter's result, made absolute; the
 * handle is opened lazily in append mode, and `close()` moves to a new
 * path stamped with the current time, leaving the old file as it is.
 */
module LegacyOutputs {
  import opened Python
  import Patterns
  import Outputs

  /**
   * The attributes of a `File`: `path` and `io` are absent (`None`,
   * `Unset`) until `_prepare` has run once.
   */
  datatype FileState = FileState(used: bool, path: Option<string>, io: Outputs.Handler, modified: Option<int>, size: Option<nat>)

  /** `_prepare()`: when used, the absolute formatted path, its directory created, and no handle, time or size. */
  function Prepared(f: FileState, fmt: Patterns.PatternState, d: Outputs.Disk, cwd: string)
    : (r: (FileState, Outputs.Disk, Option<Exception>))
    requires fmt.pattern.Some?
    ensures !f.used ==> r == (f, d, None)
    ensures r.2.Some? ==> r.0 == f && r.1 == d
    ensures f.used && r.2.None? ==> (r.0.used && r.0.path.Some? && r.0.io == Outputs.NoHandler
      && r.0.modified.None? && r.0.size.None?)
  {
    if !f.used then (f, d, None)
    else match Patterns.Rendered(fmt, map[])
      case Raise(e) => (f, d, Some(e))
      case Ok(p) =>
        var path := Abspath(cwd, p);
        (FileState(true, Some(path), Outputs.NoHandler, None, None), d.(dirs := d.dirs + {Dirname(path)}), None)
  }

  /**
   * `write(record)`: when used, the handle is opened in append mode if
   * none is held, the text appended and flushed; then the time and the
   * file's size are taken.
   */
  function Written(f: FileState, d: Outputs.Disk, s: string, now: int): (FileState, Outputs.Disk, Option<Exception>)
  {
    if !f.used then (f, d, None)
    else if f.io.Unset? then (f, d, Some(AttributeError("_IO")))
    else if f.path.None? then (f, d, Some(AttributeError("_path")))
    else
      var path := f.path.value;
      if f.io.NoHandler? && Dirname(path) !in d.dirs then (f, d, Some(FileNotFoundError(path)))
      else
        var text := Outputs.Contents(d, path) + s;
        (f.(io := Outputs.Opened, modified := Some(now), size := Some(Utf8Size(text))), d.(files := d.files[path := text]), None)
  }

  /** `close()`: the pattern's `tmstmp` form set to now, then `_prepare()`. */
  function Closed(f: FileState, fmt: Patterns.PatternState, d: Outputs.Disk, now: int, cwd: string)
    : (r: (FileState, Patterns.PatternState, Outputs.Disk, Option<Exception>))
    ensures r.3.Some? ==> r.0 == f
    ensures f.used && r.3.None? ==> (r.0.used && r.0.path.Some? && r.0.io == Outputs.NoHandler
      && r.0.modified.None? && r.0.size.None?)
  {
    var fmt1 := Patterns.SetAll(fmt, NoneV, map["tmstmp" := TimeV(now)]).0;
    var (f1, d1, err) := Prepared(f, fmt1, d, cwd);
    (f1, fmt1, d1, err)
  }

  /** The keywords `File(path, used=..., app=..., tmstmp=..., **kwargs)` or the formatter would receive twice. */
  predicate FileClash(kwargs: map<string, Value>)
  {
    "self" in kwargs || "path" in kwargs || "used" in kwargs || "pattern" in kwargs
  }

  /** `File(path, used, **kwargs)`: the formatter from the path pattern and the keywords, then `_prepare()`. */
  function FileCreated(path: Value, used: bool, kwargs: map<string, Value>, d: Outputs.Disk, cwd: string)
    : (r: Result<(FileState, Patterns.PatternState, Outputs.Disk)>)
    ensures r.Ok? ==> r.value.1.pattern.Some?
  {
    if FileClash(kwargs) then Raise(TypeError)
    else match Patterns.Created(path, kwargs)
      case Raise(e) => Raise(e)
      case Ok(fmt) =>
        var (f, d1, err) := Prepared(FileState(used, None, Outputs.Unset, None, None), fmt, d, cwd);
        if err.Some? then Raise(err.value) else Ok((f, fmt, d1))
  }

  datatype OutputState = OutputState(status: bool, file: FileState, console: Outputs.ConsoleState)

  /** `Output.write(record)`: when the status is on, the file first, then the console. */
  function OutputWritten(o: OutputState, d: Outputs.Disk, s: string, now: int): (OutputState, Outputs.Disk, Option<Exception>)
  {
    if !o.status then (o, d, None)
    else
      var (f, d1, err) := Written(o.file, d, s, now);
      if err.Some? then (o.(file := f), d1, err)
      else (o.(file := f, console := Outputs.ConsoleWrite(o.console, s)), d1, None)
  }

  /**
   * `Output(log, path, file, console, status, **kwargs)`: the file is
   * built with the logger's `app` and the current time as forms.
   */
  function OutputCreated(app: Value, path: Value, file: bool, console: bool, status: bool, kwargs: map<string, Value>,
                         d: Outputs.Disk, cwd: string, now: int): (r: Result<(OutputState, Patterns.PatternState, Outputs.Disk)>)
    ensures r.Ok? ==> r.value.1.pattern.Some?
  {
    if "app" in kwargs || "tmstmp" in kwargs then Raise(TypeError)
    else match FileCreated(path, file, kwargs["app" := app]["tmstmp" := TimeV(now)], d, cwd)
      case Raise(e) => Raise(e)
      case Ok((f, fmt, d1)) => Ok((OutputState(status, f, Outputs.ConsoleState(console, "")), fmt, d1))
  }

  // ---- the objects -----------------------------------------------------

  class File {
    var used: bool
    var path: Option<string>
    var io: Outputs.Handler
    var modified: Option<int>
    var size: Option<nat>
    const formatter: Patterns.Formatter
    const fs: Outputs.FileSystem
    /** The working directory `os.path.abspath` resolves against. */
    const cwd: string

    function Snap(): FileState
      reads this
    {
      FileState(used, path, io, modified, size)
    }

    /** The object before `_prepare` has run. */
    constructor Unprepared(used: bool, formatter: Patterns.Formatter, fs: Outputs.FileSystem, cwd: string)
      ensures Snap() == FileState(used, None, Outputs.Unset, None, None)
      ensures this.formatter == formatter && this.fs == fs && this.cwd == cwd
    {
      this.used, path, io, modified, size := used, None, Outputs.Unset, None, None;
      this.formatter, this.fs, this.cwd := formatter, fs, cwd;
    }

    /** `File(path, used, **kwargs)`: `null` and the exception when construction fails. */
    static method New(path: Value, used: bool, kwargs: map<string, Value>, fs: Outputs.FileSystem, cwd: string)
      returns (f: File?, err: Option<Exception>)
      modifies fs
      ensures err.None? <==> FileCreated(path, used, kwargs, old(fs.Snap()), cwd).Ok?
      ensures err.Some? ==> f == null && err.value == FileCreated(path, used, kwargs, old(fs.Snap()), cwd).exc
      ensures err.Some? ==> fs.Snap() == old(fs.Snap())
      ensures err.None? ==> (f != null && fresh(f) && fresh(f.formatter) && f.fs == fs && f.cwd == cwd
        && (f.Snap(), f.formatter.Snap(), fs.Snap()) == FileCreated(path, used, kwargs, old(fs.Snap()), cwd).value)
    {
      if FileClash(kwargs) {
        return null, Some(TypeError);
      }
      var fmt;
      fmt, err := Patterns.Formatter.New(path, kwargs);
      if err.Some? {
        return null, err;
      }
      var g := new File.Unprepared(used, fmt, fs, cwd);
      err := g.Prepare();
      if err.Some? {
        return null, err;
      }
      f := g;
    }

    method Enable()
      modifies this`used
      ensures used
    {
      used := true;
    }

    method Disable()
      modifies this`used
      ensures !used
    {
      used := false;
    }

    /** `_prepare()`. */
    method Prepare() returns (err: Option<Exception>)
      modifies this, fs
      ensures (Snap(), fs.Snap(), err) == Prepared(old(Snap()), formatter.Snap(), old(fs.Snap()), cwd)
    {
      err := None;
      if !used {
        return;
      }
      var p := formatter.Format(map[]);
      match p
      case Raise(e) =>
        err := Some(e);
      case Ok(q) =>
        var full := Abspath(cwd, q);
        path := Some(full);
        var d := fs.Snap();
        fs.Put(d.(dirs := d.dirs + {Dirname(full)}));
        io, modified, size := Outputs.NoHandler, None, None;
    }

    /** `write(record)`. */
    method Write(s: string, now: int) returns (err: Option<Exception>)
      modifies this, fs
      ensures (Snap(), fs.Snap(), err) == Written(old(Snap()), old(fs.Snap()), s, now)
    {
      err := None;
      if !used {
        return;
      }
      if io.Unset? {
        return Some(AttributeError("_IO"));
      }
      if path.None? {
        return Some(AttributeError("_path"));
      }
      var p := path.value;
      var d := fs.Snap();
      if io.NoHandler? {
        if Dirname(p) !in d.dirs {
          return Some(FileNotFoundError(p));
        }
        io := Outputs.Opened;
      }
      var text := Outputs.Contents(d, p) + s;
      fs.Put(d.(files := d.files[p := text]));
      modified, size := Some(now), Some(Utf8Size(text));
    }

    /** `close()`. */
    method Close(now: int) returns (err: Option<Exception>)
      modifies this, formatter, fs
      ensures (Snap(), formatter.Snap(), fs.Snap(), err) == Closed(old(Snap()), old(formatter.Snap()), old(fs.Snap()), now, cwd)
    {
      var e := formatter.Modify(NoneV, map["tmstmp" := TimeV(now)]);
      err := Prepare();
    }
  }

  class Console {
    var used: bool
    /** Everything printed to standard output so far. */
    var printed: string

    function Snap(): Outputs.ConsoleState
      reads this
    {
      Outputs.ConsoleState(used, printed)
    }

    constructor (used: bool)
      ensures Snap() == Outputs.ConsoleState(used, "")
    {
      this.used, printed := used, "";
    }

    method Enable()
      modifies this`used
      ensures used
    {
      used := true;
    }

    method Disable()
      modifies this`used
      ensures !used
    {
      used := false;
    }

    /** `write(record)`: `print(record, end='')` when used. */
    method Write(s: string)
      modifies this
      ensures Snap() == Outputs.ConsoleWrite(old(Snap()), s)
    {
      if used {
        printed := printed + s;
      }
    }
  }

  class Output {
    var status: bool
    const file: File
    const console: Console

    function Snap(): OutputState
      reads this, file, console
    {
      OutputState(status, file.Snap(), console.Snap())
    }

    constructor Of(status: bool, file: File, console: Console)
      ensures this.status == status && this.file == file && this.console == console
    {
      this.status, this.file, this.console := status, file, console;
    }

    /** `Output(log, path, file, console, status, **kwargs)` for a logger whose `app` is `app`. */
    static method New(app: Value, path: Value, file: bool, console: bool, status: bool, kwargs: map<string, Value>,
                      fs: Outputs.FileSystem, cwd: string, now: int) returns (o: Output?, err: Option<Exception>)
      modifies fs
      ensures err.None? <==> OutputCreated(app, path, file, console, status, kwargs, old(fs.Snap()), cwd, now).Ok?
      ensures err.Some? ==> (o == null && fs.Snap() == old(fs.Snap())
        && err.value == OutputCreated(app, path, file, console, status, kwargs, old(fs.Snap()), cwd, now).exc)
      ensures err.None? ==> (o != null && fresh(o) && fresh(o.file) && fresh(o.file.formatter) && fresh(o.console)
        && o.file.fs == fs && o.file.cwd == cwd
        && (o.Snap(), o.file.formatter.Snap(), fs.Snap())
           == OutputCreated(app, path, file, console, status, kwargs, old(fs.Snap()), cwd, now).value)
    {
      if "app" in kwargs || "tmstmp" in kwargs {
        return null, Some(TypeError);
      }
      var f;
      f, err := File.New(path, file, kwargs["app" := app]["tmstmp" := TimeV(now)], fs, cwd);
      if err.Some? {
        return null, err;
      }
      var c := new Console(console);
      o := new Output.Of(status, f, c);
    }

    method Activate()
      modifies this`status
      ensures status
    {
      status := true;
    }

    method Deactivate()
      modifies this`status
      ensures !status
    {
      status := false;
    }

    /** `write(record)`. */
    method Write(s: string, now: int) returns (err: Option<Exception>)
      modifies file, file.fs, console
      ensures (Snap(), file.fs.Snap(), err) == OutputWritten(old(Snap()), old(file.fs.Snap()), s, now)
    {
      err := None;
      if status {
        err := file.Write(s, now);
        if err.None? {
          console.Write(s);
        }
      }
    }
  }

  // ---- properties ------------------------------------------------------

  /** A sink that is not used ignores `write` and `_prepare`; an output whose status is off ignores `write`. */
  lemma UnusedIgnoresEverything(f: FileState, fmt: Patterns.PatternState, o: OutputState, c: Outputs.ConsoleState,
                                d: Outputs.Disk, s: string, now: int, cwd: string)
    requires fmt.pattern.Some?
    ensures !f.used ==> Written(f, d, s, now) == (f, d, None) && Prepared(f, fmt, d, cwd) == (f, d, None)
    ensures !c.status ==> Outputs.ConsoleWrite(c, s) == c
    ensures !o.status ==> OutputWritten(o, d, s, now) == (o, d, None)
  {
  }

  /** A write that goes through reaches the file first and then the console, with the same text. */
  lemma WriteFansOut(o: OutputState, d: Outputs.Disk, s: string, now: int)
    requires o.status
    ensures var (o', d', err) := OutputWritten(o, d, s, now);
      (o'.file, d', err) == Written(o.file, d, s, now)
      && o'.console == if err.None? then Outputs.ConsoleWrite(o.console, s) else o.console
  {
  }

  /** The console prints the text as it is, without a newline. */
  lemma ConsolePrintsVerbatim(c: Outputs.ConsoleState, s: string)
    requires c.status
    ensures Outputs.ConsoleWrite(c, s).printed == c.printed + s
  {
  }

  /**
   * `_prepare` on a used file: the path is the formatted pattern made
   * absolute, its directory exists, no file is touched, and handle, time
   * and size are reset.
   */
  lemma PrepareRule(f: FileState, fmt: Patterns.PatternState, d: Outputs.Disk, cwd: string)
    requires fmt.pattern.Some? && f.used && Patterns.Rendered(fmt, map[]).Ok?
    ensures var (f', d', err) := Prepared(f, fmt, d, cwd);
      var path := Abspath(cwd, Patterns.Rendered(fmt, map[]).value);
      err.None? && f' == FileState(true, Some(path), Outputs.NoHandler, None, None)
      && d'.files == d.files && Dirname(path) in d'.dirs && d.dirs <= d'.dirs
  {
  }

  /**
   * A write appends: the handle is opened if needed, the file's text grows
   * by exactly the text written, and the size (in UTF-8 bytes) and time follow.
   */
  lemma WriteAppends(f: FileState, d: Outputs.Disk, s: string, now: int)
    requires f.used && Written(f, d, s, now).2.None?
    ensures f.path.Some?
    ensures var (f', d', _) := Written(f, d, s, now);
      var p := f.path.value;
      f'.path == f.path && f'.io == Outputs.Opened && f'.modified == Some(now)
      && d'.files == d.files[p := Outputs.Contents(d, p) + s]
      && f'.size == Some(Utf8Size(Outputs.Contents(d', p)))
      && f'.size.value == Utf8Size(Outputs.Contents(d, p)) + Utf8Size(s) && d'.dirs == d.dirs
  {
    var c := Outputs.Contents(d, f.path.value);
    assert Written(f, d, s, now).0.size == Some(Utf8Size(c + s));
    Utf8SizeAppend(c, s);
  }

  /** Two writes in a row append both texts in order; the second needs no new handle. */
  lemma WritesAppendInOrder(f: FileState, d: Outputs.Disk, s1: string, s2: string, t1: int, t2: int)
    requires f.used && Written(f, d, s1, t1).2.None?
    ensures f.path.Some?
    ensures var (f1, d1, _) := Written(f, d, s1, t1);
      var (f2, d2, err) := Written(f1, d1, s2, t2);
      err.None? && Outputs.Contents(d2, f.path.value) == Outputs.Contents(d, f.path.value) + s1 + s2
  {
    var (f1, d1, _) := Written(f, d, s1, t1);
    assert f1.io == Outputs.Opened && f1.used && f1.path == f.path;
  }

  /**
   * `close()` on a used file moves to the path formatted with `tmstmp`
   * set to the closing time; every existing file keeps its text.
   */
  lemma CloseMovesOn(f: FileState, fmt: Patterns.PatternState, d: Outputs.Disk, now: int, cwd: string)
    requires fmt.pattern.Some? && f.used
    ensures var (f', fmt', d', err) := Closed(f, fmt, d, now, cwd);
      fmt'.pattern == fmt.pattern && "tmstmp" in fmt'.forms && fmt'.forms["tmstmp"] == TimeV(now)
      && d'.files == d.files
      && (err.None? ==> f'.path == Some(Abspath(cwd, Patterns.Rendered(fmt', map[]).value)) && f'.size.None? && f'.io.NoHandler?)
  {
    Patterns.ModifyWithoutPattern(fmt, map["tmstmp" := TimeV(now)]);
  }

  /** A file built with `used=False` is never prepared, so writing to it after `enable()` fails. */
  lemma EnabledUnpreparedFails(path: Value, kwargs: map<string, Value>, d: Outputs.Disk, cwd: string, s: string, now: int)
    requires FileCreated(path, false, kwargs, d, cwd).Ok?
    ensures var f := FileCreated(path, false, kwargs, d, cwd).value.0;
      f.io.Unset? && f.path.None? && Written(f.(used := true), d, s, now).2 == Some(AttributeError("_IO"))
  {
  }
}
