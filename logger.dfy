/**
 * The logger of the newest revision: the dispatcher that filters records by
 * type, counts errors, turns an exception's traceback into records, stops
 * the program on serious errors, sends alarms, and rotates the log file
 * before every write.
 *
 * Its state is split by who changes it.  `Config` is what `configure`
 * changes and every other call only reads; `Io` is what a write can change
 * (the start and restart dates, the sinks that receive text and whether the
 * header has been created); the error counter, the error flag and the email
 * sink are changed only by `error` and `_exit`.  `Env` holds what no
 * modelled call changes.
 *
 * One call reads the clock once: every `datetime.now()` inside it is `now`.
 */
module Loggers {
  import opened Python
  import opened OrderedDict
  import Clock
  import Formatters
  import Records
  import Headers
  import Outputs

  // ---- state -------------------------------------------------------------

  /**
   * The limits and switches of the logger.  Each is stored only when
   * `configure` receives a value of the accepted type; before that the
   * attribute does not exist, which is `NoneV` here.
   */
  datatype Limits = Limits(maxsize: Value, maxdays: Value, maxlevel: Value, maxerrors: Value,
                           alarming: Value, control: Value)

  datatype Config = Config(app: Value, desc: Value, version: Value, filters: map<string, bool>,
                           limits: Limits, fmt: Formatters.Settings)

  datatype Io = Io(start: int, restartDate: Option<int>, root: Outputs.RootState, headerUsed: bool)

  datatype State = State(cfg: Config, io: Io, withError: bool, count: nat, email: Outputs.EmailState,
                         htmlOpen: bool, tableOpen: bool)

  datatype Env = Env(rectypes: map<string, Value>, items: Dict<Headers.Item>, length: Value, div: Value,
                     offset: nat, sysinfo: map<string, Value>)

  const DefaultRectypes: map<string, Value> := map[
    "none" := StrV("NONE"), "info" := StrV("INFO"), "debug" := StrV("DEBUG"),
    "warning" := StrV("WARNING"), "error" := StrV("ERROR"), "critical" := StrV("CRITICAL")]

  /** The header's view of the logger. */
  function HeaderText(env: Env, cfg: Config): Result<string>
  {
    Headers.Created(env.items, env.length, env.div, env.offset, Headers.Context(cfg.app, cfg.desc, cfg.version, env.sysinfo))
  }

  // ---- rotation --------------------------------------------------------

  /** The size branch of the check: a known size above a `maxsize` other than `False`. */
  predicate SizeDue(cfg: Config, io: Io)
  {
    var m := cfg.limits.maxsize;
    IsInt(m) && m != BoolV(false) && io.root.file.size.Some? && io.root.file.size.value > AsInt(m)
  }

  /**
   * The size branch reads the file's `_size`, which only `new()` creates:
   * with `maxsize` other than `False`, a file whose `new()` never ran
   * raises there, before the day branch.
   */
  predicate SizeMissing(cfg: Config, io: Io)
  {
    cfg.limits.maxsize != BoolV(false) && io.root.file.handler.Unset?
  }

  /** The day branch: `maxdays` other than `False` and the restart date's day of the month is today's. */
  predicate DayDue(cfg: Config, io: Io, now: int)
  {
    var m := cfg.limits.maxdays;
    IsInt(m) && m != BoolV(false) && io.restartDate.Some?
    && Clock.DayOfMonth(io.restartDate.value) == Clock.DayOfMonth(now)
  }

  /** The check restarts the logger: the file is open, `maxsize` exists, and one branch fires. */
  predicate Due(cfg: Config, io: Io, now: int)
  {
    io.root.file.status && IsInt(cfg.limits.maxsize) && !SizeMissing(cfg, io) && (SizeDue(cfg, io) || DayDue(cfg, io, now))
  }

  function Rank(cfg: Config, io: Io, now: int): nat
  {
    if Due(cfg, io, now) then 1 else 0
  }

  /** `__check_file_stats()`: size first, then the day; either restarts and stops the check. */
  function CheckSpec(env: Env, cfg: Config, io: Io, now: int): (Io, Option<Exception>)
    decreases Rank(cfg, io, now), 2
  {
    var l := cfg.limits;
    if !io.root.file.status then (io, None)
    else if !IsInt(l.maxsize) then (io, Some(AttributeError("_maxsize")))
    else if SizeMissing(cfg, io) then (io, Some(AttributeError("_size")))
    else if SizeDue(cfg, io) then RestartSpec(env, cfg, io, now)
    else if !IsInt(l.maxdays) then (io, Some(AttributeError("_maxdays")))
    else if l.maxdays == BoolV(false) then (io, None)
    else if io.restartDate.None? then (io, Some(AttributeError("_Logger__restart_date")))
    else if Clock.DayOfMonth(io.restartDate.value) == Clock.DayOfMonth(now) then RestartSpec(env, cfg, io, now)
    else (io, None)
  }

  /**
   * `restart()`: a new start date, the restart date `maxdays` days later,
   * a new file path if the file is open, and the header again if it was
   * created before.  When the new state is due again at once (the restart
   * date falls on today's day of the month), `restart`, `head`, `write`
   * and the check call each other on the same state until the interpreter
   * gives up: the result is `RecursionError`, unless creating the header
   * fails first.
   */
  function RestartSpec(env: Env, cfg: Config, io: Io, now: int): (Io, Option<Exception>)
    decreases 1, 1
  {
    if !IsInt(cfg.limits.maxdays) then (io.(start := now), Some(AttributeError("_maxdays")))
    else
      var (io3, err) := Rotated(cfg, io, now);
      if err.Some? then (io3, err)
      else if !io3.headerUsed then (io3, None)
      else if Due(cfg, io3, now) then
        (io3, Some(if HeaderText(env, cfg).Raise? then HeaderText(env, cfg).exc else RecursionError))
      else HeadSpec(env, cfg, io3, now)
  }

  /** The part of `restart()` before the header: new start and restart dates, and a new path if the file is open. */
  function Rotated(cfg: Config, io: Io, now: int): (Io, Option<Exception>)
    requires IsInt(cfg.limits.maxdays)
  {
    var (f, err) := Outputs.FileNew(io.root.file, now);
    (io.(start := now, restartDate := Some(Clock.AddDays(now, AsInt(cfg.limits.maxdays))), root := io.root.(file := f)), err)
  }

  /** `head()`: create the header (marking it used) and write it. */
  function HeadSpec(env: Env, cfg: Config, io: Io, now: int): (Io, Option<Exception>)
    decreases Rank(cfg, io, now), 4
  {
    var io1 := io.(headerUsed := true);
    assert Rank(cfg, io1, now) == Rank(cfg, io, now);
    match HeaderText(env, cfg)
    case Raise(e) => (io1, Some(e))
    case Ok(text) => WriteSpec(env, cfg, io1, Outputs.Text(text), now)
  }

  /** `write(record)`: the check, then the root. */
  function WriteSpec(env: Env, cfg: Config, io: Io, e: Outputs.Entry, now: int): (Io, Option<Exception>)
    decreases Rank(cfg, io, now), 3
  {
    var (io1, err) := CheckSpec(env, cfg, io, now);
    if err.Some? then (io1, err)
    else
      var (r, err2) := Outputs.RootWrite(io1.root, e, now);
      (io1.(root := r), err2)
  }

  // ---- records -----------------------------------------------------------

  /** Keywords that would give a parameter of `record(self, rectype, message, error, **kwargs)` a second value. */
  predicate RecordClash(kwargs: map<string, Value>)
  {
    "self" in kwargs || "rectype" in kwargs || "message" in kwargs || "error" in kwargs
  }

  /** `filters.get(rectype, True) is True`. */
  predicate Passes(filters: map<string, bool>, rectype: string)
  {
    rectype !in filters || filters[rectype]
  }

  /** `record(rectype, message, error=error, **kwargs)`. */
  function RecordSpec(env: Env, cfg: Config, io: Io, rectype: string, message: Value, error: Value,
                      kwargs: map<string, Value>, now: int, site: Records.CallSite): (Io, Option<Exception>)
  {
    if RecordClash(kwargs) then (io, Some(TypeError))
    else if !Passes(cfg.filters, rectype) then (io, None)
    else match Records.Construct(env.rectypes, cfg.fmt, rectype, message, error, kwargs, now, site)
      case Raise(x) => (io, Some(x))
      case Ok(r) => WriteSpec(env, cfg, io, Outputs.RecordEntry(r), now)
  }

  // ---- errors ------------------------------------------------------------

  /** One frame of a traceback: the code's file, the line, the function. */
  datatype TraceFrame = TraceFrame(file: string, line: int, obj: string)

  /** `sys.exc_info()`: nothing, or the active exception with its frames and their formatted text. */
  datatype ExcInfo = NoException | Active(name: string, value: Value, frames: seq<TraceFrame>, trace: string)

  /** One `self.record(rectype, message, error=..., **kwargs)` call made by `error`. */
  datatype Call = Call(message: Value, error: Value, kwargs: map<string, Value>)

  const FrameKeys: set<string> := {"err_name", "err_value", "err_file", "err_line", "err_obj"}

  /** The keywords describing one frame; the file is made absolute against the working directory. */
  function FrameFields(name: string, value: Value, f: TraceFrame, cwd: string): (m: map<string, Value>)
    ensures m.Keys == FrameKeys
  {
    map["err_name" := StrV(name), "err_value" := value, "err_file" := StrV(Abspath(cwd, f.file)),
        "err_line" := IntV(f.line), "err_obj" := StrV(f.obj)]
  }

  /** One `record(rectype, message, error=True, err_...=..., **kwargs)` call per frame, in traceback order. */
  function FrameCalls(name: string, value: Value, message: Value, frames: seq<TraceFrame>, kwargs: map<string, Value>,
                      cwd: string): (r: seq<Call>)
    ensures |r| == |frames|
  {
    if frames == [] then []
    else
      [Call(message, BoolV(true), FrameFields(name, value, frames[0], cwd) + kwargs)]
      + FrameCalls(name, value, message, frames[1..], kwargs, cwd)
  }

  /**
   * The record calls `error` makes: one per traceback frame for a string
   * layout when no message is given and an exception is active; one with
   * the formatted trace for layout `False`; none for any other layout;
   * otherwise one with `message or ''`.  A keyword that collides with the
   * frame's own keywords is a `TypeError` at the first frame.
   */
  function ErrorCalls(message: Value, layout: Value, kwargs: map<string, Value>, exc: ExcInfo, cwd: string)
    : Result<seq<Call>>
  {
    var error := if "error" in kwargs then kwargs["error"] else BoolV(false);
    var rest := kwargs - {"error"};
    if message == NoneV && exc.Active? then
      if layout.StrV? then
        if exc.frames != [] && ("error" in kwargs || kwargs.Keys * FrameKeys != {}) then Raise(TypeError)
        else Ok(FrameCalls(exc.name, exc.value, NoneV, exc.frames, kwargs, cwd))
      else if layout == BoolV(false) then Ok([Call(StrV("\n" + exc.trace), error, rest)])
      else Ok([])
    else Ok([Call(Or(message, StrV("")), error, rest)])
  }

  /** The calls one after another; the first exception stops the rest. */
  function RunCalls(env: Env, cfg: Config, io: Io, rectype: string, calls: seq<Call>, now: int, site: Records.CallSite)
    : (Io, Option<Exception>)
    decreases |calls|
  {
    if calls == [] then (io, None)
    else
      var (io1, err) := RecordSpec(env, cfg, io, rectype, calls[0].message, calls[0].error, calls[0].kwargs, now, site);
      if err.Some? then (io1, err) else RunCalls(env, cfg, io1, rectype, calls[1..], now, site)
  }

  /** A single call is the record it makes. */
  lemma RunOne(env: Env, cfg: Config, io: Io, rectype: string, c: Call, now: int, site: Records.CallSite)
    ensures RunCalls(env, cfg, io, rectype, [c], now, site)
      == RecordSpec(env, cfg, io, rectype, c.message, c.error, c.kwargs, now, site)
  {
    assert [c][1..] == [];
  }

  /** The records `error` writes, or the exception that stops them. */
  function ErrorRecordsSpec(env: Env, cfg: Config, io: Io, message: Value, rectype: string, layout: Value,
                            kwargs: map<string, Value>, exc: ExcInfo, cwd: string, now: int, site: Records.CallSite)
    : (Io, Option<Exception>)
  {
    match ErrorCalls(message, layout, kwargs, exc, cwd)
    case Raise(x) => (io, Some(x))
    case Ok(calls) => RunCalls(env, cfg, io, rectype, calls, now, site)
  }

  /** The control policy: `Ok(true)` when the call must exit. */
  function Control(l: Limits, level: int, count: nat): Result<bool>
  {
    if l.control == NoneV then Raise(AttributeError("_control"))
    else if l.control != BoolV(true) then Ok(false)
    else if !IsInt(l.maxlevel) then Raise(AttributeError("_maxlevel"))
    else if level >= AsInt(l.maxlevel) then Ok(true)
    else if !IsInt(l.maxerrors) then Raise(AttributeError("_maxerrors"))
    else if l.maxerrors == BoolV(false) then Ok(false)
    else Ok(count > AsInt(l.maxerrors))
  }

  /** The file's path as the alarm sees it: missing before the first `new()`. */
  function FilePath(io: Io): Option<string>
  {
    if io.root.file.handler.Unset? then None else Some(io.root.file.path)
  }

  /** `root.email.alarm()`. */
  function AlarmSpec(env: Env, s: State): (State, Option<Exception>)
  {
    var (e, created, err) := Outputs.EmailAlarm(s.email, s.cfg.app, HeaderText(env, s.cfg), s.io.root.file.status, FilePath(s.io));
    (s.(email := e, io := s.io.(headerUsed := s.io.headerUsed || created)), err)
  }

  /** Keywords that would give a parameter of `error(self, message, rectype, format, alarming, level, **kwargs)` a second value. */
  predicate ErrorClash(kwargs: map<string, Value>)
  {
    "self" in kwargs || "message" in kwargs || "rectype" in kwargs || "format" in kwargs
    || "alarming" in kwargs || "level" in kwargs
  }

  /** The end of `error`: the control policy, then the alarm if asked for and the call did not exit. */
  function ConcludeSpec(env: Env, s: State, alarming: Value, level: int): (State, Option<Exception>)
  {
    match Control(s.cfg.limits, level, s.count)
    case Raise(x) => (s, Some(x))
    case Ok(abort) =>
      if abort then (s, Some(SystemExit))
      else if alarming == BoolV(true) then AlarmSpec(env, s)
      else (s, None)
  }

  /** `error` once the error is counted and the layout chosen: the records, then the conclusion. */
  function CountedSpec(env: Env, s: State, message: Value, rectype: string, layout: Value, alarming: Value, level: int,
                       kwargs: map<string, Value>, exc: ExcInfo, cwd: string, now: int, site: Records.CallSite)
    : (State, Option<Exception>)
  {
    var (io, err) := ErrorRecordsSpec(env, s.cfg, s.io, message, rectype, layout, kwargs, exc, cwd, now, site);
    if err.Some? then (s.(io := io), err) else ConcludeSpec(env, s.(io := io), alarming, level)
  }

  /**
   * `error(message, rectype, format, alarming, level, **kwargs)`: count the
   * error, write its records, apply the control policy, then send the
   * alarm if asked to.  The `format` argument only chooses the cascade; the
   * records themselves use the formatter's error layout.
   */
  function ErrorSpec(env: Env, s: State, message: Value, rectype: string, format: Value, alarming: Value, level: int,
                     kwargs: map<string, Value>, exc: ExcInfo, cwd: string, now: int, site: Records.CallSite)
    : (State, Option<Exception>)
  {
    if ErrorClash(kwargs) then (s, Some(TypeError))
    else
      LaidOutSpec(env, s.(withError := true, count := s.count + 1), message, rectype, format, alarming, level,
        kwargs, exc, cwd, now, site)
  }

  /** `error` once counted: the record layout is `format`, else the formatter's error layout, which must be set. */
  function LaidOutSpec(env: Env, s: State, message: Value, rectype: string, format: Value, alarming: Value, level: int,
                       kwargs: map<string, Value>, exc: ExcInfo, cwd: string, now: int, site: Records.CallSite)
    : (State, Option<Exception>)
  {
    if format == NoneV && s.cfg.fmt.error == NoneV then (s, Some(AttributeError("error")))
    else
      var layout := if format == NoneV then s.cfg.fmt.error else format;
      CountedSpec(env, s, message, rectype, layout, alarming, level, kwargs, exc, cwd, now, site)
  }

  /** `warning(message, **kwargs)` and `critical(message, **kwargs)`: `error` with a fixed type and level. */
  function LeveledSpec(env: Env, s: State, message: Value, rectype: string, level: int, kwargs: map<string, Value>,
                       exc: ExcInfo, cwd: string, now: int, site: Records.CallSite): (State, Option<Exception>)
  {
    if "self" in kwargs || "message" in kwargs || "rectype" in kwargs || "level" in kwargs then (s, Some(TypeError))
    else
      ErrorSpec(env, s, message, rectype, if "format" in kwargs then kwargs["format"] else NoneV,
        if "alarming" in kwargs then kwargs["alarming"] else BoolV(false), level,
        kwargs - {"format", "alarming"}, exc, cwd, now, site)
  }

  /** `_exit()`, run at interpreter exit: an alarm iff alarming and an error happened. */
  function ExitSpec(env: Env, s: State): (State, Option<Exception>)
  {
    if s.cfg.limits.alarming == NoneV then (s, Some(AttributeError("_alarming")))
    else if s.cfg.limits.alarming == BoolV(true) && s.withError then AlarmSpec(env, s)
    else (s, None)
  }

  // ---- text blocks ---------------------------------------------------------

  /**
   * `formatter.div * formatter.length`: a string repeated by an integer (in
   * either order), or the product of two integers; any other pair is a
   * `TypeError`.
   */
  function Product(fmt: Formatters.Settings): (r: Result<Value>)
    ensures r.Ok? ==> r.value.StrV? || r.value.IntV?
  {
    if fmt.div == NoneV then Raise(AttributeError("div"))
    else if fmt.length == NoneV then Raise(AttributeError("length"))
    else if fmt.div.StrV? && IsInt(fmt.length) then Ok(StrV(Repeat(fmt.div.s, AsInt(fmt.length))))
    else if IsInt(fmt.div) && fmt.length.StrV? then Ok(StrV(Repeat(fmt.length.s, AsInt(fmt.div))))
    else if IsInt(fmt.div) && IsInt(fmt.length) then Ok(IntV(AsInt(fmt.div) * AsInt(fmt.length)))
    else Raise(TypeError)
  }

  /** The border of `bound()`, `div * length + '\n'`: only a string can be concatenated with the newline. */
  function Border(fmt: Formatters.Settings): (r: Result<string>)
  {
    match Product(fmt)
    case Raise(x) => Raise(x)
    case Ok(v) => if v.StrV? then Ok(v.s) else Raise(TypeError)
  }

  /** The border of `subhead()`, `f'{div*length}'`: the f-string formats whatever the product is. */
  function SubheadBorder(fmt: Formatters.Settings): (r: Result<string>)
  {
    match Product(fmt)
    case Raise(x) => Raise(x)
    case Ok(v) => Ok(if v.StrV? then v.s else Decimal(v.i))
  }

  /** `bound()`: the border and a newline (the method's own arguments are ignored). */
  function BoundSpec(env: Env, cfg: Config, io: Io, now: int): (Io, Option<Exception>)
  {
    match Border(cfg.fmt)
    case Raise(x) => (io, Some(x))
    case Ok(b) => WriteSpec(env, cfg, io, Outputs.Text(b + "\n"), now)
  }

  /** `subhead(text)`: the text between two borders, all upper-cased, in one write. */
  function SubheadSpec(env: Env, cfg: Config, io: Io, text: Value, now: int): (Io, Option<Exception>)
  {
    match SubheadBorder(cfg.fmt)
    case Raise(x) => (io, Some(x))
    case Ok(b) => WriteSpec(env, cfg, io, Outputs.Text(SubheadText(b, Str(text))), now)
  }

  /** `f'{bound}\t{string}\n{bound}'.upper()` with `bound` the border and a newline. */
  function SubheadText(border: string, text: string): string
  {
    Upper(border + "\n" + "\t" + text + "\n" + border + "\n")
  }

  /** `line(message)`: the message and a newline. */
  function LineSpec(env: Env, cfg: Config, io: Io, message: Value, now: int): (Io, Option<Exception>)
  {
    WriteSpec(env, cfg, io, Outputs.Text(Str(message) + "\n"), now)
  }

  /** `blank(number)`. */
  function BlankSpec(env: Env, cfg: Config, io: Io, number: int, now: int): (Io, Option<Exception>)
  {
    WriteSpec(env, cfg, io, Outputs.Text(Repeat("\n", number)), now)
  }

  // ---- configuration -----------------------------------------------------

  /** Keyword arguments; a missing keyword is `None`. */
  type Options = map<string, Value>

  function Arg(o: Options, k: string): Value
  {
    if k in o then o[k] else NoneV
  }

  /** The keywords `Logger(...)` and `configure(...)` accept. */
  const Parameters: set<string> := {
    "app", "desc", "version", "status", "console", "file", "email", "html", "table", "directory",
    "filename", "extension", "smtp", "db", "format", "info", "debug", "warning", "error", "critical",
    "alarming", "control", "maxsize", "maxdays", "maxlevel", "maxerrors"}

  /** The sinks `configure` opens or closes, in its order. */
  const SinkNames: seq<string> := ["console", "file", "email", "html", "table"]

  /** The record types whose filter `configure` sets, in its order. */
  const FilterNames: seq<string> := ["info", "debug", "error", "warning", "critical"]

  /** `Logger.__init__`'s defaults. */
  const Defaults: Options := map[
    "status" := BoolV(true), "console" := BoolV(true), "file" := BoolV(true), "email" := BoolV(false),
    "html" := BoolV(false), "table" := BoolV(false), "info" := BoolV(true), "debug" := BoolV(false),
    "warning" := BoolV(true), "error" := BoolV(true), "critical" := BoolV(true), "alarming" := BoolV(true),
    "control" := BoolV(true), "maxsize" := IntV(10485760), "maxdays" := IntV(1), "maxlevel" := IntV(2),
    "maxerrors" := BoolV(false)]

  /** `app` and `desc` from strings, `version` from a string or a number. */
  function SetInfo(cfg: Config, o: Options): (r: Config)
  {
    cfg.(app := if Arg(o, "app").StrV? then Arg(o, "app") else cfg.app,
         desc := if Arg(o, "desc").StrV? then Arg(o, "desc") else cfg.desc,
         version := if Arg(o, "version").StrV? || IsInt(Arg(o, "version")) then Arg(o, "version") else cfg.version)
  }

  /** The status of one sink set to `open`. */
  function SetSink(s: State, sink: string, open: bool): State
  {
    if sink == "console" then s.(io := s.io.(root := s.io.root.(console := s.io.root.console.(status := open))))
    else if sink == "file" then s.(io := s.io.(root := s.io.root.(file := s.io.root.file.(status := open))))
    else if sink == "email" then s.(email := s.email.(status := open))
    else if sink == "html" then s.(htmlOpen := open)
    else s.(tableOpen := open)
  }

  /** One step of the sink loop: `True` opens (a file also gets a new path), `False` closes, anything else is ignored. */
  function ToggleSpec(s: State, sink: string, v: Value): (State, Option<Exception>)
  {
    if v == BoolV(true) then
      var s1 := SetSink(s, sink, true);
      if sink == "file" then
        var (f, err) := Outputs.FileNew(s1.io.root.file, s1.io.start);
        (s1.(io := s1.io.(root := s1.io.root.(file := f))), err)
      else (s1, None)
    else if v == BoolV(false) then (SetSink(s, sink, false), None)
    else (s, None)
  }

  function TogglesSpec(s: State, sinks: seq<string>, o: Options): (State, Option<Exception>)
    decreases |sinks|
  {
    if sinks == [] then (s, None)
    else
      var (s1, err) := ToggleSpec(s, sinks[0], Arg(o, sinks[0]));
      if err.Some? then (s1, err) else TogglesSpec(s1, sinks[1..], o)
  }

  /** The filter loop: each record type whose argument is a `bool` gets that value. */
  function SetFilters(f: map<string, bool>, names: seq<string>, o: Options): map<string, bool>
    decreases |names|
  {
    if names == [] then f
    else
      var v := Arg(o, names[0]);
      SetFilters(if v.BoolV? then f[names[0] := v.b] else f, names[1..], o)
  }

  function IntOr(v: Value, current: Value): (r: Value)
  {
    if IsInt(v) then v else current
  }

  function BoolOr(v: Value, current: Value): (r: Value)
  {
    if v.BoolV? then v else current
  }

  /** Limits from numbers (or `bool`s), switches from `bool`s. */
  function SetLimits(l: Limits, o: Options): Limits
  {
    Limits(IntOr(Arg(o, "maxsize"), l.maxsize), IntOr(Arg(o, "maxdays"), l.maxdays),
           IntOr(Arg(o, "maxlevel"), l.maxlevel), IntOr(Arg(o, "maxerrors"), l.maxerrors),
           BoolOr(Arg(o, "alarming"), l.alarming), BoolOr(Arg(o, "control"), l.control))
  }

  /** `__calculate_restart_date()`, run whenever `maxdays` is set: `maxdays` days after the start. */
  function NewRestartDate(current: Option<int>, start: int, o: Options): Option<int>
  {
    if IsInt(Arg(o, "maxdays")) then Some(Clock.AddDays(start, AsInt(Arg(o, "maxdays")))) else current
  }

  /** The items of the `format` argument: a string is `{'record': format}`, a dict is itself, anything else none. */
  function FormatEntries(v: Value): Option<seq<(string, Value)>>
  {
    match v
    case StrV(_) => Some([("record", v)])
    case DictV(entries) => Some(entries)
    case _ => None
  }

  /** `d.get(k, default)` on a dict's items. */
  function Lookup(d: seq<(string, Value)>, k: string, default: Value): Value
  {
    if d == [] then default else if d[0].0 == k then d[0].1 else Lookup(d[1..], k, default)
  }

  /** Every key is a parameter of the formatter (otherwise `**format` is a `TypeError`). */
  predicate FormatterKeys(d: seq<(string, Value)>)
  {
    forall i :: 0 <= i < |d| ==> d[i].0 == "record" || d[i].0 == "error" || d[i].0 == "length" || d[i].0 == "div"
  }

  /** `formatter.configure(**format)` for a string or dict argument. */
  function FormatConfigured(fmt: Formatters.Settings, v: Value): Result<Formatters.Settings>
  {
    match FormatEntries(v)
    case None => Ok(fmt)
    case Some(d) =>
      if !FormatterKeys(d) then Raise(TypeError)
      else Ok(Formatters.Configured(fmt, Lookup(d, "record", NoneV), Lookup(d, "error", NoneV),
                                    Lookup(d, "length", NoneV), Lookup(d, "div", NoneV)))
  }

  /** The items `Formatter(**format)` is called with when the logger is built. */
  function InitialEntries(v: Value): seq<(string, Value)>
  {
    match FormatEntries(v)
    case None => []
    case Some(d) => d
  }

  /** `Formatter(**format)` over the given items: the constructor's own defaults for what is not given. */
  function InitialSettings(d: seq<(string, Value)>): Formatters.Settings
  {
    Formatters.Initial(Formatters.IsodateLayout, Lookup(d, "record", NoneV), Lookup(d, "error", NoneV),
                       Lookup(d, "length", IntV(80)), Lookup(d, "div", StrV("*")))
  }

  /**
   * `configure(**o)` on an existing logger: application data, the sink
   * loop, the file path, the formatter, the filter loop and the limits, in
   * that order; an exception stops the rest.
   */
  function ConfigureSpec(s: State, o: Options): (State, Option<Exception>)
  {
    if !(o.Keys <= Parameters) then (s, Some(TypeError))
    else
      var (s2, err) := TogglesSpec(s.(cfg := SetInfo(s.cfg, o)), SinkNames, o);
      if err.Some? then (s2, err) else PathAndSettings(s2, o)
  }

  /** `configure` after the sink loop: the file path, then the formatter and the settings. */
  function PathAndSettings(s: State, o: Options): (State, Option<Exception>)
  {
    var (f, err) := Outputs.FileConfigure(s.io.root.file, Arg(o, "directory"), Arg(o, "filename"),
                                          Arg(o, "extension"), s.io.start);
    var s1 := s.(io := s.io.(root := s.io.root.(file := f)));
    if err.Some? then (s1, err) else FormatAndSettings(s1, o)
  }

  /** `configure` after the file path: the formatter, then the settings. */
  function FormatAndSettings(s: State, o: Options): (State, Option<Exception>)
  {
    match FormatConfigured(s.cfg.fmt, Arg(o, "format"))
    case Raise(x) => (s, Some(x))
    case Ok(fmt) => (ApplySettings(s.(cfg := s.cfg.(fmt := fmt)), o), None)
  }

  /** The filters, the limits and the restart date. */
  function ApplySettings(s: State, o: Options): State
  {
    s.(cfg := s.cfg.(filters := SetFilters(s.cfg.filters, FilterNames, o), limits := SetLimits(s.cfg.limits, o)),
       io := s.io.(restartDate := NewRestartDate(s.io.restartDate, s.io.start, o)))
  }

  const BlankLimits: Limits := Limits(NoneV, NoneV, NoneV, NoneV, NoneV, NoneV)

  /** The file sink before `File.__init__` configures it. */
  function BlankFile(o: Options): Outputs.FileState
  {
    Outputs.FileState(Arg(o, "file") == BoolV(true), None, None, None, "", Outputs.Unset, None, None)
  }

  /**
   * A new logger with the options `o` (the defaults already merged in)
   * before its file sink is configured: no application data, the sinks
   * with their statuses, the formatter, the filters and the limits.
   */
  function Unconfigured(o: Options, disk: Outputs.Disk, now: int): State
  {
    var cfg := Config(NoneV, NoneV, NoneV, SetFilters(map[], FilterNames, o), SetLimits(BlankLimits, o),
                      InitialSettings(InitialEntries(Arg(o, "format"))));
    var root := Outputs.RootState(Arg(o, "status") == BoolV(true),
      Outputs.ConsoleState(Arg(o, "console") == BoolV(true), ""), BlankFile(o), disk);
    State(SetInfo(cfg, o), Io(now, NewRestartDate(None, now, o), root, false), false, 0,
          Outputs.EmailState(Arg(o, "email") == BoolV(true), false, []),
          Arg(o, "html") == BoolV(true), Arg(o, "table") == BoolV(true))
  }

  /**
   * `Logger(**kwargs)`: the defaults overridden by the keywords; the file
   * sink configured with its default path (whose errors come first), then
   * the formatter's keywords checked.  Nothing is written.
   */
  function InitSpec(kwargs: Options, disk: Outputs.Disk, pyDir: string, now: int): Result<State>
  {
    if !(kwargs.Keys <= Parameters) then Raise(TypeError)
    else
      var o := Defaults + kwargs;
      var s := Unconfigured(o, disk, now);
      var (file, ferr) := Outputs.FileInit(s.io.root.file, Arg(o, "directory"), Arg(o, "filename"),
                                           Arg(o, "extension"), pyDir, now);
      if ferr.Some? then Raise(ferr.value)
      else if !FormatterKeys(InitialEntries(Arg(o, "format"))) then Raise(TypeError)
      else Ok(s.(io := s.io.(root := s.io.root.(file := file))))
  }

  /** The messages of `ok()`, `success()` and `fail()`. */
  const Messages: map<string, Value> := map["ok" := StrV("OK"), "success" := StrV("SUCCESS"), "fail" := StrV("FAIL")]

  // ---- the logger object ---------------------------------------------------

  class Logger {
    const name: Value
    var app: Value
    var desc: Value
    var version: Value
    var start: int
    var restartDate: Option<int>
    const rectypes: map<string, Value>
    var withError: bool
    var count: nat
    var filters: map<string, bool>
    var limits: Limits
    const root: Outputs.Root
    const formatter: Formatters.Formatter
    const header: Headers.Header
    const sysinfo: map<string, Value>

    predicate Valid()
      reads this, root, header
    {
      root.Valid() && header.Valid()
    }

    function Cfg(): Config
      reads this, formatter
    {
      Config(app, desc, version, filters, limits, formatter.Snap())
    }

    function IoSnap(): Io
      reads this, root, root.console, root.file, root.fs, header
    {
      Io(start, restartDate, root.Snap(), header.used)
    }

    function Snap(): State
      reads this, root, root.console, root.file, root.fs, root.email, root.html, root.table, header, formatter
    {
      State(Cfg(), IoSnap(), withError, count, root.email.Snap(), root.html.status, root.table.status)
    }

    function Fixed(): Env
      reads this, header
    {
      Env(rectypes, header.items, header.length, header.div, header.offset, sysinfo)
    }

    function Context(): Headers.Context
      reads this
    {
      Headers.Context(app, desc, version, sysinfo)
    }

    /** The object `Logger.__init__` builds before the file sink is configured. */
    constructor (name: Value, o: Options, fs: Outputs.FileSystem, db: Outputs.Database, sysinfo: map<string, Value>, now: int)
      ensures Valid() && this.name == name && root.fs == fs && root.table.db == db
      ensures fresh(root) && fresh(formatter) && fresh(header)
      ensures fresh(root.console) && fresh(root.file) && fresh(root.email) && fresh(root.html) && fresh(root.table)
      ensures Snap() == Unconfigured(o, fs.Snap(), now)
      ensures Fixed() == Env(DefaultRectypes, Headers.DefaultItems, Snap().cfg.fmt.length, Snap().cfg.fmt.div, 2, sysinfo)
    {
      var u := Unconfigured(o, fs.Snap(), now);
      this.name, this.sysinfo := name, sysinfo;
      app, desc, version := u.cfg.app, u.cfg.desc, u.cfg.version;
      start, restartDate := now, u.io.restartDate;
      rectypes := DefaultRectypes;
      withError, count := false, 0;
      filters, limits := u.cfg.filters, u.cfg.limits;
      root := new Outputs.Root(u.io.root.status, u.io.root.console.status, u.io.root.file.status, u.email.status,
                               u.htmlOpen, u.tableOpen, fs, db);
      var d := InitialEntries(Arg(o, "format"));
      formatter := new Formatters.Formatter.Isodate(Lookup(d, "record", NoneV), Lookup(d, "error", NoneV),
                                                    Lookup(d, "length", IntV(80)), Lookup(d, "div", StrV("*")));
      header := new Headers.Header.Default(u.cfg.fmt.length, u.cfg.fmt.div);
    }

    /** `Logger(name, **kwargs)`: `null` and the exception when construction fails. */
    static method Create(name: Value, kwargs: Options, fs: Outputs.FileSystem, db: Outputs.Database, pyDir: string,
                         sysinfo: map<string, Value>, now: int) returns (l: Logger?, err: Option<Exception>)
      ensures err.None? <==> InitSpec(kwargs, fs.Snap(), pyDir, now).Ok?
      ensures err.Some? ==> l == null && err.value == InitSpec(kwargs, fs.Snap(), pyDir, now).exc
      ensures err.None? ==> (l != null && fresh(l) && l.Valid() && l.name == name && l.root.fs == fs && l.root.table.db == db)
      ensures err.None? ==> (l != null && fresh(l.root) && fresh(l.formatter) && fresh(l.header)
        && fresh(l.root.console) && fresh(l.root.file) && fresh(l.root.email) && fresh(l.root.html) && fresh(l.root.table))
      ensures err.None? ==> (l != null && l.Snap() == InitSpec(kwargs, fs.Snap(), pyDir, now).value)
      ensures err.None? ==> (l != null
        && l.Fixed() == Env(DefaultRectypes, Headers.DefaultItems, l.Snap().cfg.fmt.length, l.Snap().cfg.fmt.div, 2, sysinfo))
    {
      if !(kwargs.Keys <= Parameters) {
        return null, Some(TypeError);
      }
      var o := Defaults + kwargs;
      var c := new Logger(name, o, fs, db, sysinfo, now);
      err := c.InitFile(o, pyDir, now);
      if err.Some? {
        return null, err;
      }
      if !FormatterKeys(InitialEntries(Arg(o, "format"))) {
        return null, Some(TypeError);
      }
      l := c;
    }

    /** The `File(**kwargs)` call of `__init__`: the default path, configured. */
    method InitFile(o: Options, pyDir: string, now: int) returns (err: Option<Exception>)
      requires Valid()
      modifies root.file
      ensures Valid() && Fixed() == old(Fixed())
      ensures var (f, e) := Outputs.FileInit(old(Snap()).io.root.file, Arg(o, "directory"), Arg(o, "filename"),
                                             Arg(o, "extension"), pyDir, now);
        Snap() == old(Snap()).(io := old(Snap()).io.(root := old(Snap()).io.root.(file := f))) && err == e
    {
      ghost var s0 := Snap();
      err := root.file.Init(Arg(o, "directory"), Arg(o, "filename"), Arg(o, "extension"), pyDir, now);
      assert Snap() == s0.(io := s0.io.(root := s0.io.root.(file := root.file.Snap())));
    }

    // ---- rotation and writing --------------------------------------------

    /** `__check_file_stats()`. */
    method Check(now: int) returns (err: Option<Exception>)
      requires Valid()
      modifies this`start, this`restartDate, root.console, root.file, root.fs, header
      ensures Valid() && Fixed() == old(Fixed())
      ensures (IoSnap(), err) == CheckSpec(old(Fixed()), old(Cfg()), old(IoSnap()), now)
      decreases Rank(Cfg(), IoSnap(), now), 2
    {
      err := None;
      if !root.file.status {
        return;
      }
      if !IsInt(limits.maxsize) {
        return Some(AttributeError("_maxsize"));
      }
      if SizeMissing(Cfg(), IoSnap()) {
        return Some(AttributeError("_size"));
      }
      if SizeDue(Cfg(), IoSnap()) {
        err := Restart(now);
        return;
      }
      if !IsInt(limits.maxdays) {
        return Some(AttributeError("_maxdays"));
      }
      if limits.maxdays == BoolV(false) {
        return;
      }
      if restartDate.None? {
        return Some(AttributeError("_Logger__restart_date"));
      }
      if Clock.DayOfMonth(restartDate.value) == Clock.DayOfMonth(now) {
        err := Restart(now);
      }
    }

    /** `restart()`. */
    method Restart(now: int) returns (err: Option<Exception>)
      requires Valid()
      modifies this`start, this`restartDate, root.console, root.file, root.fs, header
      ensures Valid() && Fixed() == old(Fixed())
      ensures (IoSnap(), err) == RestartSpec(old(Fixed()), old(Cfg()), old(IoSnap()), now)
      decreases 1, 1
    {
      start := now;
      if !IsInt(limits.maxdays) {
        return Some(AttributeError("_maxdays"));
      }
      restartDate := Some(Clock.AddDays(now, AsInt(limits.maxdays)));
      err := root.file.New(now);
      if err.Some? || !header.used {
        return;
      }
      if Due(Cfg(), IoSnap(), now) {
        var text := HeaderText(Fixed(), Cfg());
        return Some(if text.Raise? then text.exc else RecursionError);
      }
      err := Head(now);
    }

    /** `head()`. */
    method Head(now: int) returns (err: Option<Exception>)
      requires Valid()
      modifies this`start, this`restartDate, root.console, root.file, root.fs, header
      ensures Valid() && Fixed() == old(Fixed())
      ensures (IoSnap(), err) == HeadSpec(old(Fixed()), old(Cfg()), old(IoSnap()), now)
      decreases Rank(Cfg(), IoSnap(), now), 4
    {
      ghost var io0 := IoSnap();
      var text := header.Create(Context());
      assert IoSnap() == io0.(headerUsed := true) && Cfg() == old(Cfg()) && Fixed() == old(Fixed());
      assert text == HeaderText(Fixed(), Cfg());
      assert Rank(Cfg(), IoSnap(), now) == Rank(Cfg(), io0, now);
      match text
      case Raise(x) =>
        err := Some(x);
      case Ok(t) =>
        err := Write(Outputs.Text(t), now);
    }

    /** `write(record)`. */
    method Write(e: Outputs.Entry, now: int) returns (err: Option<Exception>)
      requires Valid()
      modifies this`start, this`restartDate, root.console, root.file, root.fs, header
      ensures Valid() && Fixed() == old(Fixed())
      ensures (IoSnap(), err) == WriteSpec(old(Fixed()), old(Cfg()), old(IoSnap()), e, now)
      decreases Rank(Cfg(), IoSnap(), now), 3
    {
      err := Check(now);
      if err.Some? {
        return;
      }
      err := root.Write(e, now);
    }

    /** `record(rectype, message, error=error, **kwargs)`. */
    method Record(rectype: string, message: Value, error: Value, kwargs: map<string, Value>, now: int,
                  site: Records.CallSite) returns (err: Option<Exception>)
      requires Valid()
      modifies this`start, this`restartDate, root.console, root.file, root.fs, header
      ensures Valid() && Fixed() == old(Fixed())
      ensures (IoSnap(), err) == RecordSpec(old(Fixed()), old(Cfg()), old(IoSnap()), rectype, message, error, kwargs, now, site)
    {
      ghost var f0, c0, io0 := Fixed(), Cfg(), IoSnap();
      ghost var want := RecordSpec(f0, c0, io0, rectype, message, error, kwargs, now, site);
      if RecordClash(kwargs) {
        return Some(TypeError);
      }
      if !Passes(filters, rectype) {
        return None;
      }
      var r := Records.Construct(rectypes, formatter.Snap(), rectype, message, error, kwargs, now, site);
      assert r == Records.Construct(f0.rectypes, c0.fmt, rectype, message, error, kwargs, now, site);
      match r
      case Raise(x) =>
        assert want == (io0, Some(x));
        err := Some(x);
      case Ok(rec) =>
        assert want == WriteSpec(f0, c0, io0, Outputs.RecordEntry(rec), now);
        err := Write(Outputs.RecordEntry(rec), now);
        assert (IoSnap(), err) == want;
    }

    /** `bound()`. */
    method Bound(now: int) returns (err: Option<Exception>)
      requires Valid()
      modifies this`start, this`restartDate, root.console, root.file, root.fs, header
      ensures Valid() && Fixed() == old(Fixed())
      ensures (IoSnap(), err) == BoundSpec(old(Fixed()), old(Cfg()), old(IoSnap()), now)
    {
      var b := Border(formatter.Snap());
      match b
      case Raise(x) =>
        err := Some(x);
      case Ok(border) =>
        err := Write(Outputs.Text(border + "\n"), now);
    }

    /** `subhead(text)`. */
    method Subhead(text: Value, now: int) returns (err: Option<Exception>)
      requires Valid()
      modifies this`start, this`restartDate, root.console, root.file, root.fs, header
      ensures Valid() && Fixed() == old(Fixed())
      ensures (IoSnap(), err) == SubheadSpec(old(Fixed()), old(Cfg()), old(IoSnap()), text, now)
    {
      var b := SubheadBorder(formatter.Snap());
      match b
      case Raise(x) =>
        err := Some(x);
      case Ok(border) =>
        err := Write(Outputs.Text(SubheadText(border, Str(text))), now);
    }

    /** `line(message)`. */
    method Line(message: Value, now: int) returns (err: Option<Exception>)
      requires Valid()
      modifies this`start, this`restartDate, root.console, root.file, root.fs, header
      ensures Valid() && Fixed() == old(Fixed())
      ensures (IoSnap(), err) == LineSpec(old(Fixed()), old(Cfg()), old(IoSnap()), message, now)
    {
      err := Write(Outputs.Text(Str(message) + "\n"), now);
    }

    /** `blank(number)`. */
    method Blank(number: int, now: int) returns (err: Option<Exception>)
      requires Valid()
      modifies this`start, this`restartDate, root.console, root.file, root.fs, header
      ensures Valid() && Fixed() == old(Fixed())
      ensures (IoSnap(), err) == BlankSpec(old(Fixed()), old(Cfg()), old(IoSnap()), number, now)
    {
      err := Write(Outputs.Text(Repeat("\n", number)), now);
    }

    // ---- errors ----------------------------------------------------------

    /** The loop over the traceback's frames: one error record per frame, carrying that frame's fields. */
    method FrameRecords(rectype: string, name: string, value: Value, frames: seq<TraceFrame>, kwargs: map<string, Value>,
                        cwd: string, now: int, site: Records.CallSite) returns (err: Option<Exception>)
      requires Valid()
      requires "error" !in kwargs && kwargs.Keys * FrameKeys == {}
      modifies this`start, this`restartDate, root.console, root.file, root.fs, header
      ensures Valid() && Fixed() == old(Fixed())
      ensures (IoSnap(), err)
        == RunCalls(old(Fixed()), old(Cfg()), old(IoSnap()), rectype, FrameCalls(name, value, NoneV, frames, kwargs, cwd), now, site)
    {
      var i := 0;
      err := None;
      while i < |frames|
        invariant 0 <= i <= |frames|
        invariant Valid() && Fixed() == old(Fixed()) && Cfg() == old(Cfg()) && err.None?
        invariant RunCalls(old(Fixed()), old(Cfg()), old(IoSnap()), rectype, FrameCalls(name, value, NoneV, frames, kwargs, cwd), now, site)
          == RunCalls(old(Fixed()), old(Cfg()), IoSnap(), rectype, FrameCalls(name, value, NoneV, frames[i..], kwargs, cwd), now, site)
      {
        assert frames[i..][0] == frames[i] && frames[i..][1..] == frames[i + 1..];
        err := Record(rectype, NoneV, BoolV(true), FrameFields(name, value, frames[i], cwd) + kwargs, now, site);
        if err.Some? {
          return;
        }
        i := i + 1;
      }
      assert frames[i..] == [];
    }

    /** The record calls of `error`: the frames' records, or the single record. */
    method ErrorRecords(message: Value, rectype: string, layout: Value, kwargs: map<string, Value>, exc: ExcInfo,
                        cwd: string, now: int, site: Records.CallSite) returns (err: Option<Exception>)
      requires Valid()
      modifies this`start, this`restartDate, root.console, root.file, root.fs, header
      ensures Valid() && Fixed() == old(Fixed())
      ensures (IoSnap(), err)
        == ErrorRecordsSpec(old(Fixed()), old(Cfg()), old(IoSnap()), message, rectype, layout, kwargs, exc, cwd, now, site)
    {
      ghost var f0, c0, io0 := Fixed(), Cfg(), IoSnap();
      ghost var want := ErrorRecordsSpec(f0, c0, io0, message, rectype, layout, kwargs, exc, cwd, now, site);
      var error := if "error" in kwargs then kwargs["error"] else BoolV(false);
      var rest := kwargs - {"error"};
      err := None;
      if message == NoneV && exc.Active? {
        if layout.StrV? {
          if exc.frames != [] && ("error" in kwargs || kwargs.Keys * FrameKeys != {}) {
            assert want == (io0, Some(TypeError));
            return Some(TypeError);
          }
          assert want == RunCalls(f0, c0, io0, rectype, FrameCalls(exc.name, exc.value, NoneV, exc.frames, kwargs, cwd), now, site);
          if exc.frames != [] {
            err := FrameRecords(rectype, exc.name, exc.value, exc.frames, kwargs, cwd, now, site);
          }
        } else if layout == BoolV(false) {
          var c := Call(StrV("\n" + exc.trace), error, rest);
          assert ErrorCalls(message, layout, kwargs, exc, cwd) == Ok([c]);
          RunOne(f0, c0, io0, rectype, c, now, site);
          assert want == RecordSpec(f0, c0, io0, rectype, c.message, c.error, c.kwargs, now, site);
          err := Record(rectype, StrV("\n" + exc.trace), error, rest, now, site);
        } else {
          assert want == (io0, None);
        }
      } else {
        var c := Call(Or(message, StrV("")), error, rest);
        assert ErrorCalls(message, layout, kwargs, exc, cwd) == Ok([c]);
        RunOne(f0, c0, io0, rectype, c, now, site);
        assert want == RecordSpec(f0, c0, io0, rectype, c.message, c.error, c.kwargs, now, site);
        err := Record(rectype, Or(message, StrV("")), error, rest, now, site);
      }
    }

    /** `error(message, rectype, format, alarming, level, **kwargs)` with the active exception `exc`. */
    method Error(message: Value, rectype: string, format: Value, alarming: Value, level: int, kwargs: map<string, Value>,
                 exc: ExcInfo, cwd: string, now: int, site: Records.CallSite) returns (err: Option<Exception>)
      requires Valid()
      modifies this`withError, this`count, this`start, this`restartDate, root.console, root.file, root.fs, header, root.email
      ensures Valid() && Fixed() == old(Fixed())
      ensures (Snap(), err)
        == ErrorSpec(old(Fixed()), old(Snap()), message, rectype, format, alarming, level, kwargs, exc, cwd, now, site)
    {
      ghost var f0, s0 := Fixed(), Snap();
      ghost var want := ErrorSpec(f0, s0, message, rectype, format, alarming, level, kwargs, exc, cwd, now, site);
      if ErrorClash(kwargs) {
        assert want == (s0, Some(TypeError));
        return Some(TypeError);
      }
      withError, count := true, count + 1;
      ghost var s1 := Snap();
      assert s1 == s0.(withError := true, count := s0.count + 1);
      assert want == LaidOutSpec(f0, s1, message, rectype, format, alarming, level, kwargs, exc, cwd, now, site);
      err := LaidOut(message, rectype, format, alarming, level, kwargs, exc, cwd, now, site);
    }

    /** `error` after the count: picks the record layout, then logs. */
    method LaidOut(message: Value, rectype: string, format: Value, alarming: Value, level: int, kwargs: map<string, Value>,
                   exc: ExcInfo, cwd: string, now: int, site: Records.CallSite) returns (err: Option<Exception>)
      requires Valid()
      modifies this`start, this`restartDate, root.console, root.file, root.fs, header, root.email
      ensures Valid() && Fixed() == old(Fixed())
      ensures (Snap(), err)
        == LaidOutSpec(old(Fixed()), old(Snap()), message, rectype, format, alarming, level, kwargs, exc, cwd, now, site)
    {
      ghost var f0, s0 := Fixed(), Snap();
      ghost var want := LaidOutSpec(f0, s0, message, rectype, format, alarming, level, kwargs, exc, cwd, now, site);
      if format == NoneV && formatter.error == NoneV {
        assert want == (s0, Some(AttributeError("error")));
        return Some(AttributeError("error"));
      }
      var layout := if format == NoneV then formatter.error else format;
      assert want == CountedSpec(f0, s0, message, rectype, layout, alarming, level, kwargs, exc, cwd, now, site);
      err := Counted(message, rectype, layout, alarming, level, kwargs, exc, cwd, now, site);
    }

    /** `error` after the count: the records, then the conclusion unless a record failed. */
    method Counted(message: Value, rectype: string, layout: Value, alarming: Value, level: int, kwargs: map<string, Value>,
                   exc: ExcInfo, cwd: string, now: int, site: Records.CallSite) returns (err: Option<Exception>)
      requires Valid()
      modifies this`start, this`restartDate, root.console, root.file, root.fs, header, root.email
      ensures Valid() && Fixed() == old(Fixed())
      ensures (Snap(), err)
        == CountedSpec(old(Fixed()), old(Snap()), message, rectype, layout, alarming, level, kwargs, exc, cwd, now, site)
    {
      ghost var s0 := Snap();
      ghost var r := ErrorRecordsSpec(Fixed(), s0.cfg, s0.io, message, rectype, layout, kwargs, exc, cwd, now, site);
      assert CountedSpec(Fixed(), s0, message, rectype, layout, alarming, level, kwargs, exc, cwd, now, site)
        == if r.1.Some? then (s0.(io := r.0), r.1) else ConcludeSpec(Fixed(), s0.(io := r.0), alarming, level);
      err := ErrorRecords(message, rectype, layout, kwargs, exc, cwd, now, site);
      assert IoSnap() == r.0 && err == r.1;
      assert Snap() == s0.(io := r.0);
      if err.Some? {
        return;
      }
      err := Conclude(alarming, level);
    }

    /** The control policy and the alarm at the end of `error`. */
    method Conclude(alarming: Value, level: int) returns (err: Option<Exception>)
      requires Valid()
      modifies root.email, header
      ensures Valid() && Fixed() == old(Fixed())
      ensures (Snap(), err) == ConcludeSpec(old(Fixed()), old(Snap()), alarming, level)
    {
      var abort := Control(limits, level, count);
      if abort.Raise? {
        return Some(abort.exc);
      }
      if abort.value {
        return Some(SystemExit);
      }
      err := None;
      if alarming == BoolV(true) {
        err := Alarm();
      }
    }

    /** `warning(message, **kwargs)` (level 0) and `critical(message, **kwargs)` (level 2). */
    method Leveled(message: Value, rectype: string, level: int, kwargs: map<string, Value>, exc: ExcInfo, cwd: string,
                   now: int, site: Records.CallSite) returns (err: Option<Exception>)
      requires Valid()
      modifies this`withError, this`count, this`start, this`restartDate, root.console, root.file, root.fs, header, root.email
      ensures Valid() && Fixed() == old(Fixed())
      ensures (Snap(), err) == LeveledSpec(old(Fixed()), old(Snap()), message, rectype, level, kwargs, exc, cwd, now, site)
    {
      if "self" in kwargs || "message" in kwargs || "rectype" in kwargs || "level" in kwargs {
        return Some(TypeError);
      }
      err := Error(message, rectype, if "format" in kwargs then kwargs["format"] else NoneV,
        if "alarming" in kwargs then kwargs["alarming"] else BoolV(false), level,
        kwargs - {"format", "alarming"}, exc, cwd, now, site);
    }

    /** `root.email.alarm()`. */
    method Alarm() returns (err: Option<Exception>)
      requires Valid()
      modifies root.email, header
      ensures Valid() && Fixed() == old(Fixed())
      ensures (Snap(), err) == AlarmSpec(old(Fixed()), old(Snap()))
    {
      err := root.email.SendAlarm(app, header, Context(), root.file);
    }

    /** `_exit()`. */
    method Exit() returns (err: Option<Exception>)
      requires Valid()
      modifies root.email, header
      ensures Valid() && Fixed() == old(Fixed())
      ensures (Snap(), err) == ExitSpec(old(Fixed()), old(Snap()))
    {
      err := None;
      if limits.alarming == NoneV {
        return Some(AttributeError("_alarming"));
      }
      if limits.alarming == BoolV(true) && withError {
        err := Alarm();
      }
    }

    // ---- configuration ---------------------------------------------------

    /** One step of the sink loop of `configure`. */
    method Toggle(sink: string, v: Value) returns (err: Option<Exception>)
      requires Valid()
      modifies root.console, root.file, root.email, root.html, root.table
      ensures Valid() && Fixed() == old(Fixed())
      ensures (Snap(), err) == ToggleSpec(old(Snap()), sink, v)
    {
      err := None;
      if v == BoolV(true) {
        err := Enable(sink);
      } else if v == BoolV(false) {
        Disable(sink);
      }
    }

    /** `self.root.<sink>.open()`, and for the file a new file. */
    method Enable(sink: string) returns (err: Option<Exception>)
      requires Valid()
      modifies root.console, root.file, root.email, root.html, root.table
      ensures Valid() && Fixed() == old(Fixed())
      ensures (Snap(), err) == ToggleSpec(old(Snap()), sink, BoolV(true))
    {
      err := None;
      if sink == "console" {
        root.console.Open();
      } else if sink == "file" {
        root.file.Open();
        err := root.file.New(start);
      } else if sink == "email" {
        root.email.Open();
      } else if sink == "html" {
        root.html.Open();
      } else {
        root.table.Open();
      }
    }

    /** `self.root.<sink>.close()`. */
    method Disable(sink: string)
      requires Valid()
      modifies root.console, root.file, root.email, root.html, root.table
      ensures Valid() && Fixed() == old(Fixed())
      ensures Snap() == SetSink(old(Snap()), sink, false)
    {
      if sink == "console" {
        root.console.Close();
      } else if sink == "file" {
        root.file.Close();
      } else if sink == "email" {
        root.email.Close();
      } else if sink == "html" {
        root.html.Close();
      } else {
        root.table.Close();
      }
    }

    /** The sink loop of `configure`. */
    method ToggleSinks(o: Options) returns (err: Option<Exception>)
      requires Valid()
      modifies root.console, root.file, root.email, root.html, root.table
      ensures Valid() && Fixed() == old(Fixed())
      ensures (Snap(), err) == TogglesSpec(old(Snap()), SinkNames, o)
    {
      var i := 0;
      err := None;
      while i < |SinkNames|
        invariant 0 <= i <= |SinkNames|
        invariant Valid() && Fixed() == old(Fixed()) && err.None?
        invariant TogglesSpec(old(Snap()), SinkNames, o) == TogglesSpec(Snap(), SinkNames[i..], o)
      {
        assert SinkNames[i..][0] == SinkNames[i] && SinkNames[i..][1..] == SinkNames[i + 1..];
        err := Toggle(SinkNames[i], Arg(o, SinkNames[i]));
        if err.Some? {
          return;
        }
        i := i + 1;
      }
      assert SinkNames[i..] == [];
    }

    /** The filter loop of `configure`. */
    method ConfigureFilters(o: Options)
      modifies this`filters
      ensures filters == SetFilters(old(filters), FilterNames, o)
    {
      var i := 0;
      while i < |FilterNames|
        invariant 0 <= i <= |FilterNames|
        invariant SetFilters(old(filters), FilterNames, o) == SetFilters(filters, FilterNames[i..], o)
      {
        assert FilterNames[i..][0] == FilterNames[i] && FilterNames[i..][1..] == FilterNames[i + 1..];
        var v := Arg(o, FilterNames[i]);
        if v.BoolV? {
          filters := filters[FilterNames[i] := v.b];
        }
        i := i + 1;
      }
      assert FilterNames[i..] == [];
    }

    /** `configure(**o)` on an existing logger. */
    method Configure(o: Options) returns (err: Option<Exception>)
      requires Valid()
      modifies this`app, this`desc, this`version, this`filters, this`limits, this`restartDate, root.console, root.file, root.email, root.html, root.table, formatter
      ensures Valid() && Fixed() == old(Fixed())
      ensures (Snap(), err) == ConfigureSpec(old(Snap()), o)
    {
      if !(o.Keys <= Parameters) {
        return Some(TypeError);
      }
      var c := SetInfo(Cfg(), o);
      app, desc, version := c.app, c.desc, c.version;
      assert Snap() == old(Snap()).(cfg := SetInfo(old(Snap()).cfg, o));
      err := ToggleSinks(o);
      if err.Some? {
        return;
      }
      err := ConfigurePathAndSettings(o);
    }

    method ConfigurePathAndSettings(o: Options) returns (err: Option<Exception>)
      requires Valid()
      modifies this`filters, this`limits, this`restartDate, root.file, formatter
      ensures Valid() && Fixed() == old(Fixed())
      ensures (Snap(), err) == PathAndSettings(old(Snap()), o)
    {
      err := root.file.Configure(Arg(o, "directory"), Arg(o, "filename"), Arg(o, "extension"), start);
      if err.Some? {
        return;
      }
      err := ConfigureFormatAndSettings(o);
    }

    method ConfigureFormatAndSettings(o: Options) returns (err: Option<Exception>)
      requires Valid()
      modifies this`filters, this`limits, this`restartDate, formatter
      ensures Valid() && Fixed() == old(Fixed())
      ensures (Snap(), err) == FormatAndSettings(old(Snap()), o)
    {
      ghost var s1 := Snap();
      match FormatEntries(Arg(o, "format")) {
        case None =>
        case Some(d) =>
          if !FormatterKeys(d) {
            return Some(TypeError);
          }
          formatter.Configure(Lookup(d, "record", NoneV), Lookup(d, "error", NoneV), Lookup(d, "length", NoneV),
                              Lookup(d, "div", NoneV));
      }
      assert Snap() == s1.(cfg := s1.cfg.(fmt := formatter.Snap()));
      ConfigureSettings(o);
      err := None;
    }

    method ConfigureSettings(o: Options)
      requires Valid()
      modifies this`filters, this`limits, this`restartDate
      ensures Valid() && Fixed() == old(Fixed())
      ensures Snap() == ApplySettings(old(Snap()), o)
    {
      ConfigureFilters(o);
      limits := SetLimits(limits, o);
      if IsInt(Arg(o, "maxdays")) {
        restartDate := Some(Clock.AddDays(start, AsInt(limits.maxdays)));
      }
    }
  }

  // ---- properties ----------------------------------------------------------

  /**
   * A record is written iff its type passes the filters: a filtered type
   * changes nothing; a passing type is built and goes through `write`.
   */
  lemma RecordIffPasses(env: Env, cfg: Config, io: Io, rectype: string, message: Value, error: Value,
                        kwargs: map<string, Value>, now: int, site: Records.CallSite)
    requires !RecordClash(kwargs)
    ensures !Passes(cfg.filters, rectype) ==> RecordSpec(env, cfg, io, rectype, message, error, kwargs, now, site) == (io, None)
    ensures Passes(cfg.filters, rectype) ==>
      var c := Records.Construct(env.rectypes, cfg.fmt, rectype, message, error, kwargs, now, site);
      RecordSpec(env, cfg, io, rectype, message, error, kwargs, now, site)
        == if c.Raise? then (io, Some(c.exc)) else WriteSpec(env, cfg, io, Outputs.RecordEntry(c.value), now)
  {
  }

  /** What the filter loop stores: a `bool` argument for a listed type, the old entry otherwise. */
  lemma {:induction false} SetFiltersRule(f: map<string, bool>, names: seq<string>, o: Options, t: string)
    ensures var r := SetFilters(f, names, o);
      (t in r <==> t in f || (t in names && Arg(o, t).BoolV?))
      && (t in r ==> r[t] == if t in names && Arg(o, t).BoolV? then Arg(o, t).b else f[t])
    decreases |names|
  {
    if names != [] {
      var v := Arg(o, names[0]);
      var f1 := if v.BoolV? then f[names[0] := v.b] else f;
      SetFiltersRule(f1, names[1..], o, t);
      assert t in names <==> t == names[0] || t in names[1..];
    }
  }

  /** By default every record type passes except `debug`; unlisted types always pass. */
  lemma DefaultFiltersDropOnlyDebug(rectype: string)
    ensures Passes(SetFilters(map[], FilterNames, Defaults), rectype) <==> rectype != "debug"
  {
    SetFiltersRule(map[], FilterNames, Defaults, rectype);
    assert rectype in FilterNames <==> rectype in {"info", "debug", "error", "warning", "critical"};
  }

  /** The filters, limits and restart date of a configuration with no argument of an accepted type are unchanged. */
  lemma {:induction false} NoneLeavesFilters(f: map<string, bool>, names: seq<string>, o: Options)
    requires forall k :: k in o ==> !o[k].BoolV?
    ensures SetFilters(f, names, o) == f
    decreases |names|
  {
    if names != [] {
      NoneLeavesFilters(f, names[1..], o);
    }
  }

  /** `configure()` with no arguments changes nothing. */
  lemma ConfigureNothing(s: State)
    ensures ConfigureSpec(s, map[]) == (s, None)
  {
    var o: Options := map[];
    var s1 := s.(cfg := SetInfo(s.cfg, o));
    assert s1 == s;
    ToggleNothing(s, SinkNames, o);
    assert ConfigureSpec(s, o) == PathAndSettings(s, o);
    PathAndSettingsNothing(s);
  }

  lemma PathAndSettingsNothing(s: State)
    ensures PathAndSettings(s, map[]) == (s, None)
  {
    var o: Options := map[];
    var f := s.io.root.file;
    assert Outputs.FileConfigure(f, NoneV, NoneV, NoneV, s.io.start) == (f, None);
    assert s.io.root.(file := f) == s.io.root;
    NoneLeavesFilters(s.cfg.filters, FilterNames, o);
    assert SetLimits(s.cfg.limits, o) == s.cfg.limits;
  }

  lemma {:induction false} ToggleNothing(s: State, sinks: seq<string>, o: Options)
    requires forall k :: k in sinks ==> k !in o
    ensures TogglesSpec(s, sinks, o) == (s, None)
    decreases |sinks|
  {
    if sinks != [] {
      ToggleNothing(s, sinks[1..], o);
    }
  }

  /** With disjoint keywords each keyword of the merge comes from the call that has it. */
  lemma ArgDisjoint(o1: Options, o2: Options, k: string)
    requires o1.Keys !! o2.Keys
    ensures Arg(o1 + o2, k) == if k in o2 then Arg(o2, k) else Arg(o1, k)
    ensures k in o2 ==> Arg(o1, k) == NoneV
    ensures k in o1 ==> Arg(o2, k) == NoneV
  {
  }

  lemma FiltersAddUp(f: map<string, bool>, o1: Options, o2: Options)
    requires o1.Keys !! o2.Keys
    ensures SetFilters(SetFilters(f, FilterNames, o1), FilterNames, o2) == SetFilters(f, FilterNames, o1 + o2)
  {
    var a := SetFilters(SetFilters(f, FilterNames, o1), FilterNames, o2);
    var b := SetFilters(f, FilterNames, o1 + o2);
    forall t | true
      ensures (t in a <==> t in b) && (t in a ==> a[t] == b[t])
    {
      ArgDisjoint(o1, o2, t);
      SetFiltersRule(f, FilterNames, o1, t);
      SetFiltersRule(SetFilters(f, FilterNames, o1), FilterNames, o2, t);
      SetFiltersRule(f, FilterNames, o1 + o2, t);
    }
    assert a == b;
  }

  /**
   * The settings `configure` stores keep a value unless the argument has
   * the accepted type, so two calls with different keywords add up: the
   * second does not clobber the first.
   */
  lemma SettingsAddUp(s: State, o1: Options, o2: Options)
    requires o1.Keys !! o2.Keys
    ensures ApplySettings(ApplySettings(s, o1), o2) == ApplySettings(s, o1 + o2)
  {
    FiltersAddUp(s.cfg.filters, o1, o2);
    LimitsAddUp(s.cfg.limits, o1, o2);
    RestartDateAddsUp(s.io.restartDate, s.io.start, o1, o2);
  }

  lemma LimitsAddUp(l: Limits, o1: Options, o2: Options)
    requires o1.Keys !! o2.Keys
    ensures SetLimits(SetLimits(l, o1), o2) == SetLimits(l, o1 + o2)
  {
    ArgDisjoint(o1, o2, "maxsize");
    ArgDisjoint(o1, o2, "maxdays");
    ArgDisjoint(o1, o2, "maxlevel");
    ArgDisjoint(o1, o2, "maxerrors");
    ArgDisjoint(o1, o2, "alarming");
    ArgDisjoint(o1, o2, "control");
  }

  lemma RestartDateAddsUp(current: Option<int>, start: int, o1: Options, o2: Options)
    requires o1.Keys !! o2.Keys
    ensures NewRestartDate(NewRestartDate(current, start, o1), start, o2) == NewRestartDate(current, start, o1 + o2)
  {
    ArgDisjoint(o1, o2, "maxdays");
  }

  /** Applying the same settings twice is applying them once. */
  lemma SettingsIdempotent(s: State, o: Options)
    ensures ApplySettings(ApplySettings(s, o), o) == ApplySettings(s, o)
  {
    var f := SetFilters(s.cfg.filters, FilterNames, o);
    var g := SetFilters(f, FilterNames, o);
    forall t | true
      ensures (t in g <==> t in f) && (t in g ==> g[t] == f[t])
    {
      SetFiltersRule(s.cfg.filters, FilterNames, o, t);
      SetFiltersRule(f, FilterNames, o, t);
    }
    assert g == f;
  }

  /** `app` and `desc` change only for strings, `version` for strings and numbers. */
  lemma InfoTypeRules(cfg: Config, o: Options)
    ensures SetInfo(cfg, o).app == if Arg(o, "app").StrV? then Arg(o, "app") else cfg.app
    ensures SetInfo(cfg, o).desc == if Arg(o, "desc").StrV? then Arg(o, "desc") else cfg.desc
    ensures SetInfo(cfg, o).version == if Arg(o, "version").StrV? || IsInt(Arg(o, "version")) then Arg(o, "version") else cfg.version
    ensures SetInfo(cfg, o).(app := cfg.app, desc := cfg.desc, version := cfg.version) == cfg
  {
  }

  /** Limits change only for numbers (and `bool`s), the switches only for `bool`s; `maxdays` also moves the restart date. */
  lemma LimitTypeRules(s: State, o: Options)
    ensures var l := ApplySettings(s, o).cfg.limits;
      (l.maxsize == if IsInt(Arg(o, "maxsize")) then Arg(o, "maxsize") else s.cfg.limits.maxsize)
      && (l.maxdays == if IsInt(Arg(o, "maxdays")) then Arg(o, "maxdays") else s.cfg.limits.maxdays)
      && (l.alarming == if Arg(o, "alarming").BoolV? then Arg(o, "alarming") else s.cfg.limits.alarming)
      && (l.control == if Arg(o, "control").BoolV? then Arg(o, "control") else s.cfg.limits.control)
    ensures ApplySettings(s, o).io.restartDate
      == if IsInt(Arg(o, "maxdays")) then Some(Clock.AddDays(s.io.start, AsInt(Arg(o, "maxdays")))) else s.io.restartDate
  {
  }

  // errors

  /** `error` after its keywords bind: the counters move whatever happens. */
  lemma {:induction false} ConcludeKeepsCounters(env: Env, s: State, alarming: Value, level: int)
    ensures var t := ConcludeSpec(env, s, alarming, level).0;
      t.count == s.count && t.withError == s.withError && t.cfg == s.cfg
  {
  }

  /**
   * Every `error` call counts exactly one error and sets the error flag,
   * even when its records are filtered out or fail; keywords that clash
   * with its parameters stop it before anything changes.
   */
  lemma ErrorCountsOnce(env: Env, s: State, message: Value, rectype: string, format: Value, alarming: Value, level: int,
                        kwargs: map<string, Value>, exc: ExcInfo, cwd: string, now: int, site: Records.CallSite)
    ensures var t := ErrorSpec(env, s, message, rectype, format, alarming, level, kwargs, exc, cwd, now, site);
      if ErrorClash(kwargs) then t == (s, Some(TypeError))
      else t.0.count == s.count + 1 && t.0.withError && t.0.cfg == s.cfg
  {
    var t := ErrorSpec(env, s, message, rectype, format, alarming, level, kwargs, exc, cwd, now, site);
    if !ErrorClash(kwargs) {
      var s1 := s.(withError := true, count := s.count + 1);
      assert t == LaidOutSpec(env, s1, message, rectype, format, alarming, level, kwargs, exc, cwd, now, site);
      LaidOutKeepsCounters(env, s.(withError := true, count := s.count + 1), message, rectype, format, alarming,
        level, kwargs, exc, cwd, now, site);
    }
  }

  lemma LaidOutKeepsCounters(env: Env, s: State, message: Value, rectype: string, format: Value, alarming: Value,
                             level: int, kwargs: map<string, Value>, exc: ExcInfo, cwd: string, now: int,
                             site: Records.CallSite)
    ensures var t := LaidOutSpec(env, s, message, rectype, format, alarming, level, kwargs, exc, cwd, now, site).0;
      t.count == s.count && t.withError == s.withError && t.cfg == s.cfg
  {
    if !(format == NoneV && s.cfg.fmt.error == NoneV) {
      var layout := if format == NoneV then s.cfg.fmt.error else format;
      CountedKeepsCounters(env, s, message, rectype, layout, alarming, level, kwargs, exc, cwd, now, site);
    }
  }

  lemma CountedKeepsCounters(env: Env, s: State, message: Value, rectype: string, layout: Value, alarming: Value,
                             level: int, kwargs: map<string, Value>, exc: ExcInfo, cwd: string, now: int,
                             site: Records.CallSite)
    ensures var t := CountedSpec(env, s, message, rectype, layout, alarming, level, kwargs, exc, cwd, now, site).0;
      t.count == s.count && t.withError == s.withError && t.cfg == s.cfg
  {
    var (io, err) := ErrorRecordsSpec(env, s.cfg, s.io, message, rectype, layout, kwargs, exc, cwd, now, site);
    ConcludeKeepsCounters(env, s.(io := io), alarming, level);
  }

  lemma {:induction false} FrameCallAt(name: string, value: Value, message: Value, frames: seq<TraceFrame>,
                                       kwargs: map<string, Value>, cwd: string, i: int)
    requires 0 <= i < |frames|
    ensures FrameCalls(name, value, message, frames, kwargs, cwd)[i]
      == Call(message, BoolV(true), FrameFields(name, value, frames[i], cwd) + kwargs)
    decreases i
  {
    if i > 0 {
      FrameCallAt(name, value, message, frames[1..], kwargs, cwd, i - 1);
      assert frames[1..][i - 1] == frames[i];
    }
  }

  /**
   * With an active exception, no message and a string layout, `error`
   * makes exactly one record call per traceback frame, the `i`-th carrying
   * the `i`-th frame's absolute file, line and function next to the
   * caller's keywords.
   */
  lemma OneRecordPerFrame(message: Value, layout: Value, kwargs: map<string, Value>, exc: ExcInfo, cwd: string, i: int)
    requires message == NoneV && exc.Active? && layout.StrV?
    requires "error" !in kwargs && kwargs.Keys * FrameKeys == {}
    requires 0 <= i < |exc.frames|
    ensures ErrorCalls(message, layout, kwargs, exc, cwd).Ok?
    ensures |ErrorCalls(message, layout, kwargs, exc, cwd).value| == |exc.frames|
    ensures var c := ErrorCalls(message, layout, kwargs, exc, cwd).value[i];
      c.kwargs.Keys == FrameKeys + kwargs.Keys && c.message == NoneV && c.error == BoolV(true)
      && c.kwargs["err_name"] == StrV(exc.name) && c.kwargs["err_value"] == exc.value
      && c.kwargs["err_file"] == StrV(Abspath(cwd, exc.frames[i].file))
      && c.kwargs["err_line"] == IntV(exc.frames[i].line) && c.kwargs["err_obj"] == StrV(exc.frames[i].obj)
      && (forall k :: k in kwargs ==> k in c.kwargs && c.kwargs[k] == kwargs[k])
  {
    var calls := FrameCalls(exc.name, exc.value, NoneV, exc.frames, kwargs, cwd);
    assert ErrorCalls(message, layout, kwargs, exc, cwd).value == calls;
    FrameCallAt(exc.name, exc.value, NoneV, exc.frames, kwargs, cwd, i);
    var f := FrameFields(exc.name, exc.value, exc.frames[i], cwd);
    var m := f + kwargs;
    assert calls[i] == Call(NoneV, BoolV(true), m);
    assert forall k :: k in FrameKeys ==> k !in kwargs && m[k] == f[k] by {
      forall k | k in FrameKeys
        ensures k !in kwargs
      {
        assert k !in kwargs.Keys * FrameKeys;
      }
    }
  }

  /**
   * The other shapes: layout `False` gives one record of a newline and the
   * formatted trace; no exception or a message gives one record of
   * `message or ''`; any other layout gives none.
   */
  lemma SingleErrorRecord(message: Value, layout: Value, kwargs: map<string, Value>, exc: ExcInfo, cwd: string)
    ensures var error := if "error" in kwargs then kwargs["error"] else BoolV(false);
      var calls := ErrorCalls(message, layout, kwargs, exc, cwd);
      (message == NoneV && exc.Active? && layout == BoolV(false) ==>
         calls == Ok([Call(StrV("\n" + exc.trace), error, kwargs - {"error"})]))
      && (message == NoneV && exc.Active? && !layout.StrV? && layout != BoolV(false) ==> calls == Ok([]))
      && (message != NoneV || exc.NoException? ==> calls == Ok([Call(Or(message, StrV("")), error, kwargs - {"error"})]))
  {
  }

  /**
   * With control on, a call exits iff its level reaches `maxlevel`, or
   * `maxerrors` is not `False` and the count is above it; with control
   * off it never exits.
   */
  lemma ControlRule(l: Limits, level: int, count: nat)
    ensures l.control == BoolV(false) ==> Control(l, level, count) == Ok(false)
    ensures l.control == BoolV(true) && IsInt(l.maxlevel) && IsInt(l.maxerrors) ==>
      Control(l, level, count)
        == Ok(level >= AsInt(l.maxlevel) || (l.maxerrors != BoolV(false) && count > AsInt(l.maxerrors)))
  {
  }

  /** With the default limits `warning` (level 0) and `error` (level 1) go on; `critical` (level 2) exits. */
  lemma DefaultLevels(count: nat)
    ensures var l := SetLimits(BlankLimits, Defaults);
      Control(l, 0, count) == Ok(false) && Control(l, 1, count) == Ok(false) && Control(l, 2, count) == Ok(true)
  {
  }

  /**
   * The alarm of `error` goes out only when the call did not exit and
   * `alarming=True` was passed; an exit leaves the email untouched.
   */
  lemma AlarmOnlyWithoutExit(env: Env, s: State, alarming: Value, level: int)
    ensures ConcludeSpec(env, s, alarming, level).0.email != s.email ==>
      alarming == BoolV(true) && Control(s.cfg.limits, level, s.count) == Ok(false)
    ensures alarming == BoolV(true) && Control(s.cfg.limits, level, s.count) == Ok(false) ==>
      ConcludeSpec(env, s, alarming, level) == AlarmSpec(env, s)
    ensures Control(s.cfg.limits, level, s.count) == Ok(true) ==> ConcludeSpec(env, s, alarming, level) == (s, Some(SystemExit))
  {
  }

  /** At exit an alarm is sent iff alarming is on and an error happened. */
  lemma ExitAlarmsIff(env: Env, s: State)
    requires s.cfg.limits.alarming.BoolV?
    ensures ExitSpec(env, s) == if s.cfg.limits.alarming == BoolV(true) && s.withError then AlarmSpec(env, s) else (s, None)
  {
  }

  /**
   * An alarm on an open email sink with recipients adds exactly one
   * message: the application in the subject, the header as preformatted
   * text, the log file attached when the file sink is open; the header is
   * then used.
   */
  lemma AlarmSendsOne(env: Env, s: State)
    requires s.email.status && s.email.recipients && HeaderText(env, s.cfg).Ok?
    requires s.io.root.file.status ==> FilePath(s.io).Some?
    ensures var t := AlarmSpec(env, s).0;
      t.email.sent == s.email.sent + [Outputs.Alarm("ALARM in " + Str(s.cfg.app) + "!", "<pre>" + HeaderText(env, s.cfg).value + "</pre>",
                                                    if s.io.root.file.status then FilePath(s.io) else None)]
      && t.io.headerUsed && AlarmSpec(env, s).1.None?
  {
  }

  /**
   * Without `recipients` (an email sink never configured with an address)
   * the alarm on an open sink still creates the header, marking it used,
   * but raises `AttributeError` and sends nothing.
   */
  lemma AlarmWithoutRecipients(env: Env, s: State)
    requires s.email.status && !s.email.recipients && HeaderText(env, s.cfg).Ok?
    requires s.io.root.file.status ==> FilePath(s.io).Some?
    ensures AlarmSpec(env, s) == (s.(io := s.io.(headerUsed := true)), Some(AttributeError("recipients")))
  {
  }

  // rotation

  /** Nothing is due: the check leaves the state alone (at most it reports a missing attribute). */
  lemma NotDueNoRestart(env: Env, cfg: Config, io: Io, now: int)
    requires !Due(cfg, io, now)
    ensures CheckSpec(env, cfg, io, now).0 == io
  {
  }

  /**
   * The check runs only while the file is open; a file whose `new()` never
   * ran raises on its `_size` unless `maxsize` is `False`; a size above
   * `maxsize` restarts once and skips the age check; otherwise a restart
   * date on today's day of the month restarts.
   */
  lemma CheckRules(env: Env, cfg: Config, io: Io, now: int)
    ensures !io.root.file.status ==> CheckSpec(env, cfg, io, now) == (io, None)
    ensures io.root.file.status && IsInt(cfg.limits.maxsize) && SizeMissing(cfg, io) ==>
      CheckSpec(env, cfg, io, now) == (io, Some(AttributeError("_size")))
    ensures io.root.file.status && !SizeMissing(cfg, io) && SizeDue(cfg, io) ==> CheckSpec(env, cfg, io, now) == RestartSpec(env, cfg, io, now)
    ensures io.root.file.status && IsInt(cfg.limits.maxsize) && !SizeMissing(cfg, io) && !SizeDue(cfg, io) && DayDue(cfg, io, now) ==>
      CheckSpec(env, cfg, io, now) == RestartSpec(env, cfg, io, now)
    ensures IsInt(cfg.limits.maxsize) && IsInt(cfg.limits.maxdays) && io.restartDate.Some? && !SizeMissing(cfg, io) && !Due(cfg, io, now) ==>
      CheckSpec(env, cfg, io, now) == (io, None)
  {
  }

  /**
   * `restart()` starts now, puts the restart date `maxdays` days later and
   * re-paths the open file; the header comes again iff it was created
   * before, once, into the new file, unless the new state is due at once.
   */
  lemma RestartRules(env: Env, cfg: Config, io: Io, now: int)
    requires IsInt(cfg.limits.maxdays)
    ensures var (io3, err) := Rotated(cfg, io, now);
      io3.start == now && io3.restartDate == Some(Clock.AddDays(now, AsInt(cfg.limits.maxdays)))
      && (err.None? && !io.headerUsed ==> RestartSpec(env, cfg, io, now) == (io3, None))
      && (err.None? && io.headerUsed && !Due(cfg, io3, now) ==> RestartSpec(env, cfg, io, now) == HeadSpec(env, cfg, io3, now))
  {
  }

  /**
   * An open file sink whose `new()` never ran (switched on without a path,
   * or whose `new()` raised) fails the check on `_size`: the write raises
   * before anything reaches the console or the file.
   */
  lemma UnpreparedFileRaises(env: Env, cfg: Config, io: Io, e: Outputs.Entry, now: int)
    requires io.root.file.status && IsInt(cfg.limits.maxsize) && SizeMissing(cfg, io)
    ensures WriteSpec(env, cfg, io, e, now) == (io, Some(AttributeError("_size")))
  {
  }

  /** A write with nothing due and no attribute missing goes straight to the root. */
  lemma WriteWhenSettled(env: Env, cfg: Config, io: Io, e: Outputs.Entry, now: int)
    requires !Due(cfg, io, now) && CheckSpec(env, cfg, io, now).1.None?
    ensures var (r, err) := Outputs.RootWrite(io.root, e, now);
      WriteSpec(env, cfg, io, e, now) == (io.(root := r), err)
  {
    NotDueNoRestart(env, cfg, io, now);
  }

  /**
   * A write past `maxsize` first rotates (new start, new restart date, new
   * path, no handle or size), then writes the entry to the new file.
   */
  lemma SizeRotationWritesNewFile(env: Env, cfg: Config, io: Io, e: Outputs.Entry, now: int)
    requires io.root.file.status && SizeDue(cfg, io) && IsInt(cfg.limits.maxdays) && !io.headerUsed
    requires !io.root.file.handler.Unset?  // a measured file has been through `new()`
    requires Outputs.FileNew(io.root.file, now).1.None?
    ensures var io3 := Rotated(cfg, io, now).0;
      var (r, err) := Outputs.RootWrite(io3.root, e, now);
      WriteSpec(env, cfg, io, e, now) == (io3.(root := r), err)
      && io3.root.file.handler == Outputs.NoHandler && io3.root.file.size.None?
  {
    var io3 := Rotated(cfg, io, now).0;
    assert RestartSpec(env, cfg, io, now) == (io3, None);
    assert CheckSpec(env, cfg, io, now) == (io3, None);
  }

  /**
   * With `maxdays` 0 the restart date is always today, so a restart with
   * the header in use calls itself again through `head`, `write` and the
   * check until the interpreter stops it.
   */
  lemma ZeroDaysHeaderRecurses(env: Env, cfg: Config, io: Io, now: int)
    requires cfg.limits.maxdays == IntV(0) && IsInt(cfg.limits.maxsize)
    requires io.root.file.status && io.headerUsed
    requires Outputs.FileNew(io.root.file, now).1.None? && HeaderText(env, cfg).Ok?
    ensures RestartSpec(env, cfg, io, now).1 == Some(RecursionError)
  {
    var (io3, err) := Rotated(cfg, io, now);
    assert AsInt(cfg.limits.maxdays) == 0;
    assert Clock.AddDays(now, 0) == now;
    assert err.None? && io3.headerUsed && io3.restartDate == Some(now);
    assert io3.root.file.status;
    assert Due(cfg, io3, now) by { assert DayDue(cfg, io3, now); }
    assert Rotated(cfg, io, now) == (io3, None);
    assert !HeaderText(env, cfg).Raise?;
  }

  // ---- properties: text blocks ----------------------------------------------

  /**
   * Python's `*` on the divider and the length: a string repeated by an
   * integer in either order, or a number.  `bound()` can add its newline
   * only to a string; `subhead()` formats a number as its digits.
   */
  lemma BorderRules(fmt: Formatters.Settings)
    ensures fmt.div == NoneV ==> Border(fmt) == SubheadBorder(fmt) == Raise(AttributeError("div"))
    ensures fmt.div != NoneV && fmt.length == NoneV ==> Border(fmt) == SubheadBorder(fmt) == Raise(AttributeError("length"))
    ensures fmt.div.StrV? && IsInt(fmt.length) ==>
      Border(fmt) == SubheadBorder(fmt) == Ok(Repeat(fmt.div.s, AsInt(fmt.length)))
    ensures IsInt(fmt.div) && fmt.length.StrV? ==>
      Border(fmt) == SubheadBorder(fmt) == Ok(Repeat(fmt.length.s, AsInt(fmt.div)))
    ensures IsInt(fmt.div) && IsInt(fmt.length) ==>
      Border(fmt) == Raise(TypeError) && SubheadBorder(fmt) == Ok(Str(IntV(AsInt(fmt.div) * AsInt(fmt.length))))
    ensures (fmt.div != NoneV && fmt.length != NoneV && !(fmt.div.StrV? && IsInt(fmt.length))
             && !(IsInt(fmt.div) && (fmt.length.StrV? || IsInt(fmt.length)))) ==>
      Border(fmt) == SubheadBorder(fmt) == Raise(TypeError)
  {
  }

  /** A numeric divider: `bound()` fails while `subhead()` frames its text with the product's digits. */
  lemma NumericDivider(record: Value, error: Value)
    ensures var fmt := Formatters.Settings(record, error, IntV(80), IntV(2));
      Border(fmt) == Raise(TypeError) && SubheadBorder(fmt) == Ok("160")
  {
    var fmt := Formatters.Settings(record, error, IntV(80), IntV(2));
    assert Product(fmt) == Ok(IntV(160));
    assert Clock.Digits(1) == "1";
    assert Clock.Digits(16) == Clock.Digits(1) + [Clock.DigitChar(6)] == "16";
    assert Clock.Digits(160) == Clock.Digits(16) + [Clock.DigitChar(0)] == "160";
    assert Decimal(160) == "160";
  }

  /**
   * With nothing due, `subhead(text)` is a single write of the border, the
   * text on a tabbed line and the border again, upper-cased as a whole.
   */
  lemma SubheadOneWrite(env: Env, cfg: Config, io: Io, text: Value, now: int)
    requires !Due(cfg, io, now) && CheckSpec(env, cfg, io, now).1.None?
    ensures match SubheadBorder(cfg.fmt)
      case Raise(x) => SubheadSpec(env, cfg, io, text, now) == (io, Some(x))
      case Ok(b) =>
        var (r, err) := Outputs.RootWrite(io.root, Outputs.Text(Upper(b + "\n\t" + Str(text) + "\n" + b + "\n")), now);
        SubheadSpec(env, cfg, io, text, now) == (io.(root := r), err)
  {
    match SubheadBorder(cfg.fmt)
    case Raise(x) =>
    case Ok(b) =>
      var e := Outputs.Text(Upper(b + "\n\t" + Str(text) + "\n" + b + "\n"));
      SubheadBlock(b, Str(text));
      assert SubheadSpec(env, cfg, io, text, now) == WriteSpec(env, cfg, io, e, now);
      WriteWhenSettled(env, cfg, io, e, now);
  }

  /** The subhead's block is the border line, the tabbed text line and the border line. */
  lemma SubheadBlock(border: string, text: string)
    ensures SubheadText(border, text) == Upper(border + "\n\t" + text + "\n" + border + "\n")
  {
    assert border + "\n" + "\t" == border + "\n\t";
  }
}
