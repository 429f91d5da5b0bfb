/**
 * The logger of the intermediate revision.  It dispatches records through
 * the same kind of output root as the newest revision, rotates the log file
 * before every write, counts errors and stops the program on serious ones,
 * but it differs in the details this module is about:
 *  - the application's name, description and version are fixed when the
 *    logger is built; `configure` toggles the console, file, email, HTML
 *    and `db` sinks, and accepts (and ignores) `status` and `table`;
 *  - opening the file sink does not choose a new path;
 *  - `error` falls back to the configured `alarming`, puts the caller's
 *    message on every traceback frame's record, and sends the alarm
 *    BEFORE the control policy decides whether to exit;
 *  - `restart` refreshes the header's local time before writing it again.
 *
 * The logger's collaborators whose own files do not fit it are abstract
 * here: the output root is the newest revision's root, and a record is
 * whatever the injected renderer makes of the record call; the system
 * description is the table of values the header copies and a clock-driven
 * local time that `sysinfo.process()` leaves behind.
 *
 * One call reads the clock once: every `datetime.now()` inside it is `now`.
 */
module PypyrusLoggers {
  import opened Python
  import opened OrderedDict
  import Clock
  import Formatters
  import Headers
  import Outputs
  import Loggers

  // ---- state -------------------------------------------------------------

  /**
   * What a write can change: the start and restart timestamps, the sinks
   * that receive text, the header's entries (refreshed by `restart`) and
   * whether the header has been created.
   */
  datatype Io = Io(start: int, restartDate: Option<int>, root: Outputs.RootState, header: Dict<Headers.Item>,
                   headerUsed: bool)

  datatype State = State(cfg: Loggers.Config, io: Io, withError: bool, count: nat, email: Outputs.EmailState,
                         htmlOpen: bool)

  /** `Record(self, rectype, message, error=error, **kwargs)` rendered at the time given: its text or its exception. */
  type Renderer = (string, Value, Value, map<string, Value>, int) -> Result<string>

  /**
   * What no modelled call changes: the record renderer, the local time a
   * `sysinfo.process()` at a given moment stores, and the header's line
   * length and divider (copied from the formatter when the header is built).
   */
  datatype Env = Env(render: Renderer, loctime: int -> Value, length: Value, div: Value)

  /** The header block from the current entries (its name column is the longest name plus 3). */
  function HeaderText(env: Env, cfg: Loggers.Config, io: Io): Result<string>
  {
    Headers.Created(io.header, env.length, env.div, 3, Headers.Context(cfg.app, cfg.desc, cfg.version, map[]))
  }

  /** The part of the state the newest revision's rotation rules read. */
  function Core(io: Io): Loggers.Io
  {
    Loggers.Io(io.start, io.restartDate, io.root, io.headerUsed)
  }

  // ---- rotation ----------------------------------------------------------

  /** The check restarts the logger: the same size and day rules as the newest revision. */
  predicate Due(cfg: Loggers.Config, io: Io, now: int)
  {
    Loggers.Due(cfg, Core(io), now)
  }

  function Rank(cfg: Loggers.Config, io: Io, now: int): nat
  {
    if Due(cfg, io, now) then 1 else 0
  }

  /** `_check()`: size first, then the day; either restarts and ends the check. */
  function CheckSpec(env: Env, cfg: Loggers.Config, io: Io, now: int): (Io, Option<Exception>)
    decreases Rank(cfg, io, now), 2
  {
    var l := cfg.limits;
    if !io.root.file.status then (io, None)
    else if !IsInt(l.maxsize) then (io, Some(AttributeError("_maxsize")))
    else if Loggers.SizeMissing(cfg, Core(io)) then (io, Some(AttributeError("_size")))
    else if Loggers.SizeDue(cfg, Core(io)) then RestartSpec(env, cfg, io, now)
    else if !IsInt(l.maxdays) then (io, Some(AttributeError("_maxdays")))
    else if l.maxdays == BoolV(false) then (io, None)
    else if io.restartDate.None? then (io, Some(AttributeError("_Logger__restart_timestamp")))
    else if Clock.DayOfMonth(io.restartDate.value) == Clock.DayOfMonth(now) then RestartSpec(env, cfg, io, now)
    else (io, None)
  }

  /** The part of `restart()` before the header: new timestamps, and a new path if the file is open. */
  function Rotated(cfg: Loggers.Config, io: Io, now: int): (Io, Option<Exception>)
    requires IsInt(cfg.limits.maxdays)
  {
    var (f, err) := Outputs.FileNew(io.root.file, now);
    (io.(start := now, restartDate := Some(Clock.AddDays(now, AsInt(cfg.limits.maxdays))), root := io.root.(file := f)), err)
  }

  /**
   * `restart()`: a new start timestamp, the restart timestamp `maxdays`
   * days later, a new file path if the file is open, and, if the header
   * was created before, its local time refreshed and the header written
   * again.  When the refreshed state is due again at once, `restart`,
   * `head`, `write` and the check call each other on the same state until
   * the interpreter gives up: the result is `RecursionError`, unless
   * creating the header fails first.
   */
  function RestartSpec(env: Env, cfg: Loggers.Config, io: Io, now: int): (Io, Option<Exception>)
    decreases 1, 1
  {
    if !IsInt(cfg.limits.maxdays) then (io.(start := now), Some(AttributeError("_maxdays")))
    else
      var (io2, err) := Rotated(cfg, io, now);
      if err.Some? then (io2, err)
      else if !io2.headerUsed then (io2, None)
      else
        var io3 := io2.(header := Headers.Refreshed(io2.header, env.loctime(now)));
        if Due(cfg, io3, now) then
          (io3, Some(if HeaderText(env, cfg, io3).Raise? then HeaderText(env, cfg, io3).exc else RecursionError))
        else HeadSpec(env, cfg, io3, now)
  }

  /** `head()`: create the header (marking it used) and write it. */
  function HeadSpec(env: Env, cfg: Loggers.Config, io: Io, now: int): (Io, Option<Exception>)
    decreases Rank(cfg, io, now), 4
  {
    var io1 := io.(headerUsed := true);
    assert Rank(cfg, io1, now) == Rank(cfg, io, now);
    match HeaderText(env, cfg, io)
    case Raise(e) => (io1, Some(e))
    case Ok(text) => WriteSpec(env, cfg, io1, text, now)
  }

  /** `write(record)`: the check, then the root. */
  function WriteSpec(env: Env, cfg: Loggers.Config, io: Io, text: string, now: int): (Io, Option<Exception>)
    decreases Rank(cfg, io, now), 3
  {
    var (io1, err) := CheckSpec(env, cfg, io, now);
    if err.Some? then (io1, err)
    else
      var (r, err2) := Outputs.RootWrite(io1.root, Outputs.Text(text), now);
      (io1.(root := r), err2)
  }

  // ---- records -----------------------------------------------------------

  /** `record(rectype, message, error=error, **kwargs)`: a type the filters let through is rendered and written. */
  function RecordSpec(env: Env, cfg: Loggers.Config, io: Io, rectype: string, message: Value, error: Value,
                      kwargs: map<string, Value>, now: int): (Io, Option<Exception>)
  {
    if Loggers.RecordClash(kwargs) then (io, Some(TypeError))
    else if !Loggers.Passes(cfg.filters, rectype) then (io, None)
    else match env.render(rectype, message, error, kwargs, now)
      case Raise(x) => (io, Some(x))
      case Ok(text) => WriteSpec(env, cfg, io, text, now)
  }

  // ---- errors ------------------------------------------------------------

  /**
   * The record calls `error` makes.  With an active exception: one per
   * traceback frame for a string layout, each carrying the caller's
   * message; one with the formatted trace for layout `False` (the message
   * is dropped); none for any other layout.  Without one: a single call
   * with `message or ''`.  A keyword that collides with the frame's own
   * keywords is a `TypeError` at the first frame.
   */
  function ErrorCalls(message: Value, layout: Value, kwargs: map<string, Value>, exc: Loggers.ExcInfo, cwd: string)
    : Result<seq<Loggers.Call>>
  {
    var error := if "error" in kwargs then kwargs["error"] else BoolV(false);
    var rest := kwargs - {"error"};
    if exc.Active? then
      if layout.StrV? then
        if exc.frames != [] && ("error" in kwargs || kwargs.Keys * Loggers.FrameKeys != {}) then Raise(TypeError)
        else Ok(Loggers.FrameCalls(exc.name, exc.value, message, exc.frames, kwargs, cwd))
      else if layout == BoolV(false) then Ok([Loggers.Call(StrV("\n" + exc.trace), error, rest)])
      else Ok([])
    else Ok([Loggers.Call(Or(message, StrV("")), error, rest)])
  }

  /** The calls one after another; the first exception stops the rest. */
  function RunCalls(env: Env, cfg: Loggers.Config, io: Io, rectype: string, calls: seq<Loggers.Call>, now: int)
    : (Io, Option<Exception>)
    decreases |calls|
  {
    if calls == [] then (io, None)
    else
      var (io1, err) := RecordSpec(env, cfg, io, rectype, calls[0].message, calls[0].error, calls[0].kwargs, now);
      if err.Some? then (io1, err) else RunCalls(env, cfg, io1, rectype, calls[1..], now)
  }

  /** A single call is the record it makes. */
  lemma RunOne(env: Env, cfg: Loggers.Config, io: Io, rectype: string, c: Loggers.Call, now: int)
    ensures RunCalls(env, cfg, io, rectype, [c], now) == RecordSpec(env, cfg, io, rectype, c.message, c.error, c.kwargs, now)
  {
    assert [c][1..] == [];
  }

  /** The records `error` writes, or the exception that stops them. */
  function ErrorRecordsSpec(env: Env, cfg: Loggers.Config, io: Io, message: Value, rectype: string, layout: Value,
                            kwargs: map<string, Value>, exc: Loggers.ExcInfo, cwd: string, now: int)
    : (Io, Option<Exception>)
  {
    match ErrorCalls(message, layout, kwargs, exc, cwd)
    case Raise(x) => (io, Some(x))
    case Ok(calls) => RunCalls(env, cfg, io, rectype, calls, now)
  }

  /** `root.email.alarm()`, with this logger's header. */
  function AlarmSpec(env: Env, s: State): (State, Option<Exception>)
  {
    var (e, created, err) := Outputs.EmailAlarm(s.email, s.cfg.app, HeaderText(env, s.cfg, s.io), s.io.root.file.status,
                                                Loggers.FilePath(Core(s.io)));
    (s.(email := e, io := s.io.(headerUsed := s.io.headerUsed || created)), err)
  }

  /** The end of `error`: the alarm if asked for, then the control policy. */
  function ConcludeSpec(env: Env, s: State, alarming: Value, level: int): (State, Option<Exception>)
  {
    var (s1, err) := if alarming == BoolV(true) then AlarmSpec(env, s) else (s, None);
    if err.Some? then (s1, err)
    else match Loggers.Control(s1.cfg.limits, level, s1.count)
      case Raise(x) => (s1, Some(x))
      case Ok(abort) => (s1, if abort then Some(SystemExit) else None)
  }

  /** `error` once the error is counted and the layout and alarming chosen: the records, then the conclusion. */
  function CountedSpec(env: Env, s: State, message: Value, rectype: string, layout: Value, alarming: Value, level: int,
                       kwargs: map<string, Value>, exc: Loggers.ExcInfo, cwd: string, now: int)
    : (State, Option<Exception>)
  {
    var (io, err) := ErrorRecordsSpec(env, s.cfg, s.io, message, rectype, layout, kwargs, exc, cwd, now);
    if err.Some? then (s.(io := io), err) else ConcludeSpec(env, s.(io := io), alarming, level)
  }

  /**
   * `error(message, rectype, format, alarming, level, **kwargs)`: count the
   * error; take the formatter's error layout when no `format` is given and
   * the configured `alarming` when none is given; write the records, send
   * the alarm, then apply the control policy.
   */
  function ErrorSpec(env: Env, s: State, message: Value, rectype: string, format: Value, alarming: Value, level: int,
                     kwargs: map<string, Value>, exc: Loggers.ExcInfo, cwd: string, now: int)
    : (State, Option<Exception>)
  {
    if Loggers.ErrorClash(kwargs) then (s, Some(TypeError))
    else
      var s1 := s.(withError := true, count := s.count + 1);
      var layout := if format == NoneV then s.cfg.fmt.error else format;
      if alarming == NoneV && s.cfg.limits.alarming == NoneV then (s1, Some(AttributeError("_alarming")))
      else
        CountedSpec(env, s1, message, rectype, layout, if alarming == NoneV then s.cfg.limits.alarming else alarming,
                    level, kwargs, exc, cwd, now)
  }

  /** `warning(message, **kwargs)` and `critical(message, **kwargs)`: `error` with a fixed type and level. */
  function LeveledSpec(env: Env, s: State, message: Value, rectype: string, level: int, kwargs: map<string, Value>,
                       exc: Loggers.ExcInfo, cwd: string, now: int): (State, Option<Exception>)
  {
    if "self" in kwargs || "message" in kwargs || "rectype" in kwargs || "level" in kwargs then (s, Some(TypeError))
    else
      ErrorSpec(env, s, message, rectype, Loggers.Arg(kwargs, "format"), Loggers.Arg(kwargs, "alarming"), level,
                kwargs - {"format", "alarming"}, exc, cwd, now)
  }

  // ---- text blocks -------------------------------------------------------

  /** `bound()`: the border and a newline (the method's own arguments are ignored). */
  function BoundSpec(env: Env, cfg: Loggers.Config, io: Io, now: int): (Io, Option<Exception>)
  {
    match Loggers.Border(cfg.fmt)
    case Raise(x) => (io, Some(x))
    case Ok(b) => WriteSpec(env, cfg, io, b + "\n", now)
  }

  /** `subhead(text)`: a border, the upper-cased text on its own tabbed line, a border; three writes. */
  function SubheadSpec(env: Env, cfg: Loggers.Config, io: Io, text: Value, now: int): (Io, Option<Exception>)
  {
    var (io1, e1) := BoundSpec(env, cfg, io, now);
    if e1.Some? then (io1, e1)
    else
      var (io2, e2) := WriteSpec(env, cfg, io1, Upper("\t" + Str(text) + "\n"), now);
      if e2.Some? then (io2, e2) else BoundSpec(env, cfg, io2, now)
  }

  /** `blank(number)`. */
  function BlankSpec(env: Env, cfg: Loggers.Config, io: Io, number: int, now: int): (Io, Option<Exception>)
  {
    WriteSpec(env, cfg, io, Repeat("\n", number), now)
  }

  // ---- configuration -----------------------------------------------------

  /** The keywords `configure(...)` accepts: those of `Logger(...)` without the application's data. */
  const ConfigureParameters: set<string> := {
    "status", "console", "file", "email", "html", "table", "directory", "filename", "extension", "smtp", "db",
    "format", "info", "debug", "warning", "error", "critical", "alarming", "control", "maxsize", "maxdays",
    "maxlevel", "maxerrors"}

  /** The root attributes `configure` opens or closes, in its order; the root has no `db`. */
  const SinkNames: seq<string> := ["console", "file", "email", "html", "db"]

  /** The sinks the output root has among them. */
  predicate IsSink(sink: string)
  {
    sink == "console" || sink == "file" || sink == "email" || sink == "html"
  }

  /** The status of one sink set to `open`. */
  function SetSink(s: State, sink: string, open: bool): State
  {
    if sink == "console" then s.(io := s.io.(root := s.io.root.(console := s.io.root.console.(status := open))))
    else if sink == "file" then s.(io := s.io.(root := s.io.root.(file := s.io.root.file.(status := open))))
    else if sink == "email" then s.(email := s.email.(status := open))
    else s.(htmlOpen := open)
  }

  /** One step of the sink loop: `True` opens, `False` closes, anything else is ignored; a missing attribute raises. */
  function ToggleSpec(s: State, sink: string, v: Value): (State, Option<Exception>)
  {
    if !v.BoolV? then (s, None)
    else if IsSink(sink) then (SetSink(s, sink, v.b), None)
    else (s, Some(AttributeError(sink)))
  }

  function TogglesSpec(s: State, sinks: seq<string>, o: Loggers.Options): (State, Option<Exception>)
    decreases |sinks|
  {
    if sinks == [] then (s, None)
    else
      var (s1, err) := ToggleSpec(s, sinks[0], Loggers.Arg(o, sinks[0]));
      if err.Some? then (s1, err) else TogglesSpec(s1, sinks[1..], o)
  }

  /** The filters, the limits and the restart timestamp. */
  function ApplySettings(s: State, o: Loggers.Options): State
  {
    s.(cfg := s.cfg.(filters := Loggers.SetFilters(s.cfg.filters, Loggers.FilterNames, o),
                     limits := Loggers.SetLimits(s.cfg.limits, o)),
       io := s.io.(restartDate := Loggers.NewRestartDate(s.io.restartDate, s.io.start, o)))
  }

  /** `configure` after the file path: the formatter, then the settings. */
  function FormatAndSettings(s: State, o: Loggers.Options): (State, Option<Exception>)
  {
    match Loggers.FormatConfigured(s.cfg.fmt, Loggers.Arg(o, "format"))
    case Raise(x) => (s, Some(x))
    case Ok(fmt) => (ApplySettings(s.(cfg := s.cfg.(fmt := fmt)), o), None)
  }

  /** `configure` after the sink loop: the file path, then the formatter and the settings. */
  function PathAndSettings(s: State, o: Loggers.Options): (State, Option<Exception>)
  {
    var (f, err) := Outputs.FileConfigure(s.io.root.file, Loggers.Arg(o, "directory"), Loggers.Arg(o, "filename"),
                                          Loggers.Arg(o, "extension"), s.io.start);
    var s1 := s.(io := s.io.(root := s.io.root.(file := f)));
    if err.Some? then (s1, err) else FormatAndSettings(s1, o)
  }

  /**
   * `configure(**o)` on an existing logger: the sink loop, the file path,
   * the formatter, the filter loop and the limits, in that order; an
   * exception stops the rest.
   */
  function ConfigureSpec(s: State, o: Loggers.Options): (State, Option<Exception>)
  {
    if !(o.Keys <= ConfigureParameters) then (s, Some(TypeError))
    else
      var (s1, err) := TogglesSpec(s, SinkNames, o);
      if err.Some? then (s1, err) else PathAndSettings(s1, o)
  }

  /**
   * A new logger with the options `o` (the defaults already merged in),
   * the header entries `data` and the file sink `file`: the application's
   * data as given, the sinks with their statuses, the formatter, the
   * filters, the limits and the restart timestamp.
   */
  function Unconfigured(o: Loggers.Options, data: Dict<Headers.Item>, file: Outputs.FileState, disk: Outputs.Disk,
                        now: int): State
  {
    var d := Loggers.InitialEntries(Loggers.Arg(o, "format"));
    var fmt := Formatters.Initial(Formatters.IsotimeLayout, Loggers.Lookup(d, "record", NoneV), Loggers.Lookup(d, "error", NoneV),
                                  Loggers.Lookup(d, "length", IntV(80)), Loggers.Lookup(d, "div", StrV("*")));
    var cfg := Loggers.Config(Loggers.Arg(o, "app"), Loggers.Arg(o, "desc"), Loggers.Arg(o, "version"),
                              Loggers.SetFilters(map[], Loggers.FilterNames, o),
                              Loggers.SetLimits(Loggers.BlankLimits, o), fmt);
    var root := Outputs.RootState(Loggers.Arg(o, "status") == BoolV(true),
      Outputs.ConsoleState(Loggers.Arg(o, "console") == BoolV(true), ""), file, disk);
    State(cfg, Io(now, Loggers.NewRestartDate(None, now, o), root, data, false), false, 0,
          Outputs.EmailState(Loggers.Arg(o, "email") == BoolV(true), false, []), Loggers.Arg(o, "html") == BoolV(true))
  }

  /** `File(directory, filename, extension)` as the root builds it: the default path parts, configured. */
  function InitialFile(o: Loggers.Options, pyDir: string, now: int): (Outputs.FileState, Option<Exception>)
  {
    Outputs.FileInit(Loggers.BlankFile(o), Loggers.Arg(o, "directory"), Loggers.Arg(o, "filename"),
                     Loggers.Arg(o, "extension"), pyDir, now)
  }

  /**
   * `Logger(**kwargs)`: the defaults overridden by the keywords; the file
   * sink configured with its default path (whose errors come first), the
   * formatter's keywords checked, then the header's entries copied from
   * the system description, where a missing one is a `KeyError`.
   */
  function InitSpec(kwargs: Loggers.Options, disk: Outputs.Disk, pyDir: string, stat: map<string, Value>, now: int)
    : Result<State>
  {
    if !(kwargs.Keys <= Loggers.Parameters) then Raise(TypeError)
    else
      var o := Loggers.Defaults + kwargs;
      var (file, ferr) := InitialFile(o, pyDir, now);
      if ferr.Some? then Raise(ferr.value)
      else if !Loggers.FormatterKeys(Loggers.InitialEntries(Loggers.Arg(o, "format"))) then Raise(TypeError)
      else match Headers.StatItems(Headers.StatKeys, stat)
        case Raise(x) => Raise(x)
        case Ok(items) => Ok(Unconfigured(o, items, file, disk, now))
  }

  /** The header copies each of its keys once. */
  lemma StatItemsUnique(stat: map<string, Value>)
    ensures Headers.StatItems(Headers.StatKeys, stat).Ok? ==> Unique(Headers.StatItems(Headers.StatKeys, stat).value)
  {
    var k := Headers.StatKeys;
    forall i, j | 0 <= i < j < |k|
      ensures k[i] != k[j]
    {
      assert |k[i]| != |k[j]| || k[i][0] != k[j][0] || k[i][1] != k[j][1] || k[i][|k[i]| - 1] != k[j][|k[j]| - 1];
    }
    var r := Headers.StatItems(k, stat);
    if r.Ok? {
      forall i, j | 0 <= i < j < |r.value|
        ensures r.value[i].0 != r.value[j].0
      {
        assert Keys(r.value)[i] == r.value[i].0 && Keys(r.value)[j] == r.value[j].0;
      }
    }
  }

  // ---- the logger object ---------------------------------------------------

  class Logger {
    const app: Value
    const desc: Value
    const version: Value
    var start: int
    var restartDate: Option<int>
    var withError: bool
    var count: nat
    var filters: map<string, bool>
    var limits: Loggers.Limits
    const root: Outputs.Root
    const formatter: Formatters.Formatter
    const header: Headers.Header
    const render: Renderer
    const loctime: int -> Value

    predicate Valid()
      reads this, root, header
    {
      root.Valid() && header.Valid() && header.offset == 3
    }

    function Cfg(): Loggers.Config
      reads this, formatter
    {
      Loggers.Config(app, desc, version, filters, limits, formatter.Snap())
    }

    function IoSnap(): Io
      reads this, root, root.console, root.file, root.fs, header
    {
      Io(start, restartDate, root.Snap(), header.items, header.used)
    }

    function Snap(): State
      reads this, root, root.console, root.file, root.fs, root.email, root.html, header, formatter
    {
      State(Cfg(), IoSnap(), withError, count, root.email.Snap(), root.html.status)
    }

    function Fixed(): Env
      reads this, header
    {
      Env(render, loctime, header.length, header.div)
    }

    function Context(): Headers.Context
      reads this
    {
      Headers.Context(app, desc, version, map[])
    }

    /** The object `Logger.__init__` builds before the file sink is configured. */
    constructor (o: Loggers.Options, data: Dict<Headers.Item>, fs: Outputs.FileSystem, db: Outputs.Database,
                 render: Renderer, loctime: int -> Value, now: int)
      requires Unique(data)
      ensures Valid() && root.fs == fs && root.table.db == db
      ensures fresh(root) && fresh(formatter) && fresh(header)
      ensures fresh(root.console) && fresh(root.file) && fresh(root.email) && fresh(root.html) && fresh(root.table)
      ensures Snap() == Unconfigured(o, data, Loggers.BlankFile(o), fs.Snap(), now)
      ensures Fixed() == Env(render, loctime, Snap().cfg.fmt.length, Snap().cfg.fmt.div)
    {
      var u := Unconfigured(o, data, Loggers.BlankFile(o), fs.Snap(), now);
      app, desc, version := u.cfg.app, u.cfg.desc, u.cfg.version;
      start, restartDate := now, u.io.restartDate;
      withError, count := false, 0;
      filters, limits := u.cfg.filters, u.cfg.limits;
      this.render, this.loctime := render, loctime;
      root := new Outputs.Root(u.io.root.status, u.io.root.console.status, u.io.root.file.status, u.email.status,
                               u.htmlOpen, Loggers.Arg(o, "table") == BoolV(true), fs, db);
      var d := Loggers.InitialEntries(Loggers.Arg(o, "format"));
      formatter := new Formatters.Formatter.Isotime(Loggers.Lookup(d, "record", NoneV), Loggers.Lookup(d, "error", NoneV),
                                                    Loggers.Lookup(d, "length", IntV(80)), Loggers.Lookup(d, "div", StrV("*")));
      header := new Headers.Header.Legacy(data, u.cfg.fmt.length, u.cfg.fmt.div);
    }

    /** `Logger(**kwargs)` given the system description's values: `null` and the exception when construction fails. */
    static method Create(kwargs: Loggers.Options, fs: Outputs.FileSystem, db: Outputs.Database, pyDir: string,
                         stat: map<string, Value>, render: Renderer, loctime: int -> Value, now: int)
      returns (l: Logger?, err: Option<Exception>)
      ensures err.None? <==> InitSpec(kwargs, fs.Snap(), pyDir, stat, now).Ok?
      ensures err.Some? ==> l == null && err.value == InitSpec(kwargs, fs.Snap(), pyDir, stat, now).exc
      ensures err.None? ==> (l != null && fresh(l) && l.Valid() && l.root.fs == fs && l.root.table.db == db)
      ensures err.None? ==> (l != null && fresh(l.root) && fresh(l.formatter) && fresh(l.header)
        && fresh(l.root.console) && fresh(l.root.file) && fresh(l.root.email) && fresh(l.root.html) && fresh(l.root.table))
      ensures err.None? ==> (l != null && l.Snap() == InitSpec(kwargs, fs.Snap(), pyDir, stat, now).value)
      ensures err.None? ==> (l != null && l.Fixed() == Env(render, loctime, l.Snap().cfg.fmt.length, l.Snap().cfg.fmt.div))
    {
      if !(kwargs.Keys <= Loggers.Parameters) {
        return null, Some(TypeError);
      }
      var o := Loggers.Defaults + kwargs;
      var items := Headers.StatItems(Headers.StatKeys, stat);
      StatItemsUnique(stat);
      var c := new Logger(o, if items.Ok? then items.value else [], fs, db, render, loctime, now);
      err := c.InitFile(o, pyDir, now);
      if err.Some? {
        return null, err;
      }
      if !Loggers.FormatterKeys(Loggers.InitialEntries(Loggers.Arg(o, "format"))) {
        return null, Some(TypeError);
      }
      if items.Raise? {
        return null, Some(items.exc);
      }
      l := c;
    }

    /** The `File(**path)` call of the root: the default path, configured. */
    method InitFile(o: Loggers.Options, pyDir: string, now: int) returns (err: Option<Exception>)
      requires Valid()
      modifies root.file
      ensures Valid() && Fixed() == old(Fixed())
      ensures var (f, e) := Outputs.FileInit(old(Snap()).io.root.file, Loggers.Arg(o, "directory"), Loggers.Arg(o, "filename"),
                                             Loggers.Arg(o, "extension"), pyDir, now);
        Snap() == old(Snap()).(io := old(Snap()).io.(root := old(Snap()).io.root.(file := f))) && err == e
    {
      ghost var s0 := Snap();
      err := root.file.Init(Loggers.Arg(o, "directory"), Loggers.Arg(o, "filename"), Loggers.Arg(o, "extension"), pyDir, now);
      assert Snap() == s0.(io := s0.io.(root := s0.io.root.(file := root.file.Snap())));
    }

    // ---- rotation and writing --------------------------------------------

    /** `_check()`. */
    method Check(now: int) returns (err: Option<Exception>)
      requires Valid()
      modifies this`start, this`restartDate, root.console, root.file, root.fs, header
      ensures Valid() && Fixed() == old(Fixed())
      ensures (IoSnap(), err) == CheckSpec(old(Fixed()), old(Cfg()), old(IoSnap()), now)
      decreases Rank(Cfg(), IoSnap(), now), 2
    {
      err := None;
      if !root.file.status {
        return;
      }
      if !IsInt(limits.maxsize) {
        return Some(AttributeError("_maxsize"));
      }
      if Loggers.SizeMissing(Cfg(), Core(IoSnap())) {
        return Some(AttributeError("_size"));
      }
      if Loggers.SizeDue(Cfg(), Core(IoSnap())) {
        err := Restart(now);
        return;
      }
      if !IsInt(limits.maxdays) {
        return Some(AttributeError("_maxdays"));
      }
      if limits.maxdays == BoolV(false) {
        return;
      }
      if restartDate.None? {
        return Some(AttributeError("_Logger__restart_timestamp"));
      }
      if Clock.DayOfMonth(restartDate.value) == Clock.DayOfMonth(now) {
        err := Restart(now);
      }
    }

    /** `restart()`; `sysinfo.process()` stores the local time `loctime(now)`. */
    method Restart(now: int) returns (err: Option<Exception>)
      requires Valid()
      modifies this`start, this`restartDate, root.console, root.file, root.fs, header
      ensures Valid() && Fixed() == old(Fixed())
      ensures (IoSnap(), err) == RestartSpec(old(Fixed()), old(Cfg()), old(IoSnap()), now)
      decreases 1, 1
    {
      start := now;
      if !IsInt(limits.maxdays) {
        return Some(AttributeError("_maxdays"));
      }
      restartDate := Some(Clock.AddDays(now, AsInt(limits.maxdays)));
      err := root.file.New(now);
      if err.Some? || !header.used {
        return;
      }
      header.Refresh(loctime(now));
      if Due(Cfg(), IoSnap(), now) {
        var text := HeaderText(Fixed(), Cfg(), IoSnap());
        return Some(if text.Raise? then text.exc else RecursionError);
      }
      err := Head(now);
    }

    /** `head()`. */
    method Head(now: int) returns (err: Option<Exception>)
      requires Valid()
      modifies this`start, this`restartDate, root.console, root.file, root.fs, header
      ensures Valid() && Fixed() == old(Fixed())
      ensures (IoSnap(), err) == HeadSpec(old(Fixed()), old(Cfg()), old(IoSnap()), now)
      decreases Rank(Cfg(), IoSnap(), now), 4
    {
      ghost var io0 := IoSnap();
      var text := header.Create(Context());
      assert IoSnap() == io0.(headerUsed := true) && Cfg() == old(Cfg()) && Fixed() == old(Fixed());
      assert text == HeaderText(Fixed(), Cfg(), io0);
      assert Rank(Cfg(), IoSnap(), now) == Rank(Cfg(), io0, now);
      match text
      case Raise(x) =>
        err := Some(x);
      case Ok(t) =>
        err := Write(t, now);
    }

    /** `write(record)`. */
    method Write(text: string, now: int) returns (err: Option<Exception>)
      requires Valid()
      modifies this`start, this`restartDate, root.console, root.file, root.fs, header
      ensures Valid() && Fixed() == old(Fixed())
      ensures (IoSnap(), err) == WriteSpec(old(Fixed()), old(Cfg()), old(IoSnap()), text, now)
      decreases Rank(Cfg(), IoSnap(), now), 3
    {
      err := Check(now);
      if err.Some? {
        return;
      }
      err := root.Write(Outputs.Text(text), now);
    }

    /** `record(rectype, message, error=error, **kwargs)`. */
    method Record(rectype: string, message: Value, error: Value, kwargs: map<string, Value>, now: int)
      returns (err: Option<Exception>)
      requires Valid()
      modifies this`start, this`restartDate, root.console, root.file, root.fs, header
      ensures Valid() && Fixed() == old(Fixed())
      ensures (IoSnap(), err) == RecordSpec(old(Fixed()), old(Cfg()), old(IoSnap()), rectype, message, error, kwargs, now)
    {
      ghost var f0, c0, io0 := Fixed(), Cfg(), IoSnap();
      ghost var want := RecordSpec(f0, c0, io0, rectype, message, error, kwargs, now);
      if Loggers.RecordClash(kwargs) {
        return Some(TypeError);
      }
      if !Loggers.Passes(filters, rectype) {
        return None;
      }
      var r := render(rectype, message, error, kwargs, now);
      assert r == f0.render(rectype, message, error, kwargs, now);
      match r
      case Raise(x) =>
        assert want == (io0, Some(x));
        err := Some(x);
      case Ok(text) =>
        assert want == WriteSpec(f0, c0, io0, text, now);
        err := Write(text, now);
        assert (IoSnap(), err) == want;
    }

    /** `bound()`. */
    method Bound(now: int) returns (err: Option<Exception>)
      requires Valid()
      modifies this`start, this`restartDate, root.console, root.file, root.fs, header
      ensures Valid() && Fixed() == old(Fixed())
      ensures (IoSnap(), err) == BoundSpec(old(Fixed()), old(Cfg()), old(IoSnap()), now)
    {
      var b := Loggers.Border(formatter.Snap());
      match b
      case Raise(x) =>
        err := Some(x);
      case Ok(border) =>
        err := Write(border + "\n", now);
    }

    /** `subhead(text)`. */
    method Subhead(text: Value, now: int) returns (err: Option<Exception>)
      requires Valid()
      modifies this`start, this`restartDate, root.console, root.file, root.fs, header
      ensures Valid() && Fixed() == old(Fixed())
      ensures (IoSnap(), err) == SubheadSpec(old(Fixed()), old(Cfg()), old(IoSnap()), text, now)
    {
      var line := Upper("\t" + Str(text) + "\n");
      err := Bound(now);
      if err.Some? {
        return;
      }
      err := Write(line, now);
      if err.Some? {
        return;
      }
      err := Bound(now);
    }

    /** `blank(number)`. */
    method Blank(number: int, now: int) returns (err: Option<Exception>)
      requires Valid()
      modifies this`start, this`restartDate, root.console, root.file, root.fs, header
      ensures Valid() && Fixed() == old(Fixed())
      ensures (IoSnap(), err) == BlankSpec(old(Fixed()), old(Cfg()), old(IoSnap()), number, now)
    {
      err := Write(Repeat("\n", number), now);
    }

    // ---- errors ----------------------------------------------------------

    /** The loop over the traceback's frames: one error record per frame, carrying the message and that frame's fields. */
    method FrameRecords(rectype: string, message: Value, name: string, value: Value, frames: seq<Loggers.TraceFrame>,
                        kwargs: map<string, Value>, cwd: string, now: int) returns (err: Option<Exception>)
      requires Valid()
      requires "error" !in kwargs && kwargs.Keys * Loggers.FrameKeys == {}
      modifies this`start, this`restartDate, root.console, root.file, root.fs, header
      ensures Valid() && Fixed() == old(Fixed())
      ensures (IoSnap(), err)
        == RunCalls(old(Fixed()), old(Cfg()), old(IoSnap()), rectype, Loggers.FrameCalls(name, value, message, frames, kwargs, cwd), now)
    {
      ghost var f0, c0, io0 := Fixed(), Cfg(), IoSnap();
      ghost var want := RunCalls(f0, c0, io0, rectype, Loggers.FrameCalls(name, value, message, frames, kwargs, cwd), now);
      var i := 0;
      err := None;
      while i < |frames|
        invariant 0 <= i <= |frames|
        invariant Valid() && Fixed() == f0 && Cfg() == c0 && err.None?
        invariant want == RunCalls(f0, c0, IoSnap(), rectype, Loggers.FrameCalls(name, value, message, frames[i..], kwargs, cwd), now)
      {
        assert frames[i..][0] == frames[i] && frames[i..][1..] == frames[i + 1..];
        ghost var c := Loggers.Call(message, BoolV(true), Loggers.FrameFields(name, value, frames[i], cwd) + kwargs);
        ghost var later := Loggers.FrameCalls(name, value, message, frames[i + 1..], kwargs, cwd);
        ghost var calls := Loggers.FrameCalls(name, value, message, frames[i..], kwargs, cwd);
        assert calls == [c] + later;
        assert calls[0] == c && calls[1..] == later;
        ghost var io1 := IoSnap();
        ghost var r := RecordSpec(f0, c0, io1, rectype, c.message, c.error, c.kwargs, now);
        assert RunCalls(f0, c0, io1, rectype, calls, now)
          == if r.1.Some? then r else RunCalls(f0, c0, r.0, rectype, later, now);
        err := Record(rectype, message, BoolV(true), Loggers.FrameFields(name, value, frames[i], cwd) + kwargs, now);
        assert (IoSnap(), err) == r;
        if err.Some? {
          return;
        }
        i := i + 1;
      }
      assert frames[i..] == [];
    }

    /** The record calls of `error`: the frames' records, or the single record. */
    method ErrorRecords(message: Value, rectype: string, layout: Value, kwargs: map<string, Value>, exc: Loggers.ExcInfo,
                        cwd: string, now: int) returns (err: Option<Exception>)
      requires Valid()
      modifies this`start, this`restartDate, root.console, root.file, root.fs, header
      ensures Valid() && Fixed() == old(Fixed())
      ensures (IoSnap(), err) == ErrorRecordsSpec(old(Fixed()), old(Cfg()), old(IoSnap()), message, rectype, layout, kwargs, exc, cwd, now)
    {
      ghost var f0, c0, io0 := Fixed(), Cfg(), IoSnap();
      ghost var want := ErrorRecordsSpec(f0, c0, io0, message, rectype, layout, kwargs, exc, cwd, now);
      var error := if "error" in kwargs then kwargs["error"] else BoolV(false);
      var rest := kwargs - {"error"};
      err := None;
      if exc.Active? {
        if layout.StrV? {
          if exc.frames != [] && ("error" in kwargs || kwargs.Keys * Loggers.FrameKeys != {}) {
            assert want == (io0, Some(TypeError));
            return Some(TypeError);
          }
          assert want == RunCalls(f0, c0, io0, rectype, Loggers.FrameCalls(exc.name, exc.value, message, exc.frames, kwargs, cwd), now);
          if exc.frames != [] {
            err := FrameRecords(rectype, message, exc.name, exc.value, exc.frames, kwargs, cwd, now);
          }
        } else if layout == BoolV(false) {
          var c := Loggers.Call(StrV("\n" + exc.trace), error, rest);
          assert ErrorCalls(message, layout, kwargs, exc, cwd) == Ok([c]);
          RunOne(f0, c0, io0, rectype, c, now);
          err := Record(rectype, c.message, error, rest, now);
        } else {
          assert want == (io0, None);
        }
      } else {
        var c := Loggers.Call(Or(message, StrV("")), error, rest);
        assert ErrorCalls(message, layout, kwargs, exc, cwd) == Ok([c]);
        RunOne(f0, c0, io0, rectype, c, now);
        err := Record(rectype, c.message, error, rest, now);
      }
    }

    /** `error(message, rectype, format, alarming, level, **kwargs)` with the active exception `exc`. */
    method Error(message: Value, rectype: string, format: Value, alarming: Value, level: int, kwargs: map<string, Value>,
                 exc: Loggers.ExcInfo, cwd: string, now: int) returns (err: Option<Exception>)
      requires Valid()
      modifies this`withError, this`count, this`start, this`restartDate, root.console, root.file, root.fs, header, root.email
      ensures Valid() && Fixed() == old(Fixed())
      ensures (Snap(), err) == ErrorSpec(old(Fixed()), old(Snap()), message, rectype, format, alarming, level, kwargs, exc, cwd, now)
    {
      ghost var f0, s0 := Fixed(), Snap();
      ghost var want := ErrorSpec(f0, s0, message, rectype, format, alarming, level, kwargs, exc, cwd, now);
      if Loggers.ErrorClash(kwargs) {
        assert want == (s0, Some(TypeError));
        return Some(TypeError);
      }
      withError, count := true, count + 1;
      ghost var s1 := Snap();
      assert s1 == s0.(withError := true, count := s0.count + 1);
      var layout := if format == NoneV then formatter.error else format;
      if alarming == NoneV && limits.alarming == NoneV {
        assert want == (s1, Some(AttributeError("_alarming")));
        return Some(AttributeError("_alarming"));
      }
      var al := if alarming == NoneV then limits.alarming else alarming;
      assert want == CountedSpec(f0, s1, message, rectype, layout, al, level, kwargs, exc, cwd, now);
      err := Counted(message, rectype, layout, al, level, kwargs, exc, cwd, now);
      assert (Snap(), err) == want;
    }

    /** `error` after the count: the records, then the conclusion unless a record failed. */
    method Counted(message: Value, rectype: string, layout: Value, alarming: Value, level: int, kwargs: map<string, Value>,
                   exc: Loggers.ExcInfo, cwd: string, now: int) returns (err: Option<Exception>)
      requires Valid()
      modifies this`start, this`restartDate, root.console, root.file, root.fs, header, root.email
      ensures Valid() && Fixed() == old(Fixed())
      ensures (Snap(), err) == CountedSpec(old(Fixed()), old(Snap()), message, rectype, layout, alarming, level, kwargs, exc, cwd, now)
    {
      ghost var s0 := Snap();
      ghost var r := ErrorRecordsSpec(Fixed(), s0.cfg, s0.io, message, rectype, layout, kwargs, exc, cwd, now);
      assert CountedSpec(Fixed(), s0, message, rectype, layout, alarming, level, kwargs, exc, cwd, now)
        == if r.1.Some? then (s0.(io := r.0), r.1) else ConcludeSpec(Fixed(), s0.(io := r.0), alarming, level);
      err := ErrorRecords(message, rectype, layout, kwargs, exc, cwd, now);
      assert IoSnap() == r.0 && err == r.1;
      assert Snap() == s0.(io := r.0);
      if err.Some? {
        return;
      }
      err := Conclude(alarming, level);
    }

    /** The alarm and the control policy at the end of `error`. */
    method Conclude(alarming: Value, level: int) returns (err: Option<Exception>)
      requires Valid()
      modifies root.email, header
      ensures Valid() && Fixed() == old(Fixed())
      ensures (Snap(), err) == ConcludeSpec(old(Fixed()), old(Snap()), alarming, level)
    {
      err := None;
      if alarming == BoolV(true) {
        err := Alarm();
        if err.Some? {
          return;
        }
      }
      var abort := Loggers.Control(limits, level, count);
      if abort.Raise? {
        return Some(abort.exc);
      }
      if abort.value {
        return Some(SystemExit);
      }
    }

    /** `root.email.alarm()`. */
    method Alarm() returns (err: Option<Exception>)
      requires Valid()
      modifies root.email, header
      ensures Valid() && Fixed() == old(Fixed())
      ensures (Snap(), err) == AlarmSpec(old(Fixed()), old(Snap()))
    {
      err := root.email.SendAlarm(app, header, Context(), root.file);
    }

    /** `warning(message, **kwargs)` (level 0) and `critical(message, **kwargs)` (level 2). */
    method Leveled(message: Value, rectype: string, level: int, kwargs: map<string, Value>, exc: Loggers.ExcInfo,
                   cwd: string, now: int) returns (err: Option<Exception>)
      requires Valid()
      modifies this`withError, this`count, this`start, this`restartDate, root.console, root.file, root.fs, header, root.email
      ensures Valid() && Fixed() == old(Fixed())
      ensures (Snap(), err) == LeveledSpec(old(Fixed()), old(Snap()), message, rectype, level, kwargs, exc, cwd, now)
    {
      if "self" in kwargs || "message" in kwargs || "rectype" in kwargs || "level" in kwargs {
        return Some(TypeError);
      }
      err := Error(message, rectype, Loggers.Arg(kwargs, "format"), Loggers.Arg(kwargs, "alarming"), level,
                   kwargs - {"format", "alarming"}, exc, cwd, now);
    }

    // ---- configuration ---------------------------------------------------

    /** One step of the sink loop of `configure`: `getattr(self.root, sink).open()` or `.close()`. */
    method Toggle(sink: string, v: Value) returns (err: Option<Exception>)
      requires Valid()
      modifies root.console, root.file, root.email, root.html
      ensures Valid() && Fixed() == old(Fixed())
      ensures (Snap(), err) == ToggleSpec(old(Snap()), sink, v)
    {
      err := None;
      if !v.BoolV? {
        return;
      }
      if sink == "console" {
        if v.b { root.console.Open(); } else { root.console.Close(); }
      } else if sink == "file" {
        if v.b { root.file.Open(); } else { root.file.Close(); }
      } else if sink == "email" {
        if v.b { root.email.Open(); } else { root.email.Close(); }
      } else if sink == "html" {
        if v.b { root.html.Open(); } else { root.html.Close(); }
      } else {
        err := Some(AttributeError(sink));
      }
    }

    /** The sink loop of `configure`. */
    method ToggleSinks(o: Loggers.Options) returns (err: Option<Exception>)
      requires Valid()
      modifies root.console, root.file, root.email, root.html
      ensures Valid() && Fixed() == old(Fixed())
      ensures (Snap(), err) == TogglesSpec(old(Snap()), SinkNames, o)
    {
      var i := 0;
      err := None;
      while i < |SinkNames|
        invariant 0 <= i <= |SinkNames|
        invariant Valid() && Fixed() == old(Fixed()) && err.None?
        invariant TogglesSpec(old(Snap()), SinkNames, o) == TogglesSpec(Snap(), SinkNames[i..], o)
      {
        assert SinkNames[i..][0] == SinkNames[i] && SinkNames[i..][1..] == SinkNames[i + 1..];
        err := Toggle(SinkNames[i], Loggers.Arg(o, SinkNames[i]));
        if err.Some? {
          return;
        }
        i := i + 1;
      }
      assert SinkNames[i..] == [];
    }

    /** The filter loop of `configure`. */
    method ConfigureFilters(o: Loggers.Options)
      modifies this`filters
      ensures filters == Loggers.SetFilters(old(filters), Loggers.FilterNames, o)
    {
      var i := 0;
      while i < |Loggers.FilterNames|
        invariant 0 <= i <= |Loggers.FilterNames|
        invariant Loggers.SetFilters(old(filters), Loggers.FilterNames, o) == Loggers.SetFilters(filters, Loggers.FilterNames[i..], o)
      {
        assert Loggers.FilterNames[i..][0] == Loggers.FilterNames[i] && Loggers.FilterNames[i..][1..] == Loggers.FilterNames[i + 1..];
        var v := Loggers.Arg(o, Loggers.FilterNames[i]);
        if v.BoolV? {
          filters := filters[Loggers.FilterNames[i] := v.b];
        }
        i := i + 1;
      }
      assert Loggers.FilterNames[i..] == [];
    }

    /** `configure(**o)` on an existing logger. */
    method Configure(o: Loggers.Options) returns (err: Option<Exception>)
      requires Valid()
      modifies this`filters, this`limits, this`restartDate, root.console, root.file, root.email, root.html, formatter
      ensures Valid() && Fixed() == old(Fixed())
      ensures (Snap(), err) == ConfigureSpec(old(Snap()), o)
    {
      if !(o.Keys <= ConfigureParameters) {
        return Some(TypeError);
      }
      err := ToggleSinks(o);
      if err.Some? {
        return;
      }
      err := ConfigurePathAndSettings(o);
    }

    method ConfigurePathAndSettings(o: Loggers.Options) returns (err: Option<Exception>)
      requires Valid()
      modifies this`filters, this`limits, this`restartDate, root.file, formatter
      ensures Valid() && Fixed() == old(Fixed())
      ensures (Snap(), err) == PathAndSettings(old(Snap()), o)
    {
      err := root.file.Configure(Loggers.Arg(o, "directory"), Loggers.Arg(o, "filename"), Loggers.Arg(o, "extension"), start);
      if err.Some? {
        return;
      }
      err := ConfigureFormatAndSettings(o);
    }

    method ConfigureFormatAndSettings(o: Loggers.Options) returns (err: Option<Exception>)
      requires Valid()
      modifies this`filters, this`limits, this`restartDate, formatter
      ensures Valid() && Fixed() == old(Fixed())
      ensures (Snap(), err) == FormatAndSettings(old(Snap()), o)
    {
      ghost var s1 := Snap();
      match Loggers.FormatEntries(Loggers.Arg(o, "format")) {
        case None =>
        case Some(d) =>
          if !Loggers.FormatterKeys(d) {
            return Some(TypeError);
          }
          formatter.Configure(Loggers.Lookup(d, "record", NoneV), Loggers.Lookup(d, "error", NoneV),
                              Loggers.Lookup(d, "length", NoneV), Loggers.Lookup(d, "div", NoneV));
      }
      assert Snap() == s1.(cfg := s1.cfg.(fmt := formatter.Snap()));
      ConfigureSettings(o);
      err := None;
    }

    method ConfigureSettings(o: Loggers.Options)
      requires Valid()
      modifies this`filters, this`limits, this`restartDate
      ensures Valid() && Fixed() == old(Fixed())
      ensures Snap() == ApplySettings(old(Snap()), o)
    {
      ConfigureFilters(o);
      limits := Loggers.SetLimits(limits, o);
      if IsInt(Loggers.Arg(o, "maxdays")) {
        restartDate := Some(Clock.AddDays(start, AsInt(limits.maxdays)));
      }
    }
  }

  // ---- properties: records -------------------------------------------------

  /** A record type the filters drop writes nothing; one they let through is rendered, then written. */
  lemma RecordIffPasses(env: Env, cfg: Loggers.Config, io: Io, rectype: string, message: Value, error: Value,
                        kwargs: map<string, Value>, now: int)
    requires !Loggers.RecordClash(kwargs)
    ensures !Loggers.Passes(cfg.filters, rectype) ==> RecordSpec(env, cfg, io, rectype, message, error, kwargs, now) == (io, None)
    ensures var r := env.render(rectype, message, error, kwargs, now);
      Loggers.Passes(cfg.filters, rectype) ==>
        (r.Raise? ==> RecordSpec(env, cfg, io, rectype, message, error, kwargs, now) == (io, Some(r.exc)))
        && (r.Ok? ==> RecordSpec(env, cfg, io, rectype, message, error, kwargs, now) == WriteSpec(env, cfg, io, r.value, now))
  {
  }

  /** With the file sink closed a write never rotates: the text goes to the console, if the root is open. */
  lemma ClosedFileWrite(env: Env, cfg: Loggers.Config, io: Io, text: string, now: int)
    requires !io.root.file.status
    ensures WriteSpec(env, cfg, io, text, now)
      == (if io.root.status then io.(root := io.root.(console := Outputs.ConsoleWrite(io.root.console, text))) else io, None)
  {
    assert CheckSpec(env, cfg, io, now) == (io, None);
    if io.root.status {
      Outputs.RootFanOut(io.root, Outputs.Text(text), now);
    }
  }

  /** `subhead(text)` writes a border line, the upper-cased text on a tabbed line, and a border line. */
  lemma SubheadThreeWrites(env: Env, cfg: Loggers.Config, io: Io, text: Value, now: int)
    requires io.root.status && io.root.console.status && !io.root.file.status && Loggers.Border(cfg.fmt).Ok?
    ensures var b := Loggers.Border(cfg.fmt).value + "\n";
      var printed := io.root.console.printed + b + Upper("\t" + Str(text) + "\n") + b;
      SubheadSpec(env, cfg, io, text, now) == (io.(root := io.root.(console := io.root.console.(printed := printed))), None)
  {
    var b := Loggers.Border(cfg.fmt).value + "\n";
    var line := Upper("\t" + Str(text) + "\n");
    var c := io.root.console;
    var io1 := io.(root := io.root.(console := c.(printed := c.printed + b)));
    var io2 := io.(root := io.root.(console := c.(printed := c.printed + b + line)));
    var io3 := io.(root := io.root.(console := c.(printed := c.printed + b + line + b)));
    ClosedFileWrite(env, cfg, io, b, now);
    assert BoundSpec(env, cfg, io, now) == (io1, None);
    ClosedFileWrite(env, cfg, io1, line, now);
    assert WriteSpec(env, cfg, io1, line, now) == (io2, None);
    ClosedFileWrite(env, cfg, io2, b, now);
    assert BoundSpec(env, cfg, io2, now) == (io3, None);
  }

  // ---- properties: errors ----------------------------------------------------

  lemma CountedKeepsCounters(env: Env, s: State, message: Value, rectype: string, layout: Value, alarming: Value,
                             level: int, kwargs: map<string, Value>, exc: Loggers.ExcInfo, cwd: string, now: int)
    ensures var t := CountedSpec(env, s, message, rectype, layout, alarming, level, kwargs, exc, cwd, now).0;
      t.count == s.count && t.withError == s.withError && t.cfg == s.cfg
  {
    var (io, err) := ErrorRecordsSpec(env, s.cfg, s.io, message, rectype, layout, kwargs, exc, cwd, now);
    var s1 := s.(io := io);
    assert ConcludeSpec(env, s1, alarming, level).0.cfg == s.cfg;
  }

  /**
   * Every `error` call counts exactly one error and sets the error flag,
   * also when its records are filtered out or fail and when no `alarming`
   * is configured; keywords that clash with its parameters stop it before
   * anything changes.
   */
  lemma ErrorCountsOnce(env: Env, s: State, message: Value, rectype: string, format: Value, alarming: Value, level: int,
                        kwargs: map<string, Value>, exc: Loggers.ExcInfo, cwd: string, now: int)
    ensures var t := ErrorSpec(env, s, message, rectype, format, alarming, level, kwargs, exc, cwd, now);
      if Loggers.ErrorClash(kwargs) then t == (s, Some(TypeError))
      else t.0.count == s.count + 1 && t.0.withError && t.0.cfg == s.cfg
  {
    if !Loggers.ErrorClash(kwargs) && !(alarming == NoneV && s.cfg.limits.alarming == NoneV) {
      var s1 := s.(withError := true, count := s.count + 1);
      var layout := if format == NoneV then s.cfg.fmt.error else format;
      var al := if alarming == NoneV then s.cfg.limits.alarming else alarming;
      CountedAfterFallbacks(env, s, message, rectype, format, alarming, level, kwargs, exc, cwd, now);
      CountedKeepsCounters(env, s1, message, rectype, layout, al, level, kwargs, exc, cwd, now);
    }
  }

  /** Once no keyword clashes and an `alarming` is known, `error` counts the call and goes on with the fallbacks applied. */
  lemma CountedAfterFallbacks(env: Env, s: State, message: Value, rectype: string, format: Value, alarming: Value,
                              level: int, kwargs: map<string, Value>, exc: Loggers.ExcInfo, cwd: string, now: int)
    requires !Loggers.ErrorClash(kwargs) && !(alarming == NoneV && s.cfg.limits.alarming == NoneV)
    ensures ErrorSpec(env, s, message, rectype, format, alarming, level, kwargs, exc, cwd, now)
      == CountedSpec(env, s.(withError := true, count := s.count + 1), message, rectype,
                     if format == NoneV then s.cfg.fmt.error else format,
                     if alarming == NoneV then s.cfg.limits.alarming else alarming, level, kwargs, exc, cwd, now)
  {
  }

  /**
   * `error` without `format` or `alarming` behaves as if the formatter's
   * error layout and the configured `alarming` had been passed; with no
   * `alarming` configured it raises once the error is counted.
   */
  lemma ErrorFallbacks(env: Env, s: State, message: Value, rectype: string, level: int, kwargs: map<string, Value>,
                       exc: Loggers.ExcInfo, cwd: string, now: int)
    requires !Loggers.ErrorClash(kwargs)
    ensures s.cfg.limits.alarming != NoneV ==>
      ErrorSpec(env, s, message, rectype, NoneV, NoneV, level, kwargs, exc, cwd, now)
        == ErrorSpec(env, s, message, rectype, s.cfg.fmt.error, s.cfg.limits.alarming, level, kwargs, exc, cwd, now)
    ensures s.cfg.limits.alarming == NoneV ==>
      ErrorSpec(env, s, message, rectype, NoneV, NoneV, level, kwargs, exc, cwd, now)
        == (s.(withError := true, count := s.count + 1), Some(AttributeError("_alarming")))
  {
  }

  /**
   * With an active exception and a string layout, `error` makes one record
   * call per traceback frame, the `i`-th carrying the caller's message,
   * `error=True`, the `i`-th frame's fields and the caller's keywords.
   */
  lemma FramesCarryMessage(message: Value, layout: Value, kwargs: map<string, Value>, exc: Loggers.ExcInfo, cwd: string,
                           i: int)
    requires exc.Active? && layout.StrV?
    requires "error" !in kwargs && kwargs.Keys * Loggers.FrameKeys == {}
    requires 0 <= i < |exc.frames|
    ensures ErrorCalls(message, layout, kwargs, exc, cwd).Ok?
    ensures |ErrorCalls(message, layout, kwargs, exc, cwd).value| == |exc.frames|
    ensures ErrorCalls(message, layout, kwargs, exc, cwd).value[i]
      == Loggers.Call(message, BoolV(true), Loggers.FrameFields(exc.name, exc.value, exc.frames[i], cwd) + kwargs)
  {
    Loggers.FrameCallAt(exc.name, exc.value, message, exc.frames, kwargs, cwd, i);
  }

  /**
   * The single-record shapes: layout `False` records a newline and the
   * formatted trace whatever the message; no active exception records
   * `message or ''`; any other layout with an exception records nothing.
   */
  lemma SingleErrorRecord(message: Value, other: Value, layout: Value, kwargs: map<string, Value>, exc: Loggers.ExcInfo,
                          cwd: string)
    ensures var calls := ErrorCalls(message, layout, kwargs, exc, cwd);
      (exc.Active? && layout == BoolV(false) ==>
        calls == ErrorCalls(other, layout, kwargs, exc, cwd) && calls.Ok? && |calls.value| == 1
        && calls.value[0].message == StrV("\n" + exc.trace) && calls.value[0].kwargs == kwargs - {"error"})
      && (exc.Active? && !layout.StrV? && layout != BoolV(false) ==> calls == Ok([]))
      && (exc.NoException? ==>
            calls.Ok? && |calls.value| == 1 && calls.value[0].kwargs == kwargs - {"error"}
            && calls.value[0].message == if Truthy(message) then message else StrV(""))
  {
  }

  /** The alarm changes only the email sink and the header's use, and it never stops the program. */
  lemma AlarmNeverExits(env: Env, s: State)
    ensures var (t, err) := AlarmSpec(env, s);
      err != Some(SystemExit) && t == s.(email := t.email, io := s.io.(headerUsed := t.io.headerUsed))
  {
    Headers.CreatedErrors(s.io.header, env.length, env.div, 3, Headers.Context(s.cfg.app, s.cfg.desc, s.cfg.version, map[]));
  }

  /**
   * In this revision the alarm goes out before the control policy is
   * asked: a call that exits has sent its alarm first (when `alarming` is
   * `True`), and a call whose alarm went through exits exactly when the
   * policy says so; an alarm that fails ends the call before the policy.
   */
  lemma ExitComesAfterAlarm(env: Env, s: State, alarming: Value, level: int)
    ensures var (t, err) := ConcludeSpec(env, s, alarming, level);
      err == Some(SystemExit) ==>
        Loggers.Control(s.cfg.limits, level, s.count) == Ok(true)
        && (alarming == BoolV(true) ==> AlarmSpec(env, s) == (t, None))
        && (alarming != BoolV(true) ==> t == s)
    ensures var a := if alarming == BoolV(true) then AlarmSpec(env, s) else (s, None);
      a.1.None? ==>
        (ConcludeSpec(env, s, alarming, level).1 == Some(SystemExit) <==> Loggers.Control(s.cfg.limits, level, s.count) == Ok(true))
    ensures alarming == BoolV(true) && AlarmSpec(env, s).1.Some? ==> ConcludeSpec(env, s, alarming, level) == AlarmSpec(env, s)
  {
    AlarmNeverExits(env, s);
  }

  /**
   * An alarm on an open email sink with recipients adds exactly one
   * message: the application in the subject, the header as preformatted
   * text, the log file attached when the file sink is open; the header is
   * then used.
   */
  lemma AlarmSendsOne(env: Env, s: State)
    requires s.email.status && s.email.recipients && HeaderText(env, s.cfg, s.io).Ok?
    requires s.io.root.file.status ==> Loggers.FilePath(Core(s.io)).Some?
    ensures var t := AlarmSpec(env, s).0;
      t.email.sent == s.email.sent + [Outputs.Alarm("ALARM in " + Str(s.cfg.app) + "!", "<pre>" + HeaderText(env, s.cfg, s.io).value + "</pre>",
                                                    if s.io.root.file.status then Loggers.FilePath(Core(s.io)) else None)]
      && t.io.headerUsed && AlarmSpec(env, s).1.None?
  {
  }

  // ---- properties: rotation --------------------------------------------------

  /** Nothing is due: the check leaves the state alone (at most it reports a missing attribute). */
  lemma NotDueNoRestart(env: Env, cfg: Loggers.Config, io: Io, now: int)
    requires !Due(cfg, io, now)
    ensures CheckSpec(env, cfg, io, now).0 == io
  {
  }

  /**
   * The check runs only while the file is open; a file whose `new()` never
   * ran raises on its `_size` unless `maxsize` is `False`; a size above
   * `maxsize` restarts and skips the age check; otherwise a restart timestamp on
   * today's day of the month restarts; a missing restart timestamp raises.
   */
  lemma CheckRules(env: Env, cfg: Loggers.Config, io: Io, now: int)
    ensures !io.root.file.status ==> CheckSpec(env, cfg, io, now) == (io, None)
    ensures io.root.file.status && IsInt(cfg.limits.maxsize) && Loggers.SizeMissing(cfg, Core(io)) ==>
      CheckSpec(env, cfg, io, now) == (io, Some(AttributeError("_size")))
    ensures io.root.file.status && !Loggers.SizeMissing(cfg, Core(io)) && Loggers.SizeDue(cfg, Core(io)) ==>
      CheckSpec(env, cfg, io, now) == RestartSpec(env, cfg, io, now)
    ensures (io.root.file.status && IsInt(cfg.limits.maxsize) && !Loggers.SizeMissing(cfg, Core(io)) && !Loggers.SizeDue(cfg, Core(io))
             && Loggers.DayDue(cfg, Core(io), now)) ==>
      CheckSpec(env, cfg, io, now) == RestartSpec(env, cfg, io, now)
    ensures (io.root.file.status && IsInt(cfg.limits.maxsize) && !Loggers.SizeMissing(cfg, Core(io)) && !Loggers.SizeDue(cfg, Core(io))
             && IsInt(cfg.limits.maxdays) && cfg.limits.maxdays != BoolV(false) && io.restartDate.None?) ==>
      CheckSpec(env, cfg, io, now) == (io, Some(AttributeError("_Logger__restart_timestamp")))
    ensures (IsInt(cfg.limits.maxsize) && IsInt(cfg.limits.maxdays) && io.restartDate.Some? && !Loggers.SizeMissing(cfg, Core(io))
             && !Due(cfg, io, now)) ==>
      CheckSpec(env, cfg, io, now) == (io, None)
  {
  }

  /**
   * An open file sink whose `new()` never ran (switched on by `configure`,
   * which does not re-path it, or whose `new()` raised) fails the check on
   * `_size`: the write raises before the console prints.
   */
  lemma UnpreparedFileRaises(env: Env, cfg: Loggers.Config, io: Io, text: string, now: int)
    requires io.root.file.status && IsInt(cfg.limits.maxsize) && Loggers.SizeMissing(cfg, Core(io))
    ensures WriteSpec(env, cfg, io, text, now) == (io, Some(AttributeError("_size")))
  {
  }

  /** A write with nothing due keeps the header's entries and its use. */
  lemma SettledWriteKeepsHeader(env: Env, cfg: Loggers.Config, io: Io, text: string, now: int)
    requires !Due(cfg, io, now)
    ensures WriteSpec(env, cfg, io, text, now).0.header == io.header
    ensures WriteSpec(env, cfg, io, text, now).0.headerUsed == io.headerUsed
  {
    NotDueNoRestart(env, cfg, io, now);
  }

  /**
   * `restart()` starts now, puts the restart timestamp `maxdays` days
   * later and re-paths the open file; only if the header was created
   * before is its local time refreshed and the header written again, into
   * the new file, unless the new state is due at once.
   */
  lemma RestartRules(env: Env, cfg: Loggers.Config, io: Io, now: int)
    ensures !IsInt(cfg.limits.maxdays) ==> RestartSpec(env, cfg, io, now) == (io.(start := now), Some(AttributeError("_maxdays")))
    ensures IsInt(cfg.limits.maxdays) ==>
      var (io2, err) := Rotated(cfg, io, now);
      var io3 := io2.(header := Headers.Refreshed(io.header, env.loctime(now)));
      io2.start == now && io2.restartDate == Some(Clock.AddDays(now, AsInt(cfg.limits.maxdays)))
      && (io2.root.file, err) == Outputs.FileNew(io.root.file, now) && io2.header == io.header
      && (err.None? && !io.headerUsed ==> RestartSpec(env, cfg, io, now) == (io2, None))
      && (err.None? && io.headerUsed ==> RestartSpec(env, cfg, io, now).0.header == io3.header)
      && (err.None? && io.headerUsed && !Due(cfg, io3, now) ==> RestartSpec(env, cfg, io, now) == HeadSpec(env, cfg, io3, now))
  {
    if IsInt(cfg.limits.maxdays) {
      var (io2, err) := Rotated(cfg, io, now);
      var io3 := io2.(header := Headers.Refreshed(io.header, env.loctime(now)));
      if err.None? && io.headerUsed && !Due(cfg, io3, now) {
        assert RestartSpec(env, cfg, io, now) == HeadSpec(env, cfg, io3, now);
        var io4 := io3.(headerUsed := true);
        assert io4 == io3;
        if HeaderText(env, cfg, io3).Ok? {
          assert HeadSpec(env, cfg, io3, now) == WriteSpec(env, cfg, io4, HeaderText(env, cfg, io3).value, now);
          SettledWriteKeepsHeader(env, cfg, io4, HeaderText(env, cfg, io3).value, now);
        }
      }
    }
  }

  /**
   * With the file sink closed, a restart of a logger whose header was
   * used prints the header again, with the new local time, to the console.
   */
  lemma RestartRewritesHeader(env: Env, cfg: Loggers.Config, io: Io, now: int)
    requires IsInt(cfg.limits.maxdays) && io.headerUsed && io.root.status && !io.root.file.status
    ensures var io3 := io.(start := now, restartDate := Some(Clock.AddDays(now, AsInt(cfg.limits.maxdays))),
                           header := Headers.Refreshed(io.header, env.loctime(now)));
      var text := HeaderText(env, cfg, io3);
      text.Ok? ==>
        RestartSpec(env, cfg, io, now) == (io3.(root := io3.root.(console := Outputs.ConsoleWrite(io.root.console, text.value))), None)
  {
    var io2 := io.(start := now, restartDate := Some(Clock.AddDays(now, AsInt(cfg.limits.maxdays))));
    var io3 := io2.(header := Headers.Refreshed(io.header, env.loctime(now)));
    assert Rotated(cfg, io, now) == (io2, None);
    assert !Due(cfg, io3, now);
    var text := HeaderText(env, cfg, io3);
    if text.Ok? {
      assert RestartSpec(env, cfg, io, now) == HeadSpec(env, cfg, io3, now);
      assert io3.(headerUsed := true) == io3;
      assert HeadSpec(env, cfg, io3, now) == WriteSpec(env, cfg, io3, text.value, now);
      ClosedFileWrite(env, cfg, io3, text.value, now);
    }
  }

  /**
   * With `maxdays` 0 the restart timestamp is always today, so a restart
   * with the header in use calls itself again through `head`, `write` and
   * the check until the interpreter stops it.
   */
  lemma ZeroDaysHeaderRecurses(env: Env, cfg: Loggers.Config, io: Io, now: int)
    requires cfg.limits.maxdays == IntV(0) && IsInt(cfg.limits.maxsize)
    requires io.root.file.status && io.headerUsed && Outputs.FileNew(io.root.file, now).1.None?
    requires HeaderText(env, cfg, io.(header := Headers.Refreshed(io.header, env.loctime(now)))).Ok?
    ensures RestartSpec(env, cfg, io, now).1 == Some(RecursionError)
  {
    var (io2, err) := Rotated(cfg, io, now);
    assert AsInt(cfg.limits.maxdays) == 0;
    assert Clock.AddDays(now, 0) == now;
    assert err.None? && io2.headerUsed && io2.restartDate == Some(now);
    var io3 := io2.(header := Headers.Refreshed(io2.header, env.loctime(now)));
    assert io3.root.file.status;
    assert HeaderText(env, cfg, io3) == HeaderText(env, cfg, io.(header := Headers.Refreshed(io.header, env.loctime(now))));
    assert Due(cfg, io3, now) by { assert Loggers.DayDue(cfg, Core(io3), now); }
    assert Rotated(cfg, io, now) == (io2, None);
  }

  // ---- properties: configuration ---------------------------------------------

  /** A sink switch: a `bool` sets it, anything else keeps it. */
  function Switched(open: bool, v: Value): bool
  {
    if v.BoolV? then v.b else open
  }

  /**
   * Without a `db` switch the sink loop sets each of the four sinks from
   * its `bool` argument and changes nothing else: opening the file sink
   * keeps its path and handle (no `new()`), and `status` and `table` are
   * not looked at.
   */
  lemma {:induction false} TogglesRule(s: State, o: Loggers.Options)
    requires !Loggers.Arg(o, "db").BoolV?
    ensures TogglesSpec(s, SinkNames, o) == (s.(
      io := s.io.(root := s.io.root.(
        console := s.io.root.console.(status := Switched(s.io.root.console.status, Loggers.Arg(o, "console"))),
        file := s.io.root.file.(status := Switched(s.io.root.file.status, Loggers.Arg(o, "file"))))),
      email := s.email.(status := Switched(s.email.status, Loggers.Arg(o, "email"))),
      htmlOpen := Switched(s.htmlOpen, Loggers.Arg(o, "html"))), None)
  {
    var a := s.(io := s.io.(root := s.io.root.(
      console := s.io.root.console.(status := Switched(s.io.root.console.status, Loggers.Arg(o, "console"))))));
    var b := a.(io := a.io.(root := a.io.root.(
      file := s.io.root.file.(status := Switched(s.io.root.file.status, Loggers.Arg(o, "file"))))));
    var c := b.(email := s.email.(status := Switched(s.email.status, Loggers.Arg(o, "email"))));
    var d := c.(htmlOpen := Switched(s.htmlOpen, Loggers.Arg(o, "html")));
    ToggleConsole(s, Loggers.Arg(o, "console"));
    ToggleFile(a, Loggers.Arg(o, "file"));
    ToggleOthers(b, Loggers.Arg(o, "email"), Loggers.Arg(o, "html"));
    assert b.io.root.file == s.io.root.file.(status := Switched(s.io.root.file.status, Loggers.Arg(o, "file")));
    assert TogglesSpec(d, ["db"], o) == (d, None) by { assert ["db"][1..] == []; }
    TogglesCons(c, "html", ["db"], o, d, (d, None));
    TogglesCons(b, "email", ["html", "db"], o, c, (d, None));
    TogglesCons(a, "file", ["email", "html", "db"], o, b, (d, None));
    TogglesCons(s, "console", ["file", "email", "html", "db"], o, a, (d, None));
    assert SinkNames == ["console"] + ["file", "email", "html", "db"];
  }

  lemma ToggleConsole(s: State, v: Value)
    ensures ToggleSpec(s, "console", v)
      == (s.(io := s.io.(root := s.io.root.(console := s.io.root.console.(status := Switched(s.io.root.console.status, v))))), None)
  {
  }

  lemma ToggleFile(s: State, v: Value)
    ensures ToggleSpec(s, "file", v)
      == (s.(io := s.io.(root := s.io.root.(file := s.io.root.file.(status := Switched(s.io.root.file.status, v))))), None)
  {
  }

  lemma ToggleOthers(s: State, email: Value, html: Value)
    ensures var c := s.(email := s.email.(status := Switched(s.email.status, email)));
      ToggleSpec(s, "email", email) == (c, None)
      && ToggleSpec(c, "html", html) == (c.(htmlOpen := Switched(s.htmlOpen, html)), None)
  {
  }

  /** One successful step of the sink loop, then the rest. */
  lemma TogglesCons(s: State, sink: string, rest: seq<string>, o: Loggers.Options, s1: State, t: (State, Option<Exception>))
    requires ToggleSpec(s, sink, Loggers.Arg(o, sink)) == (s1, None) && TogglesSpec(s1, rest, o) == t
    ensures TogglesSpec(s, [sink] + rest, o) == t
  {
    assert ([sink] + rest)[1..] == rest;
  }

  /**
   * A `db` switch fails: the root has no `db` attribute.  The four sinks
   * before it are already switched; the path, the formatter, the filters
   * and the limits are left as they were.
   */
  lemma DbSwitchFails(s: State, o: Loggers.Options)
    requires o.Keys <= ConfigureParameters && Loggers.Arg(o, "db").BoolV?
    ensures var (t, err) := ConfigureSpec(s, o);
      err == Some(AttributeError("db")) && t.cfg == s.cfg && t.io.restartDate == s.io.restartDate
      && t.io.root.file == s.io.root.file.(status := Switched(s.io.root.file.status, Loggers.Arg(o, "file")))
  {
    var o2 := o - {"db"};
    TogglesRule(s, o2);
    var d := TogglesSpec(s, SinkNames, o2).0;
    assert forall k :: k != "db" ==> Loggers.Arg(o2, k) == Loggers.Arg(o, k);
    TogglesAgree(s, SinkNames[..4], o, o2);
    assert SinkNames == SinkNames[..4] + ["db"];
    TogglesAppend(s, SinkNames[..4], "db", o);
    TogglesAppend(s, SinkNames[..4], "db", o2);
  }

  /** The sink loop reads only the arguments of the sinks it visits. */
  lemma {:induction false} TogglesAgree(s: State, sinks: seq<string>, o1: Loggers.Options, o2: Loggers.Options)
    requires forall i :: 0 <= i < |sinks| ==> Loggers.Arg(o1, sinks[i]) == Loggers.Arg(o2, sinks[i])
    ensures TogglesSpec(s, sinks, o1) == TogglesSpec(s, sinks, o2)
    decreases |sinks|
  {
    if sinks != [] {
      var (s1, err) := ToggleSpec(s, sinks[0], Loggers.Arg(o1, sinks[0]));
      if err.None? {
        assert forall i :: 0 <= i < |sinks[1..]| ==> sinks[1..][i] == sinks[i + 1];
        TogglesAgree(s1, sinks[1..], o1, o2);
      }
    }
  }

  /** The sink loop over a longer list: the shorter loop, then the last sink unless it failed. */
  lemma {:induction false} TogglesAppend(s: State, sinks: seq<string>, last: string, o: Loggers.Options)
    ensures var (s1, err) := TogglesSpec(s, sinks, o);
      TogglesSpec(s, sinks + [last], o) == if err.Some? then (s1, err) else ToggleSpec(s1, last, Loggers.Arg(o, last))
    decreases |sinks|
  {
    if sinks == [] {
      assert [last][1..] == [];
    } else {
      assert (sinks + [last])[1..] == sinks[1..] + [last];
      var (s1, err) := ToggleSpec(s, sinks[0], Loggers.Arg(o, sinks[0]));
      if err.None? {
        TogglesAppend(s1, sinks[1..], last, o);
      }
    }
  }

  /** The filter loop reads only the filters' own arguments. */
  lemma {:induction false} FiltersAgree(f: map<string, bool>, names: seq<string>, o1: Loggers.Options, o2: Loggers.Options)
    requires forall i :: 0 <= i < |names| ==> Loggers.Arg(o1, names[i]) == Loggers.Arg(o2, names[i])
    ensures Loggers.SetFilters(f, names, o1) == Loggers.SetFilters(f, names, o2)
    decreases |names|
  {
    if names != [] {
      var v := Loggers.Arg(o1, names[0]);
      assert forall i :: 0 <= i < |names[1..]| ==> names[1..][i] == names[i + 1];
      FiltersAgree(if v.BoolV? then f[names[0] := v.b] else f, names[1..], o1, o2);
    }
  }

  /** Two sets of options that differ at most in `status` and `table`. */
  ghost predicate SameBesidesIgnored(o1: Loggers.Options, o2: Loggers.Options)
  {
    forall k :: k != "status" && k != "table" ==> Loggers.Arg(o1, k) == Loggers.Arg(o2, k)
  }

  lemma ApplySettingsAgree(s: State, o1: Loggers.Options, o2: Loggers.Options)
    requires SameBesidesIgnored(o1, o2)
    ensures ApplySettings(s, o1) == ApplySettings(s, o2)
  {
    FiltersAgree(s.cfg.filters, Loggers.FilterNames, o1, o2);
    assert Loggers.SetLimits(s.cfg.limits, o1) == Loggers.SetLimits(s.cfg.limits, o2);
    assert Loggers.Arg(o1, "maxdays") == Loggers.Arg(o2, "maxdays");
  }

  lemma PathAndSettingsAgree(s: State, o1: Loggers.Options, o2: Loggers.Options)
    requires SameBesidesIgnored(o1, o2)
    ensures PathAndSettings(s, o1) == PathAndSettings(s, o2)
  {
    assert Loggers.Arg(o1, "directory") == Loggers.Arg(o2, "directory");
    assert Loggers.Arg(o1, "filename") == Loggers.Arg(o2, "filename");
    assert Loggers.Arg(o1, "extension") == Loggers.Arg(o2, "extension");
    assert Loggers.Arg(o1, "format") == Loggers.Arg(o2, "format");
    var (f, err) := Outputs.FileConfigure(s.io.root.file, Loggers.Arg(o1, "directory"), Loggers.Arg(o1, "filename"),
                                          Loggers.Arg(o1, "extension"), s.io.start);
    var s1 := s.(io := s.io.(root := s.io.root.(file := f)));
    match Loggers.FormatConfigured(s1.cfg.fmt, Loggers.Arg(o1, "format"))
    case Raise(_) =>
    case Ok(fmt) => ApplySettingsAgree(s1.(cfg := s1.cfg.(fmt := fmt)), o1, o2);
  }

  /**
   * `configure` on an existing logger ignores `status` and `table`: the
   * same call with them added, with any values, behaves the same.
   */
  lemma StatusAndTableIgnored(s: State, o: Loggers.Options, status: Value, table: Value)
    requires "status" !in o && "table" !in o
    ensures ConfigureSpec(s, o["status" := status]["table" := table]) == ConfigureSpec(s, o)
  {
    var o2 := o["status" := status]["table" := table];
    assert SameBesidesIgnored(o2, o);
    assert o2.Keys == o.Keys + {"status", "table"};
    assert forall i :: 0 <= i < |SinkNames| ==> Loggers.Arg(o2, SinkNames[i]) == Loggers.Arg(o, SinkNames[i]);
    TogglesAgree(s, SinkNames, o2, o);
    PathAndSettingsAgree(TogglesSpec(s, SinkNames, o).0, o2, o);
  }

  // ---- properties: initialization --------------------------------------------

  /**
   * A new logger keeps the application's data exactly as given, starts
   * now with no errors and an unused header, and takes its restart
   * timestamp from `maxdays`.
   */
  lemma InitRule(kwargs: Loggers.Options, disk: Outputs.Disk, pyDir: string, stat: map<string, Value>, now: int)
    requires InitSpec(kwargs, disk, pyDir, stat, now).Ok?
    ensures var s := InitSpec(kwargs, disk, pyDir, stat, now).value;
      var o := Loggers.Defaults + kwargs;
      s.cfg.app == Loggers.Arg(o, "app") && s.cfg.desc == Loggers.Arg(o, "desc") && s.cfg.version == Loggers.Arg(o, "version")
      && s.count == 0 && !s.withError && !s.io.headerUsed && s.io.start == now
      && s.io.restartDate == Loggers.NewRestartDate(None, now, o)
  {
    InitIsUnconfigured(kwargs, disk, pyDir, stat, now);
    var o := Loggers.Defaults + kwargs;
    UnconfiguredFields(o, Headers.StatItems(Headers.StatKeys, stat).value, InitialFile(o, pyDir, now).0, disk, now);
  }

  /** By default the new logger restarts one day after the start; a numeric `maxdays` sets the distance. */
  lemma InitRestartDate(kwargs: Loggers.Options, now: int)
    ensures var o := Loggers.Defaults + kwargs;
      ("maxdays" !in kwargs ==> Loggers.NewRestartDate(None, now, o) == Some(Clock.AddDays(now, 1)))
      && ("maxdays" in kwargs && IsInt(kwargs["maxdays"]) ==>
            Loggers.NewRestartDate(None, now, o) == Some(Clock.AddDays(now, AsInt(kwargs["maxdays"]))))
      && ("maxdays" in kwargs && !IsInt(kwargs["maxdays"]) ==> Loggers.NewRestartDate(None, now, o) == None)
  {
    var o := Loggers.Defaults + kwargs;
    if "maxdays" !in kwargs {
      assert Loggers.Arg(o, "maxdays") == IntV(1);
    }
  }

  /** The new header's entries are the system description's values under the fourteen keys, in order. */
  lemma InitHeader(kwargs: Loggers.Options, disk: Outputs.Disk, pyDir: string, stat: map<string, Value>, now: int, i: int)
    requires InitSpec(kwargs, disk, pyDir, stat, now).Ok? && 0 <= i < |Headers.StatKeys|
    ensures var h := InitSpec(kwargs, disk, pyDir, stat, now).value.io.header;
      |h| == |Headers.StatKeys| && Headers.StatKeys[i] in stat && h[i] == (Headers.StatKeys[i], Headers.Static(stat[Headers.StatKeys[i]]))
  {
    InitIsUnconfigured(kwargs, disk, pyDir, stat, now);
    var o := Loggers.Defaults + kwargs;
    var items := Headers.StatItems(Headers.StatKeys, stat).value;
    UnconfiguredFields(o, items, InitialFile(o, pyDir, now).0, disk, now);
    Headers.StatItemsAt(Headers.StatKeys, stat, i);
    assert |Keys(items)| == |Headers.StatKeys|;
  }

  lemma InitIsUnconfigured(kwargs: Loggers.Options, disk: Outputs.Disk, pyDir: string, stat: map<string, Value>, now: int)
    requires InitSpec(kwargs, disk, pyDir, stat, now).Ok?
    ensures var o := Loggers.Defaults + kwargs;
      Headers.StatItems(Headers.StatKeys, stat).Ok? && InitSpec(kwargs, disk, pyDir, stat, now).value
        == Unconfigured(o, Headers.StatItems(Headers.StatKeys, stat).value, InitialFile(o, pyDir, now).0, disk, now)
  {
  }

  lemma UnconfiguredFields(o: Loggers.Options, data: Dict<Headers.Item>, file: Outputs.FileState, disk: Outputs.Disk, now: int)
    ensures var s := Unconfigured(o, data, file, disk, now);
      s.cfg.app == Loggers.Arg(o, "app") && s.cfg.desc == Loggers.Arg(o, "desc") && s.cfg.version == Loggers.Arg(o, "version")
      && s.count == 0 && !s.withError && !s.io.headerUsed && s.io.start == now && s.io.header == data
      && s.io.restartDate == Loggers.NewRestartDate(None, now, o)
  {
  }

  /**
   * Building a logger fails on an unknown keyword, on the file sink's
   * default path, on the formatter's keywords, and on a key the system
   * description lacks, in that order; it succeeds otherwise.
   */
  lemma InitOutcome(kwargs: Loggers.Options, disk: Outputs.Disk, pyDir: string, stat: map<string, Value>, now: int)
    ensures var o := Loggers.Defaults + kwargs;
      var settled := kwargs.Keys <= Loggers.Parameters
        && Outputs.FileInit(Loggers.BlankFile(o), Loggers.Arg(o, "directory"), Loggers.Arg(o, "filename"),
                            Loggers.Arg(o, "extension"), pyDir, now).1.None?
        && Loggers.FormatterKeys(Loggers.InitialEntries(Loggers.Arg(o, "format")));
      (InitSpec(kwargs, disk, pyDir, stat, now).Ok? <==> settled && forall k :: k in Headers.StatKeys ==> k in stat)
      && (settled && InitSpec(kwargs, disk, pyDir, stat, now).Raise? ==>
            InitSpec(kwargs, disk, pyDir, stat, now).exc.KeyError?
            && InitSpec(kwargs, disk, pyDir, stat, now).exc.key in Headers.StatKeys
            && InitSpec(kwargs, disk, pyDir, stat, now).exc.key !in stat)
  {
    Headers.StatItemsOk(Headers.StatKeys, stat);
  }
}
