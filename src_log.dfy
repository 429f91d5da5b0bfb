/**
 * The log of the oldest revision: one object holding its settings in a
 * `CONFIG` dictionary, an output (a file and the console), an email sink
 * and a header.  Every write first checks the file's size and the day of
 * its last change and moves to a new file when a limit is passed; `error`
 * turns an exception's traceback into records, sends an alarm and stops
 * the program on an emergency.  Records are the oldest revision's own
 * (`LegacyRecords`), built from `RECTYPES` and `CONFIG`.
 *
 * The state is split by who changes it: `config` is changed only by
 * `configure`; `Io` is what a write can change (the open time, the output,
 * the file's path formatter, the disk and the header); the email sink's
 * alarm count is changed only by `error`.  `Env` holds what no modelled
 * call changes.  One call reads the clock once: every `datetime.now()`
 * inside it is `now`.
 */
module Logs {
  import opened Python
  import opened OrderedDict
  import Clock
  import Patterns
  import Headers
  import Outputs
  import Records
  import LegacyOutputs
  import LegacyRecords
  import Loggers

  /** Keyword arguments; a missing keyword is `None`. */
  type Options = map<string, Value>

  // ---- state -------------------------------------------------------------

  /** The header's attributes: its entries, whether it was created, and the frame's width and character. */
  datatype HeaderState = HeaderState(items: Dict<Headers.Item>, used: bool, length: Value, div: Value)

  datatype Io = Io(openTime: int, output: LegacyOutputs.OutputState, path: Patterns.PatternState,
                   disk: Outputs.Disk, header: HeaderState)

  /** The email sink as `error` sees it: whether it is used, and how many alarms it has sent. */
  datatype EmailState = EmailState(used: bool, alarms: nat)

  datatype State = State(config: map<string, Value>, io: Io, email: EmailState)

  /** What the log keeps from its construction, and the working directory paths are resolved against. */
  datatype Env = Env(app: Value, desc: Value, version: Value, control: Value, cwd: string)

  /** The text `str()` gives for the log object itself. */
  const LogText: string := "<logbook.log.Log object>"

  /** `RECTYPES`: the same six labels as the newest revision. */
  const Rectypes: map<string, Value> := Loggers.DefaultRectypes

  const SosMessage: Value := StrV("SOS! ERROR CAUSED AN EXIT FROM THE PROGRAM.")

  /** `MESSAGES`. */
  const Messages: map<string, Value> := map[
    "ok" := StrV("OK"), "success" := StrV("SUCCESS"), "fail" := StrV("FAIL"), "sos" := SosMessage]

  /** What a record reads from the log: its text, `RECTYPES` and `CONFIG`. */
  function View(config: map<string, Value>): LegacyRecords.LogView
  {
    LegacyRecords.LogView(LogText, Some(Rectypes), Some(config))
  }

  /** `CONFIG[key]`. */
  function Setting(config: map<string, Value>, key: string): Result<Value>
  {
    if key in config then Ok(config[key]) else Raise(KeyError(key))
  }

  /** `header.create()`: the entries hold plain values, so the context is not consulted. */
  function HeaderText(env: Env, h: HeaderState): Result<string>
  {
    Headers.Created(h.items, h.length, h.div, 3, Headers.Context(env.app, env.desc, env.version, map[]))
  }

  // ---- rotation ------------------------------------------------------------

  /**
   * The size branch of `check()`: `Ok(true)` when `limit_by_size` is `True`
   * and the file has grown past `max_size`.  Before the file's first
   * `_prepare` its size does not exist.
   */
  function SizeBranch(config: map<string, Value>, f: LegacyOutputs.FileState): (r: Result<bool>)
    ensures r == Ok(true) ==> !f.io.Unset? && f.size.Some?
  {
    match Setting(config, "limit_by_size")
    case Raise(e) => Raise(e)
    case Ok(on) =>
      if on != BoolV(true) then Ok(false)
      else if f.io.Unset? then Raise(AttributeError("_size"))
      else if f.size.None? then Ok(false)
      else match Setting(config, "max_size")
        case Raise(e) => Raise(e)
        case Ok(m) => if IsInt(m) then Ok(f.size.value > AsInt(m)) else Raise(TypeError)
  }

  /** The day branch: `Ok(true)` when `limit_by_day` is `True` and the last change was on another day of the month. */
  function DayBranch(config: map<string, Value>, f: LegacyOutputs.FileState, now: int): (r: Result<bool>)
    ensures r == Ok(true) ==> !f.io.Unset? && f.modified.Some?
  {
    match Setting(config, "limit_by_day")
    case Raise(e) => Raise(e)
    case Ok(on) =>
      if on != BoolV(true) then Ok(false)
      else if f.io.Unset? then Raise(AttributeError("_modified"))
      else if f.modified.None? then Ok(false)
      else Ok(Clock.DayOfMonth(f.modified.value) != Clock.DayOfMonth(now))
  }

  /**
   * 1 for a used, prepared file that has been written to since it was
   * prepared, the only state in which `check()` can restart; a restart
   * prepares the file anew, which brings this to 0.
   */
  function Rank(io: Io): nat
  {
    var f := io.output.file;
    if f.used && !f.io.Unset? && (f.size.Some? || f.modified.Some?) then 1 else 0
  }

  /** `check()`: for a used file, the size branch first, then the day branch; either restarts and ends the check. */
  function CheckSpec(env: Env, config: map<string, Value>, io: Io, now: int): (Io, Option<Exception>)
    decreases Rank(io), 2
  {
    var f := io.output.file;
    if !f.used then (io, None)
    else match SizeBranch(config, f)
      case Raise(e) => (io, Some(e))
      case Ok(big) =>
        if big then RestartSpec(env, config, io, now)
        else match DayBranch(config, f, now)
          case Raise(e) => (io, Some(e))
          case Ok(stale) => if stale then RestartSpec(env, config, io, now) else (io, None)
  }

  /** `output.file.close()`: the path pattern stamped with now, then `_prepare()`. */
  function Reopened(io: Io, now: int, cwd: string): (Io, Option<Exception>)
  {
    var (f, fmt, d, err) := LegacyOutputs.Closed(io.output.file, io.path, io.disk, now, cwd);
    (io.(output := io.output.(file := f), path := fmt, disk := d), err)
  }

  /** `header.refresh()`: the construction time entry set to now. */
  function Refresh(h: HeaderState, now: int): HeaderState
  {
    h.(items := Headers.Refreshed(h.items, StrV(Clock.IsoFormat(now))))
  }

  /** The first steps of `restart()`: the new open time and, for a used file, the move to a new, unopened path. */
  function Moved(env: Env, io: Io, now: int): (r: (Io, Option<Exception>))
    ensures r.0.openTime == now && r.0.header == io.header
    ensures io.output.file.used && r.1.None? ==>
      r.0.output.file.path.Some? && r.0.output.file.io == Outputs.NoHandler
      && r.0.output.file.size.None? && r.0.output.file.modified.None?
    ensures r.1.None? ==> Rank(r.0) == 0
    ensures r.0.disk.files == io.disk.files
  {
    var io1 := io.(openTime := now);
    if io.output.file.used then Reopened(io1, now, env.cwd) else (io1, None)
  }

  /**
   * `restart()`: a new open time, a new file if the file is used, and the
   * header refreshed and written again if it was created before.  The
   * header's write cannot restart once more: the new file has neither size
   * nor modification time.
   */
  function RestartSpec(env: Env, config: map<string, Value>, io: Io, now: int): (Io, Option<Exception>)
    decreases 1, 1
  {
    var (io2, err) := Moved(env, io, now);
    if err.Some? then (io2, err)
    else if !io2.header.used then (io2, None)
    else
      var io3 := io2.(header := Refresh(io2.header, now));
      assert Rank(io3) == 0;
      HeadSpec(env, config, io3, now)
  }

  /** `head()`: create the header (marking it used) and write it. */
  function HeadSpec(env: Env, config: map<string, Value>, io: Io, now: int): (Io, Option<Exception>)
    decreases Rank(io), 4
  {
    var io1 := io.(header := io.header.(used := true));
    assert Rank(io1) == Rank(io);
    match HeaderText(env, io.header)
    case Raise(e) => (io1, Some(e))
    case Ok(text) => WriteSpec(env, config, io1, text, now)
  }

  /** `write(string)`: the check, then the output. */
  function WriteSpec(env: Env, config: map<string, Value>, io: Io, s: string, now: int): (Io, Option<Exception>)
    decreases Rank(io), 3
  {
    var (io1, err) := CheckSpec(env, config, io, now);
    if err.Some? then (io1, err)
    else
      var (o, d, err2) := LegacyOutputs.OutputWritten(io1.output, io1.disk, s, now);
      (io1.(output := o, disk := d), err2)
  }

  // ---- records ---------------------------------------------------------------

  /**
   * `record(rectype, message, error=error, **kwargs)`: the record is built,
   * created and written; there are no filters.  A keyword naming one of
   * `record`'s own parameters is the `TypeError` `Record` raises for it too.
   */
  function RecordSpec(env: Env, config: map<string, Value>, io: Io, rectype: string, message: Value, error: Value,
                      kwargs: map<string, Value>, now: int, site: Records.CallSite): (Io, Option<Exception>)
  {
    match RecordText(config, rectype, message, error, kwargs, now, site)
    case Raise(e) => (io, Some(e))
    case Ok(s) => WriteSpec(env, config, io, s, now)
  }

  /** The text of the record `record(...)` writes: the record built, then created. */
  function RecordText(config: map<string, Value>, rectype: string, message: Value, error: Value,
                      kwargs: map<string, Value>, now: int, site: Records.CallSite): Result<string>
  {
    match LegacyRecords.Construct(View(config), rectype, message, error, kwargs, now, site)
    case Raise(e) => Raise(e)
    case Ok(r) => LegacyRecords.Created(r).0
  }

  /** `Record(self, ...).create()` on a fresh record object. */
  method Compose(config: map<string, Value>, rectype: string, message: Value, error: Value,
                 kwargs: map<string, Value>, now: int, site: Records.CallSite) returns (t: Result<string>)
    ensures t == RecordText(config, rectype, message, error, kwargs, now, site)
  {
    match LegacyRecords.Construct(View(config), rectype, message, error, kwargs, now, site)
    case Raise(e) =>
      t := Raise(e);
    case Ok(r) =>
      var rec := new LegacyRecords.Record(r);
      t := rec.Create();
  }

  // ---- errors ------------------------------------------------------------

  /** `record(rectype, message, **kwargs)`: `error` is taken out of the keywords, `False` when absent. */
  function Keyworded(message: Value, kwargs: map<string, Value>): Loggers.Call
  {
    Loggers.Call(message, if "error" in kwargs then kwargs["error"] else BoolV(false), kwargs - {"error"})
  }

  /**
   * The record calls `error` makes: with an active exception, one per
   * traceback frame for `formatting` `True` (each with the message and the
   * frame's fields), one with the formatted trace for `False`, none
   * otherwise; without one, a single record of `message or ''`.  A keyword
   * that collides with a frame's own keywords is a `TypeError` at the first
   * frame.
   */
  function ErrorCalls(message: Value, formatting: Value, kwargs: map<string, Value>, exc: Loggers.ExcInfo, cwd: string)
    : Result<seq<Loggers.Call>>
  {
    if exc.Active? then
      if formatting == BoolV(true) then
        if exc.frames != [] && ("error" in kwargs || kwargs.Keys * Loggers.FrameKeys != {}) then Raise(TypeError)
        else Ok(Loggers.FrameCalls(exc.name, exc.value, message, exc.frames, kwargs, cwd))
      else if formatting == BoolV(false) then Ok([Keyworded(StrV("\n" + exc.trace), kwargs)])
      else Ok([])
    else Ok([Keyworded(Or(message, StrV("")), kwargs)])
  }

  /** The calls one after another; the first exception stops the rest. */
  function RunCalls(env: Env, config: map<string, Value>, io: Io, rectype: string, calls: seq<Loggers.Call>, now: int,
                    site: Records.CallSite): (Io, Option<Exception>)
    decreases |calls|
  {
    if calls == [] then (io, None)
    else
      var (io1, err) := RecordSpec(env, config, io, rectype, calls[0].message, calls[0].error, calls[0].kwargs, now, site);
      if err.Some? then (io1, err) else RunCalls(env, config, io1, rectype, calls[1..], now, site)
  }

  /** The first call, then the rest from the state it leaves. */
  lemma RunStep(env: Env, config: map<string, Value>, io: Io, rectype: string, calls: seq<Loggers.Call>, now: int,
                site: Records.CallSite)
    requires calls != []
    ensures RunCalls(env, config, io, rectype, calls, now, site)
      == var (io1, err) := RecordSpec(env, config, io, rectype, calls[0].message, calls[0].error, calls[0].kwargs, now, site);
         if err.Some? then (io1, err) else RunCalls(env, config, io1, rectype, calls[1..], now, site)
  {
  }

  /** The records `error` writes, or the exception that stops them. */
  function ErrorRecordsSpec(env: Env, config: map<string, Value>, io: Io, message: Value, rectype: string,
                            formatting: Value, kwargs: map<string, Value>, exc: Loggers.ExcInfo, now: int,
                            site: Records.CallSite): (Io, Option<Exception>)
  {
    match ErrorCalls(message, formatting, kwargs, exc, env.cwd)
    case Raise(e) => (io, Some(e))
    case Ok(calls) => RunCalls(env, config, io, rectype, calls, now, site)
  }

  /** When the calls are known, the records are their run. */
  lemma ErrorRecordsAre(env: Env, config: map<string, Value>, io: Io, message: Value, rectype: string,
                        formatting: Value, kwargs: map<string, Value>, exc: Loggers.ExcInfo, now: int,
                        site: Records.CallSite, calls: seq<Loggers.Call>)
    requires ErrorCalls(message, formatting, kwargs, exc, env.cwd) == Ok(calls)
    ensures ErrorRecordsSpec(env, config, io, message, rectype, formatting, kwargs, exc, now, site)
      == RunCalls(env, config, io, rectype, calls, now, site)
  {
  }

  /** Keywords that would give a parameter of `error(self, message, rectype, level, formatting, alarming, sos)` a second value. */
  predicate ErrorClash(kwargs: map<string, Value>)
  {
    "self" in kwargs || "message" in kwargs || "rectype" in kwargs || "level" in kwargs
    || "formatting" in kwargs || "alarming" in kwargs || "sos" in kwargs
  }

  /**
   * `email.alarm()` when `alarming` is `True` and the email sink is used:
   * the alarm first creates the header (`text` is what that gives), which
   * marks it used and may raise; only a header that renders is sent.
   */
  function AlarmSpec(s: State, alarming: Value, text: Result<string>): (State, Option<Exception>)
  {
    if alarming != BoolV(true) || !s.email.used then (s, None)
    else
      var s1 := s.(io := s.io.(header := s.io.header.(used := true)));
      if text.Raise? then (s1, Some(text.exc))
      else (s1.(email := s.email.(alarms := s.email.alarms + 1)), None)
  }

  /**
   * The emergency stop at the end of `error`: when `control` is `True` and
   * `level` reaches `CONFIG['emergency']`, a record of `sos or
   * MESSAGES['sos']`, then `SystemExit`.
   */
  function StopSpec(env: Env, s: State, rectype: string, level: int, sos: Value, kwargs: map<string, Value>, now: int,
                    site: Records.CallSite): (State, Option<Exception>)
  {
    match StopDue(env.control, s.config, level)
    case Raise(e) => (s, Some(e))
    case Ok(due) =>
      if !due then (s, None)
      else
        var c := Keyworded(Or(sos, Messages["sos"]), kwargs);
        var (io1, err) := RecordSpec(env, s.config, s.io, rectype, c.message, c.error, c.kwargs, now, site);
        (s.(io := io1), if err.Some? then err else Some(SystemExit))
  }

  /** `control is True and level >= CONFIG['emergency']`, or the exception the comparison raises. */
  function StopDue(control: Value, config: map<string, Value>, level: int): Result<bool>
  {
    if control != BoolV(true) then Ok(false)
    else match Setting(config, "emergency")
      case Raise(e) => Raise(e)
      case Ok(em) => if !IsInt(em) then Raise(TypeError) else Ok(level >= AsInt(em))
  }

  /** `error` once `formatting` and `alarming` are known: the records, the alarm, then the stop. */
  function ReportedSpec(env: Env, s: State, message: Value, rectype: string, level: int, formatting: Value,
                        alarming: Value, sos: Value, kwargs: map<string, Value>, exc: Loggers.ExcInfo, now: int,
                        site: Records.CallSite): (State, Option<Exception>)
  {
    var (io1, err) := ErrorRecordsSpec(env, s.config, s.io, message, rectype, formatting, kwargs, exc, now, site);
    if err.Some? then (s.(io := io1), err)
    else
      var (s2, aerr) := AlarmSpec(s.(io := io1), alarming, HeaderText(env, io1.header));
      if aerr.Some? then (s2, aerr)
      else StopSpec(env, s2, rectype, level, sos, kwargs, now, site)
  }

  /** An argument, or `CONFIG[key]` when it is `None`. */
  function ArgOr(v: Value, config: map<string, Value>, key: string): Result<Value>
  {
    if v == NoneV then Setting(config, key) else Ok(v)
  }

  /** `error(message, rectype, level, formatting, alarming, sos, **kwargs)` with the active exception `exc`. */
  function ErrorSpec(env: Env, s: State, message: Value, rectype: string, level: int, formatting: Value,
                     alarming: Value, sos: Value, kwargs: map<string, Value>, exc: Loggers.ExcInfo, now: int,
                     site: Records.CallSite): (State, Option<Exception>)
  {
    if ErrorClash(kwargs) then (s, Some(TypeError))
    else match ArgOr(formatting, s.config, "err_formatting")
      case Raise(e) => (s, Some(e))
      case Ok(fm) =>
        match ArgOr(alarming, s.config, "alarming")
        case Raise(e) => (s, Some(e))
        case Ok(al) => ReportedSpec(env, s, message, rectype, level, fm, al, sos, kwargs, exc, now, site)
  }

  /** `warning(message, **kwargs)` (level 0) and `critical(message, **kwargs)` (level 2). */
  function LeveledSpec(env: Env, s: State, message: Value, rectype: string, level: int, kwargs: map<string, Value>,
                       exc: Loggers.ExcInfo, now: int, site: Records.CallSite): (State, Option<Exception>)
  {
    if "self" in kwargs || "message" in kwargs || "rectype" in kwargs || "level" in kwargs then (s, Some(TypeError))
    else ErrorSpec(env, s, message, rectype, level, Loggers.Arg(kwargs, "formatting"), Loggers.Arg(kwargs, "alarming"),
      Loggers.Arg(kwargs, "sos"), kwargs - {"formatting", "alarming", "sos"}, exc, now, site)
  }

  // ---- text blocks ---------------------------------------------------------

  /** `a * n` for a string and an integer, in either order; anything else is a `TypeError` by the `+ '\n'` that follows. */
  function Times(a: Value, n: Value): Result<string>
  {
    if a.StrV? && IsInt(n) then Ok(Repeat(a.s, AsInt(n)))
    else if IsInt(a) && n.StrV? then Ok(Repeat(n.s, AsInt(a)))
    else Raise(TypeError)
  }

  /** The border `bound()` draws: `CONFIG['div'] * CONFIG['length']` and a newline; its own arguments are ignored. */
  function BorderSpec(config: map<string, Value>): Result<string>
  {
    match Setting(config, "length")
    case Raise(e) => Raise(e)
    case Ok(length) =>
      match Setting(config, "div")
      case Raise(e) => Raise(e)
      case Ok(div) =>
        match Times(div, length)
        case Raise(e) => Raise(e)
        case Ok(b) => Ok(b + "\n")
  }

  /** `bound()`. */
  function BoundSpec(env: Env, config: map<string, Value>, io: Io, now: int): (Io, Option<Exception>)
  {
    match BorderSpec(config)
    case Raise(e) => (io, Some(e))
    case Ok(b) => WriteSpec(env, config, io, b, now)
  }

  /** `subhead(string)`: a border, the upper-cased text between a tab and a newline, a border: three writes. */
  function SubheadSpec(env: Env, config: map<string, Value>, io: Io, text: Value, now: int): (Io, Option<Exception>)
  {
    var (io1, err) := BoundSpec(env, config, io, now);
    if err.Some? then (io1, err)
    else
      var (io2, err2) := WriteSpec(env, config, io1, Upper("\t" + Str(text) + "\n"), now);
      if err2.Some? then (io2, err2) else BoundSpec(env, config, io2, now)
  }

  /** `blank(number)`. */
  function BlankSpec(env: Env, config: map<string, Value>, io: Io, number: int, now: int): (Io, Option<Exception>)
  {
    WriteSpec(env, config, io, Repeat("\n", number), now)
  }

  // ---- configuration ---------------------------------------------------------

  /** The keywords `configure` accepts. */
  const Parameters: set<string> := {
    "file", "console", "status", "folder", "filename", "extension", "format", "error_format", "err_formatting",
    "alarming", "length", "div", "limit_by_size", "max_size", "limit_by_day", "email", "ip", "port", "user",
    "password", "tls", "recipients", "emergency"}

  /** The settings `configure` stores before it turns to the output, in its order. */
  const OutputKeys: seq<string> := ["file", "console", "status", "folder", "filename", "extension"]

  /** The settings it stores at its end, in its order. */
  const SettingKeys: seq<string> := ["format", "error_format", "length", "div", "err_formatting", "alarming",
    "limit_by_size", "max_size", "limit_by_day", "emergency"]

  /** The arguments among `keys` that are not `None`. */
  function Picked(keys: seq<string>, o: Options): map<string, Value>
  {
    map k | k in keys && Loggers.Arg(o, k) != NoneV :: Loggers.Arg(o, k)
  }

  /** The settings after `if v is not None: config[k] = v` for each key. */
  function Stored(config: map<string, Value>, keys: seq<string>, o: Options): map<string, Value>
  {
    config + Picked(keys, o)
  }

  /** One more statement of the sequence stores one more argument, when it is not `None`. */
  lemma PickedStep(keys: seq<string>, k: string, o: Options)
    ensures Picked(keys + [k], o)
      == if Loggers.Arg(o, k) != NoneV then Picked(keys, o)[k := Loggers.Arg(o, k)] else Picked(keys, o)
  {
    var m := Picked(keys + [k], o);
    assert forall j :: j in keys + [k] <==> j in keys || j == k;
    if Loggers.Arg(o, k) != NoneV {
      assert m.Keys == Picked(keys, o).Keys + {k};
    } else {
      assert m.Keys == Picked(keys, o).Keys;
    }
  }

  /** A flag after `True` (switch on) or `False` (switch off); any other value leaves it. */
  function Flag(v: Value, current: bool): bool
  {
    if v == BoolV(true) then true else if v == BoolV(false) then false else current
  }

  /** `activate`/`deactivate`, and `enable`/`disable` of the file and the console. */
  function Steered(out: LegacyOutputs.OutputState, o: Options): LegacyOutputs.OutputState
  {
    out.(status := Flag(Loggers.Arg(o, "status"), out.status),
         file := out.file.(used := Flag(Loggers.Arg(o, "file"), out.file.used)),
         console := out.console.(status := Flag(Loggers.Arg(o, "console"), out.console.status)))
  }

  /** `folder or filename or extension is not None`, as Python groups it. */
  predicate Repaths(o: Options)
  {
    Truthy(Loggers.Arg(o, "folder")) || Truthy(Loggers.Arg(o, "filename")) || Loggers.Arg(o, "extension") != NoneV
  }

  /** One part of the new path: the argument when truthy, `CONFIG[key]` otherwise. */
  function Part(config: map<string, Value>, o: Options, key: string): Result<string>
  {
    var v := Loggers.Arg(o, key);
    if Truthy(v) then Ok(Str(v))
    else match Setting(config, key)
      case Raise(e) => Raise(e)
      case Ok(c) => Ok(Str(c))
  }

  /** `f'{n_folder}/{n_filename}.{n_extension}'`. */
  function NewPath(config: map<string, Value>, o: Options): Result<string>
  {
    match Part(config, o, "folder")
    case Raise(e) => Raise(e)
    case Ok(f) =>
      match Part(config, o, "filename")
      case Raise(e) => Raise(e)
      case Ok(n) =>
        match Part(config, o, "extension")
        case Raise(e) => Raise(e)
        case Ok(x) => Ok(f + "/" + n + "." + x)
  }

  /** The path branch of `configure`: the new path becomes the file's pattern, then `restart()`. */
  function RepathSpec(env: Env, config: map<string, Value>, io: Io, o: Options, now: int): (Io, Option<Exception>)
  {
    if !Repaths(o) then (io, None)
    else match NewPath(config, o)
      case Raise(e) => (io, Some(e))
      case Ok(p) =>
        var (fmt, err) := Patterns.SetAll(io.path, StrV(p), map[]);
        if err.Some? then (io.(path := fmt), err)
        else RestartSpec(env, config, io.(path := fmt), now)
  }

  /** `header.length = length` and `header.div = div` for the arguments that are not `None`. */
  function Resized(h: HeaderState, o: Options): HeaderState
  {
    var length := Loggers.Arg(o, "length");
    var div := Loggers.Arg(o, "div");
    h.(length := if length != NoneV then length else h.length, div := if div != NoneV then div else h.div)
  }

  /** `configure(**o)` on a log that has its output, email sink and header. */
  function ConfigureSpec(env: Env, s: State, o: Options, now: int): (State, Option<Exception>)
  {
    if !(o.Keys <= Parameters) then (s, Some(TypeError))
    else SettledSpec(env, Stored(s.config, OutputKeys, o), s.io.(output := Steered(s.io.output, o)), s.email, o, now)
  }

  /** `configure` after the output settings are stored and the switches applied: the path, then the other settings. */
  function SettledSpec(env: Env, config: map<string, Value>, io: Io, email: EmailState, o: Options, now: int)
    : (State, Option<Exception>)
  {
    var (io1, err) := RepathSpec(env, config, io, o, now);
    if err.Some? then (State(config, io1, email), err)
    else (State(Stored(config, SettingKeys, o), io1.(header := Resized(io1.header, o)), email), None)
  }

  // ---- construction ----------------------------------------------------------

  const DefaultFilename: string := "{app}_{tmstmp:%Y%m%d%H%M%S}"
  const DefaultFormat: string := "{isotime}\t{rectype}\t{message}\n"
  const DefaultErrorFormat: string := "{err_name} - {err_value} - {err_file} - {err_line} - {err_obj}"

  /** The keywords `Log(app, ...)` accepts besides `app`. */
  const InitParameters: set<string> := Parameters - {"emergency"} + {"desc", "version", "control"}

  /** The defaults of `Log.__init__` that are not `None`. */
  const InitDefaults: Options := map[
    "status" := BoolV(true), "file" := BoolV(true), "console" := BoolV(false), "control" := BoolV(true),
    "length" := IntV(80), "div" := StrV("*"), "err_formatting" := BoolV(true), "alarming" := BoolV(true),
    "limit_by_size" := BoolV(true), "max_size" := IntV(10485760), "limit_by_day" := BoolV(true),
    "email" := BoolV(false), "tls" := BoolV(true)]

  /** The keywords `__init__` passes to its `configure` call: falsy path parts and layouts take the defaults, `emergency` is 2. */
  function InitArgs(o: Options): Options
  {
    var g := InitDefaults + o;
    (g - {"desc", "version", "control"})
      ["folder" := Or(Loggers.Arg(g, "folder"), StrV("logs"))]
      ["filename" := Or(Loggers.Arg(g, "filename"), StrV(DefaultFilename))]
      ["extension" := Or(Loggers.Arg(g, "extension"), StrV("log"))]
      ["format" := Or(Loggers.Arg(g, "format"), StrV(DefaultFormat))]
      ["error_format" := Or(Loggers.Arg(g, "error_format"), StrV(DefaultErrorFormat))]
      ["emergency" := IntV(2)]
  }

  function InitEnv(app: Value, o: Options, cwd: string): Env
  {
    Env(app, Loggers.Arg(o, "desc"), Loggers.Arg(o, "version"), Loggers.Arg(InitDefaults + o, "control"), cwd)
  }

  /** The first path: `f'{folder}/{filename}.{extension}'` of the `configure` call's arguments. */
  function FirstPath(a: Options): string
  {
    Str(Loggers.Arg(a, "folder")) + "/" + Str(Loggers.Arg(a, "filename")) + "." + Str(Loggers.Arg(a, "extension"))
  }

  /** `Output(self, path, file, console, status)` as the first `configure` call builds it from its arguments `a`. */
  function FirstOutput(app: Value, a: Options, d: Outputs.Disk, cwd: string, now: int)
    : Result<(LegacyOutputs.OutputState, Patterns.PatternState, Outputs.Disk)>
  {
    LegacyOutputs.OutputCreated(app, StrV(FirstPath(a)), Loggers.Arg(a, "file") == BoolV(true),
      Loggers.Arg(a, "console") == BoolV(true), Loggers.Arg(a, "status") == BoolV(true), map[], d, cwd, now)
  }

  /**
   * `Log(app, **o)` on the platform `p`: the first `configure` call stores
   * the output settings, builds the output, the email sink (used unless the
   * address is `None` or `False`) and the header (80 wide, of `*`), then
   * stores the other settings.
   */
  function InitSpec(app: Value, o: Options, p: Headers.Platform, d: Outputs.Disk, cwd: string, now: int): Result<State>
  {
    if !(o.Keys <= InitParameters) then Raise(TypeError)
    else
      match FirstOutput(app, InitArgs(o), d, cwd, now)
      case Raise(e) => Raise(e)
      case Ok(built) => Ok(Assembled(app, o, InitArgs(o), p, now, built))
  }

  /** The log once its output is built: the settings of both `configure` stages, the header and the email sink. */
  function Assembled(app: Value, o: Options, a: Options, p: Headers.Platform, now: int,
                     built: (LegacyOutputs.OutputState, Patterns.PatternState, Outputs.Disk)): State
  {
    var email := Loggers.Arg(a, "email");
    var h := HeaderState(Headers.PlatformItems(app, Loggers.Arg(o, "desc"), Loggers.Arg(o, "version"), p, now),
      false, IntV(80), StrV("*"));
    State(Stored(Stored(map[], OutputKeys, a), SettingKeys, a), Io(now, built.0, built.1, built.2, Resized(h, a)),
      EmailState(email != NoneV && email != BoolV(false), 0))
  }

  // ---- the objects -------------------------------------------------------------

  /** The email sink; sending is not modelled, only the count of alarms. */
  class Email {
    var used: bool
    var alarms: nat

    /** `Email(log, address=address, ...)`. */
    constructor (address: Value)
      ensures used == (address != NoneV && address != BoolV(false)) && alarms == 0
    {
      used := address != NoneV && address != BoolV(false);
      alarms := 0;
    }

    /**
     * `alarm()`, which does nothing unless the sink is used: it creates the
     * log's header (marking it used), and an alarm is sent only when that
     * succeeds.
     */
    method Alarm(header: Headers.Header, ctx: Headers.Context) returns (err: Option<Exception>)
      modifies this`alarms, header
      ensures header.items == old(header.items) && header.length == old(header.length) && header.div == old(header.div)
      ensures !used ==> alarms == old(alarms) && header.used == old(header.used) && err.None?
      ensures used ==> header.used
      ensures used ==> (match Headers.Created(header.items, header.length, header.div, header.offset, ctx)
                        case Raise(e) => alarms == old(alarms) && err == Some(e)
                        case Ok(_) => alarms == old(alarms) + 1 && err.None?)
    {
      err := None;
      if used {
        var text := header.Create(ctx);
        match text
        case Raise(e) =>
          err := Some(e);
        case Ok(_) =>
          alarms := alarms + 1;
      }
    }
  }

  class Log {
    const app: Value
    const desc: Value
    const version: Value
    const control: Value
    var openTime: int
    var config: map<string, Value>
    const output: LegacyOutputs.Output
    const email: Email
    const header: Headers.Header

    predicate Valid()
      reads this, header
    {
      header.Valid() && header.offset == 3
    }

    /** Only constants: no write changes it. */
    function Fixed(): Env
    {
      Env(app, desc, version, control, output.file.cwd)
    }

    function HeaderSnap(): HeaderState
      reads this, header
    {
      HeaderState(header.items, header.used, header.length, header.div)
    }

    function IoSnap(): Io
      reads this, output, output.file, output.console, output.file.formatter, output.file.fs, header
    {
      Io(openTime, output.Snap(), output.file.formatter.Snap(), output.file.fs.Snap(), HeaderSnap())
    }

    function Snap(): State
      reads this, output, output.file, output.console, output.file.formatter, output.file.fs, header, email
    {
      State(config, IoSnap(), EmailState(email.used, email.alarms))
    }

    constructor Of(app: Value, desc: Value, version: Value, control: Value, now: int, output: LegacyOutputs.Output,
                   email: Email, header: Headers.Header)
      ensures this.app == app && this.desc == desc && this.version == version && this.control == control
      ensures openTime == now && config == map[] && this.output == output && this.email == email && this.header == header
    {
      this.app, this.desc, this.version, this.control := app, desc, version, control;
      openTime, config := now, map[];
      this.output, this.email, this.header := output, email, header;
    }

    /** `Log(app, **o)`: `null` and the exception when construction fails. */
    static method New(app: Value, o: Options, p: Headers.Platform, fs: Outputs.FileSystem, cwd: string, now: int)
      returns (l: Log?, err: Option<Exception>)
      modifies fs
      ensures err.None? <==> InitSpec(app, o, p, old(fs.Snap()), cwd, now).Ok?
      ensures err.Some? ==> (l == null && fs.Snap() == old(fs.Snap())
        && err.value == InitSpec(app, o, p, old(fs.Snap()), cwd, now).exc)
      ensures err.None? ==> (l != null && fresh(l) && fresh(l.output) && fresh(l.output.file)
        && fresh(l.output.file.formatter) && fresh(l.output.console) && fresh(l.email) && fresh(l.header)
        && l.output.file.fs == fs && l.Valid() && l.Fixed() == InitEnv(app, o, cwd)
        && l.Snap() == InitSpec(app, o, p, old(fs.Snap()), cwd, now).value)
    {
      if !(o.Keys <= InitParameters) {
        return null, Some(TypeError);
      }
      l, err := Open(app, o, InitArgs(o), p, fs, cwd, now);
    }

    /** `Log(app, **o)` once the keywords are accepted and `a` holds the arguments of the first `configure` call. */
    static method Open(app: Value, o: Options, a: Options, p: Headers.Platform, fs: Outputs.FileSystem, cwd: string,
                       now: int) returns (l: Log?, err: Option<Exception>)
      modifies fs
      ensures err.None? <==> FirstOutput(app, a, old(fs.Snap()), cwd, now).Ok?
      ensures err.Some? ==> (l == null && fs.Snap() == old(fs.Snap())
        && err.value == FirstOutput(app, a, old(fs.Snap()), cwd, now).exc)
      ensures err.None? ==> (l != null && fresh(l) && fresh(l.output) && fresh(l.output.file)
        && fresh(l.output.file.formatter) && fresh(l.output.console) && fresh(l.email) && fresh(l.header)
        && l.output.file.fs == fs && l.Valid() && l.Fixed() == Env(app, Loggers.Arg(o, "desc"), Loggers.Arg(o, "version"),
          Loggers.Arg(InitDefaults + o, "control"), cwd)
        && l.Snap() == Assembled(app, o, a, p, now, FirstOutput(app, a, old(fs.Snap()), cwd, now).value))
    {
      var out;
      out, err := LegacyOutputs.Output.New(app, StrV(FirstPath(a)), Loggers.Arg(a, "file") == BoolV(true),
        Loggers.Arg(a, "console") == BoolV(true), Loggers.Arg(a, "status") == BoolV(true), map[], fs, cwd, now);
      if err.Some? {
        return null, err;
      }
      l := Assemble(app, Loggers.Arg(o, "desc"), Loggers.Arg(o, "version"), Loggers.Arg(InitDefaults + o, "control"), a,
        out, Headers.PlatformItems(app, Loggers.Arg(o, "desc"), Loggers.Arg(o, "version"), p, now), now);
    }

    /** The objects and settings of the first `configure` call, around an output already built. */
    static method Assemble(app: Value, desc: Value, version: Value, control: Value, a: Options,
                           out: LegacyOutputs.Output, items: Dict<Headers.Item>, now: int) returns (l: Log)
      requires Unique(items)
      ensures fresh(l) && fresh(l.email) && fresh(l.header) && l.output == out
      ensures l.Valid() && l.Fixed() == Env(app, desc, version, control, out.file.cwd)
      ensures l.openTime == now && l.config == Stored(Stored(map[], OutputKeys, a), SettingKeys, a)
      ensures l.HeaderSnap() == Resized(HeaderState(items, false, IntV(80), StrV("*")), a)
      ensures l.email.used == (Loggers.Arg(a, "email") != NoneV && Loggers.Arg(a, "email") != BoolV(false))
      ensures l.email.alarms == 0
    {
      var e := new Email(Loggers.Arg(a, "email"));
      var h := new Headers.Header.Legacy(items, IntV(80), StrV("*"));
      l := new Log.Of(app, desc, version, control, now, out, e, h);
      l.Store(OutputKeys, a);
      l.Store(SettingKeys, a);
      l.Resize(a);
    }

    /** The `header.length` and `header.div` assignments of `configure`. */
    method Resize(o: Options)
      modifies header`length, header`div
      ensures HeaderSnap() == Resized(old(HeaderSnap()), o)
    {
      var length, div := Loggers.Arg(o, "length"), Loggers.Arg(o, "div");
      if length != NoneV {
        header.length := length;
      }
      if div != NoneV {
        header.div := div;
      }
    }

    /** The `if v is not None: config[k] = v` statements of `configure`, one per key in order. */
    method Store(keys: seq<string>, o: Options)
      modifies this`config
      ensures config == Stored(old(config), keys, o)
    {
      var i := 0;
      while i < |keys|
        invariant 0 <= i <= |keys|
        invariant config == Stored(old(config), keys[..i], o)
      {
        assert keys[..i + 1] == keys[..i] + [keys[i]];
        PickedStep(keys[..i], keys[i], o);
        var v := Loggers.Arg(o, keys[i]);
        if v != NoneV {
          config := config[keys[i] := v];
        }
        i := i + 1;
      }
      assert keys[..i] == keys;
    }

    // ---- rotation and writing --------------------------------------------

    /** `check()`. */
    method Check(now: int) returns (err: Option<Exception>)
      requires Valid()
      modifies this`openTime, output.file, output.file.formatter, output.file.fs, output.console, header
      ensures Valid()
      ensures (IoSnap(), err) == CheckSpec(Fixed(), config, old(IoSnap()), now)
      decreases Rank(IoSnap()), 2
    {
      ghost var c0 := config;
      err := None;
      if !output.file.used {
        return;
      }
      var big := SizeBranch(config, output.file.Snap());
      if big.Raise? {
        return Some(big.exc);
      }
      if big.value {
        err := Restart(now);
        assert config == c0;
        return;
      }
      var stale := DayBranch(config, output.file.Snap(), now);
      if stale.Raise? {
        return Some(stale.exc);
      }
      if stale.value {
        err := Restart(now);
        assert config == c0;
      }
    }

    /** `restart()`. */
    method Restart(now: int) returns (err: Option<Exception>)
      requires Valid()
      modifies this`openTime, output.file, output.file.formatter, output.file.fs, output.console, header
      ensures Valid()
      ensures (IoSnap(), err) == RestartSpec(Fixed(), config, old(IoSnap()), now)
      decreases 1, 1
    {
      ghost var c0, io0 := config, IoSnap();
      ghost var io1 := io0.(openTime := now);
      ghost var r := Moved(Fixed(), io0, now);
      assert r == if io1.output.file.used then Reopened(io1, now, Fixed().cwd) else (io1, None);
      ghost var want := RestartSpec(Fixed(), c0, io0, now);
      openTime := now;
      err := None;
      if output.file.used {
        err := output.file.Close(now);
        assert config == c0;
      }
      assert (IoSnap(), err) == r;
      if err.Some? {
        assert want == r;
        return;
      }
      if !header.used {
        assert want == r;
        return;
      }
      header.Refresh(StrV(Clock.IsoFormat(now)));
      assert config == c0;
      assert IoSnap() == r.0.(header := Refresh(r.0.header, now));
      assert Rank(IoSnap()) == 0;
      assert want == HeadSpec(Fixed(), c0, IoSnap(), now);
      err := Head(now);
      assert config == c0;
    }

    /** `head()`. */
    method Head(now: int) returns (err: Option<Exception>)
      requires Valid()
      modifies this`openTime, output.file, output.file.formatter, output.file.fs, output.console, header
      ensures Valid()
      ensures (IoSnap(), err) == HeadSpec(Fixed(), config, old(IoSnap()), now)
      decreases Rank(IoSnap()), 4
    {
      ghost var c0 := config;
      ghost var io0 := IoSnap();
      var text := header.Create(Headers.Context(app, desc, version, map[]));
      assert config == c0;
      assert IoSnap() == io0.(header := io0.header.(used := true));
      assert Rank(IoSnap()) == Rank(io0);
      match text
      case Raise(e) =>
        err := Some(e);
      case Ok(t) =>
        err := Write(t, now);
        assert config == c0;
    }

    /** `write(string)`. */
    method Write(s: string, now: int) returns (err: Option<Exception>)
      requires Valid()
      modifies this`openTime, output.file, output.file.formatter, output.file.fs, output.console, header
      ensures Valid()
      ensures (IoSnap(), err) == WriteSpec(Fixed(), config, old(IoSnap()), s, now)
      decreases Rank(IoSnap()), 3
    {
      ghost var c0 := config;
      err := Check(now);
      assert config == c0;
      if err.Some? {
        return;
      }
      err := output.Write(s, now);
      assert config == c0;
    }

    /** `record(rectype, message, error=error, **kwargs)`. */
    method Record(rectype: string, message: Value, error: Value, kwargs: map<string, Value>, now: int,
                  site: Records.CallSite) returns (err: Option<Exception>)
      requires Valid()
      modifies this`openTime, output.file, output.file.formatter, output.file.fs, output.console, header
      ensures Valid()
      ensures (IoSnap(), err) == RecordSpec(Fixed(), config, old(IoSnap()), rectype, message, error, kwargs, now, site)
    {
      ghost var c0 := config;
      var t := Compose(config, rectype, message, error, kwargs, now, site);
      match t
      case Raise(x) =>
        err := Some(x);
      case Ok(text) =>
        err := Write(text, now);
        assert config == c0;
    }

    /** `bound()`. */
    method Bound(now: int) returns (err: Option<Exception>)
      requires Valid()
      modifies this`openTime, output.file, output.file.formatter, output.file.fs, output.console, header
      ensures Valid()
      ensures (IoSnap(), err) == BoundSpec(Fixed(), config, old(IoSnap()), now)
    {
      ghost var c0 := config;
      var b := BorderSpec(config);
      if b.Raise? {
        return Some(b.exc);
      }
      err := Write(b.value, now);
      assert config == c0;
    }

    /** `subhead(string)`. */
    method Subhead(text: Value, now: int) returns (err: Option<Exception>)
      requires Valid()
      modifies this`openTime, output.file, output.file.formatter, output.file.fs, output.console, header
      ensures Valid()
      ensures (IoSnap(), err) == SubheadSpec(Fixed(), config, old(IoSnap()), text, now)
    {
      ghost var c0 := config;
      var s := Upper("\t" + Str(text) + "\n");
      err := Bound(now);
      assert config == c0;
      if err.Some? {
        return;
      }
      err := Write(s, now);
      assert config == c0;
      if err.Some? {
        return;
      }
      err := Bound(now);
      assert config == c0;
    }

    /** `blank(number)`. */
    method Blank(number: int, now: int) returns (err: Option<Exception>)
      requires Valid()
      modifies this`openTime, output.file, output.file.formatter, output.file.fs, output.console, header
      ensures Valid()
      ensures (IoSnap(), err) == BlankSpec(Fixed(), config, old(IoSnap()), number, now)
    {
      ghost var c0 := config;
      err := Write(Repeat("\n", number), now);
      assert config == c0;
    }

    // ---- errors ----------------------------------------------------------

    /** The records of `calls`, one after another, until one raises. */
    method RecordCalls(rectype: string, calls: seq<Loggers.Call>, now: int, site: Records.CallSite)
      returns (err: Option<Exception>)
      requires Valid()
      modifies this`openTime, output.file, output.file.formatter, output.file.fs, output.console, header
      ensures Valid()
      ensures (IoSnap(), err) == RunCalls(Fixed(), config, old(IoSnap()), rectype, calls, now, site)
    {
      ghost var c0 := config;
      ghost var env := Fixed();
      ghost var io0 := IoSnap();
      var i := 0;
      err := None;
      while i < |calls|
        invariant 0 <= i <= |calls|
        invariant Valid() && err.None? && config == c0
        invariant RunCalls(env, c0, io0, rectype, calls, now, site)
          == RunCalls(env, c0, IoSnap(), rectype, calls[i..], now, site)
      {
        ghost var io := IoSnap();
        RunStep(env, c0, io, rectype, calls[i..], now, site);
        assert calls[i..][0] == calls[i] && calls[i..][1..] == calls[i + 1..];
        err := Record(rectype, calls[i].message, calls[i].error, calls[i].kwargs, now, site);
        assert config == c0;
        if err.Some? {
          return;
        }
        i := i + 1;
      }
      assert calls[i..] == [];
    }

    /** The record calls of `error`: the frames' records, the trace's record, or the message's. */
    method ErrorRecords(message: Value, rectype: string, formatting: Value, kwargs: map<string, Value>,
                        exc: Loggers.ExcInfo, now: int, site: Records.CallSite) returns (err: Option<Exception>)
      requires Valid()
      modifies this`openTime, output.file, output.file.formatter, output.file.fs, output.console, header
      ensures Valid()
      ensures (IoSnap(), err) == ErrorRecordsSpec(Fixed(), config, old(IoSnap()), message, rectype, formatting, kwargs, exc, now, site)
    {
      ghost var c0 := config;
      var calls := ErrorCalls(message, formatting, kwargs, exc, output.file.cwd);
      match calls
      case Raise(e) =>
        err := Some(e);
      case Ok(cs) =>
        ErrorRecordsAre(Fixed(), config, IoSnap(), message, rectype, formatting, kwargs, exc, now, site, cs);
        err := RecordCalls(rectype, cs, now, site);
        assert config == c0;
    }

    /** `error(message, rectype, level, formatting, alarming, sos, **kwargs)` with the active exception `exc`. */
    method Error(message: Value, rectype: string, level: int, formatting: Value, alarming: Value, sos: Value,
                 kwargs: map<string, Value>, exc: Loggers.ExcInfo, now: int, site: Records.CallSite)
      returns (err: Option<Exception>)
      requires Valid()
      modifies this`openTime, output.file, output.file.formatter, output.file.fs, output.console, header, email
      ensures Valid()
      ensures (Snap(), err) == ErrorSpec(Fixed(), old(Snap()), message, rectype, level, formatting, alarming, sos, kwargs, exc, now, site)
    {
      ghost var s0 := Snap();
      ghost var want := ErrorSpec(Fixed(), s0, message, rectype, level, formatting, alarming, sos, kwargs, exc, now, site);
      if ErrorClash(kwargs) {
        return Some(TypeError);
      }
      match ArgOr(formatting, config, "err_formatting")
      case Raise(e) =>
        err := Some(e);
      case Ok(fm) =>
        match ArgOr(alarming, config, "alarming")
        case Raise(e) =>
          err := Some(e);
        case Ok(al) =>
          assert want == ReportedSpec(Fixed(), s0, message, rectype, level, fm, al, sos, kwargs, exc, now, site);
          err := Reported(message, rectype, level, fm, al, sos, kwargs, exc, now, site);
          assert (Snap(), err) == want;
    }

    /** `error` once `formatting` and `alarming` are known. */
    method Reported(message: Value, rectype: string, level: int, formatting: Value, alarming: Value, sos: Value,
                    kwargs: map<string, Value>, exc: Loggers.ExcInfo, now: int, site: Records.CallSite)
      returns (err: Option<Exception>)
      requires Valid()
      modifies this`openTime, output.file, output.file.formatter, output.file.fs, output.console, header, email
      ensures Valid()
      ensures (Snap(), err) == ReportedSpec(Fixed(), old(Snap()), message, rectype, level, formatting, alarming, sos, kwargs, exc, now, site)
    {
      ghost var c0 := config;
      ghost var s0 := Snap();
      ghost var r := ErrorRecordsSpec(Fixed(), s0.config, s0.io, message, rectype, formatting, kwargs, exc, now, site);
      ghost var a := AlarmSpec(s0.(io := r.0), alarming, HeaderText(Fixed(), r.0.header));
      assert ReportedSpec(Fixed(), s0, message, rectype, level, formatting, alarming, sos, kwargs, exc, now, site)
        == if r.1.Some? then (s0.(io := r.0), r.1)
           else if a.1.Some? then a
           else StopSpec(Fixed(), a.0, rectype, level, sos, kwargs, now, site);
      err := ErrorRecords(message, rectype, formatting, kwargs, exc, now, site);
      assert config == c0;
      assert IoSnap() == r.0 && err == r.1;
      assert Snap() == s0.(io := r.0);
      if err.Some? {
        return;
      }
      err := Alarm(alarming);
      assert (Snap(), err) == a;
      if err.Some? {
        return;
      }
      err := Stop(rectype, level, sos, kwargs, now, site);
      assert config == c0;
    }

    /** The alarm step of `error`: `email.alarm()` when `alarming` is `True` and the sink is used. */
    method Alarm(alarming: Value) returns (err: Option<Exception>)
      requires Valid()
      modifies header, email`alarms
      ensures Valid()
      ensures (Snap(), err) == AlarmSpec(old(Snap()), alarming, HeaderText(Fixed(), old(HeaderSnap())))
    {
      ghost var s0 := Snap();
      ghost var text := HeaderText(Fixed(), s0.io.header);
      AlarmRules(s0, alarming, text);
      if alarming == BoolV(true) && email.used {
        var ctx := Headers.Context(app, desc, version, map[]);
        assert text == Headers.Created(header.items, header.length, header.div, header.offset, ctx);
        err := email.Alarm(header, ctx);
        assert HeaderSnap() == s0.io.header.(used := true);
        assert email.alarms == if text.Raise? then s0.email.alarms else s0.email.alarms + 1;
        assert err == if text.Raise? then Some(text.exc) else None;
      } else {
        err := None;
      }
    }

    /** The emergency stop at the end of `error`. */
    method Stop(rectype: string, level: int, sos: Value, kwargs: map<string, Value>, now: int, site: Records.CallSite)
      returns (err: Option<Exception>)
      requires Valid()
      modifies this`openTime, output.file, output.file.formatter, output.file.fs, output.console, header
      ensures Valid()
      ensures (Snap(), err) == StopSpec(Fixed(), old(Snap()), rectype, level, sos, kwargs, now, site)
    {
      ghost var s0 := Snap();
      ghost var want := StopSpec(Fixed(), s0, rectype, level, sos, kwargs, now, site);
      match StopDue(control, config, level)
      case Raise(e) =>
        assert want == (s0, Some(e));
        err := Some(e);
      case Ok(due) =>
        if !due {
          assert want == (s0, None);
          err := None;
        } else {
          var c := Keyworded(Or(sos, Messages["sos"]), kwargs);
          ghost var r := RecordSpec(Fixed(), s0.config, s0.io, rectype, c.message, c.error, c.kwargs, now, site);
          assert want == (s0.(io := r.0), if r.1.Some? then r.1 else Some(SystemExit));
          err := Record(rectype, c.message, c.error, c.kwargs, now, site);
          assert config == s0.config && email.used == s0.email.used && email.alarms == s0.email.alarms;
          assert IoSnap() == r.0 && err == r.1;
          if err.None? {
            err := Some(SystemExit);
          }
        }
    }

    /** `warning(message, **kwargs)` (level 0) and `critical(message, **kwargs)` (level 2). */
    method Leveled(message: Value, rectype: string, level: int, kwargs: map<string, Value>, exc: Loggers.ExcInfo,
                   now: int, site: Records.CallSite) returns (err: Option<Exception>)
      requires Valid()
      modifies this`openTime, output.file, output.file.formatter, output.file.fs, output.console, header, email
      ensures Valid()
      ensures (Snap(), err) == LeveledSpec(Fixed(), old(Snap()), message, rectype, level, kwargs, exc, now, site)
    {
      ghost var c0 := config;
      if "self" in kwargs || "message" in kwargs || "rectype" in kwargs || "level" in kwargs {
        return Some(TypeError);
      }
      err := Error(message, rectype, level, Loggers.Arg(kwargs, "formatting"), Loggers.Arg(kwargs, "alarming"),
        Loggers.Arg(kwargs, "sos"), kwargs - {"formatting", "alarming", "sos"}, exc, now, site);
      assert config == c0;
    }

    // ---- configuration ---------------------------------------------------

    /** `configure(**o)` on a built log. */
    method Configure(o: Options, now: int) returns (err: Option<Exception>)
      requires Valid()
      modifies this`config, this`openTime, output, output.file, output.file.formatter, output.file.fs, output.console, header
      ensures Valid()
      ensures (Snap(), err) == ConfigureSpec(Fixed(), old(Snap()), o, now)
    {
      if !(o.Keys <= Parameters) {
        return Some(TypeError);
      }
      Store(OutputKeys, o);
      Steer(o);
      err := Settle(o, now);
    }

    /** `configure` after the switches. */
    method Settle(o: Options, now: int) returns (err: Option<Exception>)
      requires Valid()
      modifies this`config, this`openTime, output.file, output.file.formatter, output.file.fs, output.console, header
      ensures Valid()
      ensures (Snap(), err) == SettledSpec(Fixed(), old(config), old(IoSnap()), old(Snap().email), o, now)
    {
      err := Repath(o, now);
      if err.Some? {
        return;
      }
      Store(SettingKeys, o);
      Resize(o);
    }

    /** The `activate`/`deactivate` and `enable`/`disable` calls of `configure`. */
    method Steer(o: Options)
      modifies output`status, output.file`used, output.console`used
      ensures output.Snap() == Steered(old(output.Snap()), o)
    {
      var status, file, console := Loggers.Arg(o, "status"), Loggers.Arg(o, "file"), Loggers.Arg(o, "console");
      if status == BoolV(true) {
        output.Activate();
      } else if status == BoolV(false) {
        output.Deactivate();
      }
      if file == BoolV(true) {
        output.file.Enable();
      } else if file == BoolV(false) {
        output.file.Disable();
      }
      if console == BoolV(true) {
        output.console.Enable();
      } else if console == BoolV(false) {
        output.console.Disable();
      }
    }

    /** The path branch of `configure`. */
    method Repath(o: Options, now: int) returns (err: Option<Exception>)
      requires Valid()
      modifies this`openTime, output.file, output.file.formatter, output.file.fs, output.console, header
      ensures Valid()
      ensures (IoSnap(), err) == RepathSpec(Fixed(), config, old(IoSnap()), o, now)
    {
      err := None;
      if !Repaths(o) {
        return;
      }
      var p := NewPath(config, o);
      if p.Raise? {
        return Some(p.exc);
      }
      err := output.file.formatter.Modify(StrV(p.value), map[]);
      if err.Some? {
        return;
      }
      err := Restart(now);
    }
  }

  // ---- properties --------------------------------------------------------------

  /** No stored text is lost or cut: every file on disk is still there, its old contents a prefix of its new ones. */
  ghost predicate Grows(d: Outputs.Disk, d': Outputs.Disk)
  {
    forall p :: p in d.files ==> p in d'.files && d.files[p] <= d'.files[p]
  }

  lemma GrowsTrans(d1: Outputs.Disk, d2: Outputs.Disk, d3: Outputs.Disk)
    requires Grows(d1, d2) && Grows(d2, d3)
    ensures Grows(d1, d3)
  {
  }

  /** The size test: on, the file prepared and measured, and its size past `max_size`. */
  predicate SizeOver(config: map<string, Value>, f: LegacyOutputs.FileState)
  {
    "limit_by_size" in config && config["limit_by_size"] == BoolV(true) && !f.io.Unset? && f.size.Some?
    && "max_size" in config && IsInt(config["max_size"]) && f.size.value > AsInt(config["max_size"])
  }

  /** The day test: on, the file prepared and changed, and its last change on another day of the month than now. */
  predicate DayChanged(config: map<string, Value>, f: LegacyOutputs.FileState, now: int)
  {
    "limit_by_day" in config && config["limit_by_day"] == BoolV(true) && !f.io.Unset? && f.modified.Some?
    && Clock.DayOfMonth(f.modified.value) != Clock.DayOfMonth(now)
  }

  /**
   * `check()` acts only on a used file.  A size past `max_size` restarts
   * and ends the check, so the day is not looked at; otherwise a last
   * change on another day of the month restarts; otherwise nothing
   * happens.  A used file that was never prepared has no size to look at.
   */
  lemma CheckRules(env: Env, config: map<string, Value>, io: Io, now: int)
    ensures !io.output.file.used ==> CheckSpec(env, config, io, now) == (io, None)
    ensures SizeBranch(config, io.output.file).Ok? ==> SizeBranch(config, io.output.file) == Ok(SizeOver(config, io.output.file))
    ensures DayBranch(config, io.output.file, now).Ok? ==>
      DayBranch(config, io.output.file, now) == Ok(DayChanged(config, io.output.file, now))
    ensures io.output.file.used && SizeOver(config, io.output.file) ==> CheckSpec(env, config, io, now) == RestartSpec(env, config, io, now)
    ensures io.output.file.used && SizeBranch(config, io.output.file) == Ok(false) && DayChanged(config, io.output.file, now) ==>
      CheckSpec(env, config, io, now) == RestartSpec(env, config, io, now)
    ensures io.output.file.used && SizeBranch(config, io.output.file) == Ok(false) && DayBranch(config, io.output.file, now) == Ok(false) ==>
      CheckSpec(env, config, io, now) == (io, None)
    ensures io.output.file.used && io.output.file.io.Unset? && "limit_by_size" in config && config["limit_by_size"] == BoolV(true) ==>
      CheckSpec(env, config, io, now) == (io, Some(AttributeError("_size")))
  {
  }

  /** A file with no size and no change time since it was prepared (as right after a restart) is never rotated. */
  lemma FreshNotRotated(env: Env, config: map<string, Value>, io: Io, now: int)
    requires Rank(io) == 0
    ensures CheckSpec(env, config, io, now).0 == io
  {
  }

  lemma {:induction false} CheckGrows(env: Env, config: map<string, Value>, io: Io, now: int)
    ensures Grows(io.disk, CheckSpec(env, config, io, now).0.disk)
    decreases Rank(io), 2
  {
    var f := io.output.file;
    if f.used && (SizeBranch(config, f) == Ok(true) || (SizeBranch(config, f) == Ok(false) && DayBranch(config, f, now) == Ok(true))) {
      assert CheckSpec(env, config, io, now) == RestartSpec(env, config, io, now);
      RestartGrows(env, config, io, now);
    }
  }

  lemma {:induction false} RestartGrows(env: Env, config: map<string, Value>, io: Io, now: int)
    ensures Grows(io.disk, RestartSpec(env, config, io, now).0.disk)
    decreases 1, 1
  {
    var (io2, err) := Moved(env, io, now);
    if err.None? && io2.header.used {
      var io3 := io2.(header := Refresh(io2.header, now));
      assert Rank(io3) == 0;
      HeadGrows(env, config, io3, now);
    }
  }

  lemma {:induction false} HeadGrows(env: Env, config: map<string, Value>, io: Io, now: int)
    ensures Grows(io.disk, HeadSpec(env, config, io, now).0.disk)
    decreases Rank(io), 4
  {
    var io1 := io.(header := io.header.(used := true));
    assert Rank(io1) == Rank(io);
    if HeaderText(env, io.header).Ok? {
      WriteGrows(env, config, io1, HeaderText(env, io.header).value, now);
    }
  }

  /** The output appends to the file it writes and changes no other file. */
  lemma OutputGrows(o: LegacyOutputs.OutputState, d: Outputs.Disk, s: string, now: int)
    ensures Grows(d, LegacyOutputs.OutputWritten(o, d, s, now).1)
  {
    var (f, d1, err) := LegacyOutputs.Written(o.file, d, s, now);
    assert Grows(d, d1);
  }

  /**
   * A write never deletes or shortens a file: the text is appended, and a
   * rotation only moves on to a new path, leaving the old file as it was.
   */
  lemma {:induction false} WriteGrows(env: Env, config: map<string, Value>, io: Io, s: string, now: int)
    ensures Grows(io.disk, WriteSpec(env, config, io, s, now).0.disk)
    decreases Rank(io), 3
  {
    CheckGrows(env, config, io, now);
    var r := CheckSpec(env, config, io, now);
    if r.1.None? {
      OutputGrows(r.0.output, r.0.disk, s, now);
      GrowsTrans(io.disk, r.0.disk, LegacyOutputs.OutputWritten(r.0.output, r.0.disk, s, now).1);
    }
  }

  /** The header is written again after a restart iff it was created before, and only when the move succeeded. */
  lemma RestartHeads(env: Env, config: map<string, Value>, io: Io, now: int)
    ensures var (io2, err) := Moved(env, io, now);
      (!io.header.used || err.Some? ==> RestartSpec(env, config, io, now) == (io2, err))
      && (io.header.used && err.None? ==>
            RestartSpec(env, config, io, now) == HeadSpec(env, config, io2.(header := Refresh(io2.header, now)), now))
  {
  }

  /** After a restart the log's open time is now, even when the header was written again. */
  lemma RestartOpensNow(env: Env, config: map<string, Value>, io: Io, now: int)
    ensures RestartSpec(env, config, io, now).0.openTime == now
  {
    var (io2, err) := Moved(env, io, now);
    RestartHeads(env, config, io, now);
    if err.None? && io.header.used {
      var io3 := io2.(header := Refresh(io2.header, now));
      assert !io.output.file.used ==> Rank(io3) == 0;
      assert Rank(io3) == 0;
      FreshNotRotated(env, config, io3.(header := io3.header.(used := true)), now);
    }
  }

  /**
   * `restart()`: the log opens now.  A used file moves to a new path with
   * no handle, size or change time; the header is refreshed and written
   * again iff it was created before.  Nothing on disk is lost.
   */
  lemma RestartRules(env: Env, config: map<string, Value>, io: Io, now: int)
    ensures RestartSpec(env, config, io, now).0.openTime == now
    ensures Grows(io.disk, RestartSpec(env, config, io, now).0.disk)
    ensures var (io2, err) := Moved(env, io, now);
      (!io.header.used || err.Some? ==> RestartSpec(env, config, io, now) == (io2, err))
      && (io.header.used && err.None? ==>
            RestartSpec(env, config, io, now) == HeadSpec(env, config, io2.(header := Refresh(io2.header, now)), now))
  {
    RestartGrows(env, config, io, now);
    RestartHeads(env, config, io, now);
    RestartOpensNow(env, config, io, now);
  }

  /**
   * The record calls of `error` with an active exception and `formatting`
   * `True`: one per traceback frame, the `i`-th carrying the message, the
   * error flag and that frame's absolute file, line and function next to
   * the caller's keywords.
   */
  lemma FramesCarryMessage(message: Value, kwargs: map<string, Value>, exc: Loggers.ExcInfo, cwd: string, i: int)
    requires exc.Active? && "error" !in kwargs && kwargs.Keys * Loggers.FrameKeys == {}
    requires 0 <= i < |exc.frames|
    ensures ErrorCalls(message, BoolV(true), kwargs, exc, cwd).Ok?
    ensures |ErrorCalls(message, BoolV(true), kwargs, exc, cwd).value| == |exc.frames|
    ensures var c := ErrorCalls(message, BoolV(true), kwargs, exc, cwd).value[i];
      c.message == message && c.error == BoolV(true)
      && c.kwargs == Loggers.FrameFields(exc.name, exc.value, exc.frames[i], cwd) + kwargs
  {
    Loggers.FrameCallAt(exc.name, exc.value, message, exc.frames, kwargs, cwd, i);
  }

  /**
   * The other shapes: `formatting` `False` gives one record of a newline
   * and the formatted trace; any other value but `True` gives none; with
   * no active exception there is one record of `message or ''`.  A
   * keyword `error` becomes the record's error flag.
   */
  lemma TraceOrPlain(message: Value, formatting: Value, kwargs: map<string, Value>, exc: Loggers.ExcInfo, cwd: string)
    ensures var error := if "error" in kwargs then kwargs["error"] else BoolV(false);
      var calls := ErrorCalls(message, formatting, kwargs, exc, cwd);
      (exc.Active? && formatting == BoolV(false) ==>
         calls == Ok([Loggers.Call(StrV("\n" + exc.trace), error, kwargs - {"error"})]))
      && (exc.Active? && formatting != BoolV(true) && formatting != BoolV(false) ==> calls == Ok([]))
      && (exc.NoException? ==> calls == Ok([Loggers.Call(Or(message, StrV("")), error, kwargs - {"error"})]))
  {
  }

  /**
   * The alarm comes after the records and before the stop: a failed
   * record ends the call before any alarm; when `alarming` is `True` and
   * the email sink is used, the alarm creates the header, which is then
   * used, and a header that does not render ends the call with its
   * exception, before the stop and with no alarm counted.
   */
  lemma AlarmBeforeStop(env: Env, s: State, message: Value, rectype: string, level: int, formatting: Value,
                        alarming: Value, sos: Value, kwargs: map<string, Value>, exc: Loggers.ExcInfo, now: int,
                        site: Records.CallSite, io1: Io, rerr: Option<Exception>, text: Result<string>)
    requires ErrorRecordsSpec(env, s.config, s.io, message, rectype, formatting, kwargs, exc, now, site) == (io1, rerr)
    requires HeaderText(env, io1.header) == text
    ensures rerr.Some? ==>
      ReportedSpec(env, s, message, rectype, level, formatting, alarming, sos, kwargs, exc, now, site) == (s.(io := io1), rerr)
    ensures rerr.None? && alarming == BoolV(true) && s.email.used && text.Raise? ==>
      ReportedSpec(env, s, message, rectype, level, formatting, alarming, sos, kwargs, exc, now, site)
        == (s.(io := io1.(header := io1.header.(used := true))), Some(text.exc))
  {
    var reported := ReportedSpec(env, s, message, rectype, level, formatting, alarming, sos, kwargs, exc, now, site);
    if rerr.None? {
      var a := AlarmSpec(s.(io := io1), alarming, text);
      assert reported == if a.1.Some? then a else StopSpec(env, a.0, rectype, level, sos, kwargs, now, site);
      AlarmRules(s.(io := io1), alarming, text);
    } else {
      assert reported == (s.(io := io1), rerr);
    }
  }

  /** Once the records are written and no alarm is due, the stop follows directly. */
  lemma NoAlarmThenStop(env: Env, s: State, message: Value, rectype: string, level: int, formatting: Value,
                        alarming: Value, sos: Value, kwargs: map<string, Value>, exc: Loggers.ExcInfo, now: int,
                        site: Records.CallSite, io1: Io)
    requires ErrorRecordsSpec(env, s.config, s.io, message, rectype, formatting, kwargs, exc, now, site) == (io1, None)
    requires alarming != BoolV(true) || !s.email.used
    ensures ReportedSpec(env, s, message, rectype, level, formatting, alarming, sos, kwargs, exc, now, site)
      == StopSpec(env, s.(io := io1), rectype, level, sos, kwargs, now, site)
  {
    AlarmRules(s.(io := io1), alarming, HeaderText(env, io1.header));
  }

  /**
   * Once the records are written and the alarm is sent, the stop runs on a
   * state whose header is used and whose email sink has counted one more
   * alarm.
   */
  lemma AlarmThenStop(env: Env, s: State, message: Value, rectype: string, level: int, formatting: Value,
                      alarming: Value, sos: Value, kwargs: map<string, Value>, exc: Loggers.ExcInfo, now: int,
                      site: Records.CallSite, io1: Io)
    requires ErrorRecordsSpec(env, s.config, s.io, message, rectype, formatting, kwargs, exc, now, site) == (io1, None)
    requires alarming == BoolV(true) && s.email.used && HeaderText(env, io1.header).Ok?
    ensures ReportedSpec(env, s, message, rectype, level, formatting, alarming, sos, kwargs, exc, now, site)
      == StopSpec(env, s.(io := io1.(header := io1.header.(used := true)), email := s.email.(alarms := s.email.alarms + 1)),
                  rectype, level, sos, kwargs, now, site)
  {
    var a := AlarmSpec(s.(io := io1), alarming, HeaderText(env, io1.header));
    AlarmRules(s.(io := io1), alarming, HeaderText(env, io1.header));
    var sent := s.(io := io1.(header := io1.header.(used := true)), email := s.email.(alarms := s.email.alarms + 1));
    assert a.0 == sent && a.1.None?;
    assert ReportedSpec(env, s, message, rectype, level, formatting, alarming, sos, kwargs, exc, now, site)
      == StopSpec(env, a.0, rectype, level, sos, kwargs, now, site);
    StopCongruent(env, a.0, sent, rectype, level, sos, kwargs, now, site);
  }

  /** The stop depends on the state it is given only through that state. */
  lemma StopCongruent(env: Env, x: State, y: State, rectype: string, level: int, sos: Value, kwargs: map<string, Value>,
                      now: int, site: Records.CallSite)
    requires x == y
    ensures StopSpec(env, x, rectype, level, sos, kwargs, now, site) == StopSpec(env, y, rectype, level, sos, kwargs, now, site)
  {
  }

  /**
   * The alarm on its own: nothing happens unless `alarming` is `True` and
   * the sink is used; then the header becomes used, and either its
   * exception ends the alarm or one alarm is counted.
   */
  lemma AlarmRules(s: State, alarming: Value, text: Result<string>)
    ensures alarming != BoolV(true) || !s.email.used ==> AlarmSpec(s, alarming, text) == (s, None)
    ensures alarming == BoolV(true) && s.email.used && text.Raise? ==>
      AlarmSpec(s, alarming, text) == (s.(io := s.io.(header := s.io.header.(used := true))), Some(text.exc))
    ensures alarming == BoolV(true) && s.email.used && text.Ok? ==>
      AlarmSpec(s, alarming, text)
        == (s.(io := s.io.(header := s.io.header.(used := true)), email := s.email.(alarms := s.email.alarms + 1)), None)
  {
  }

  /** An alarm is counted iff the records were written, `alarming` is `True`, the sink is used and the header renders. */
  lemma AlarmCounted(env: Env, s: State, message: Value, rectype: string, level: int, formatting: Value,
                     alarming: Value, sos: Value, kwargs: map<string, Value>, exc: Loggers.ExcInfo, now: int,
                     site: Records.CallSite)
    ensures var reported := ReportedSpec(env, s, message, rectype, level, formatting, alarming, sos, kwargs, exc, now, site);
      var (io1, rerr) := ErrorRecordsSpec(env, s.config, s.io, message, rectype, formatting, kwargs, exc, now, site);
      var sent := rerr.None? && alarming == BoolV(true) && s.email.used && HeaderText(env, io1.header).Ok?;
      reported.0.config == s.config && reported.0.email.used == s.email.used
      && reported.0.email.alarms == if sent then s.email.alarms + 1 else s.email.alarms
  {
    var r := ErrorRecordsSpec(env, s.config, s.io, message, rectype, formatting, kwargs, exc, now, site);
    var reported := ReportedSpec(env, s, message, rectype, level, formatting, alarming, sos, kwargs, exc, now, site);
    if r.1.None? {
      var a := AlarmSpec(s.(io := r.0), alarming, HeaderText(env, r.0.header));
      assert reported == if a.1.Some? then a else StopSpec(env, a.0, rectype, level, sos, kwargs, now, site);
      if a.1.None? {
        StopKeeps(env, a.0, rectype, level, sos, kwargs, now, site);
      }
    }
  }

  /** The stop changes only what its record writes. */
  lemma StopKeeps(env: Env, s: State, rectype: string, level: int, sos: Value, kwargs: map<string, Value>, now: int,
                  site: Records.CallSite)
    ensures var t := StopSpec(env, s, rectype, level, sos, kwargs, now, site).0;
      t.config == s.config && t.email == s.email
  {
  }

  /**
   * The emergency stop: without control, or below `CONFIG['emergency']`,
   * nothing happens; at or above it one more record, of `sos` or the
   * stock SOS message, is written, then the program exits
   * (`SystemExit`), unless that record itself fails.
   */
  lemma StopRules(env: Env, s: State, rectype: string, level: int, sos: Value, kwargs: map<string, Value>, now: int,
                  site: Records.CallSite)
    ensures env.control != BoolV(true) ==> StopSpec(env, s, rectype, level, sos, kwargs, now, site) == (s, None)
    ensures env.control == BoolV(true) && "emergency" in s.config && s.config["emergency"].IntV? ==>
      var em := s.config["emergency"].i;
      var error := if "error" in kwargs then kwargs["error"] else BoolV(false);
      var r := RecordSpec(env, s.config, s.io, rectype, Or(sos, SosMessage), error, kwargs - {"error"}, now, site);
      StopSpec(env, s, rectype, level, sos, kwargs, now, site)
        == if level < em then (s, None) else (s.(io := r.0), if r.1.Some? then r.1 else Some(SystemExit))
  {
  }

  /**
   * With the `emergency` of 2 that construction stores, and control on,
   * `warning` (level 0) and `error` (level 1) carry on and `critical`
   * (level 2) stops.
   */
  lemma DefaultLevels(config: map<string, Value>)
    requires "emergency" in config && config["emergency"] == IntV(2)
    ensures StopDue(BoolV(true), config, 0) == Ok(false)
    ensures StopDue(BoolV(true), config, 1) == Ok(false)
    ensures StopDue(BoolV(true), config, 2) == Ok(true)
  {
  }

  /** `Stored` puts exactly the listed arguments that are not `None` into the settings and keeps every other key. */
  lemma StoredRule(config: map<string, Value>, keys: seq<string>, o: Options, k: string)
    ensures var stored := k in keys && Loggers.Arg(o, k) != NoneV;
      (k in Stored(config, keys, o) <==> stored || k in config)
      && (stored ==> Stored(config, keys, o)[k] == Loggers.Arg(o, k))
      && (!stored && k in config ==> Stored(config, keys, o)[k] == config[k])
  {
  }

  /**
   * `configure` stores exactly its arguments that are not `None` into
   * `CONFIG` and keeps every other key, once the path has been set without
   * error; the email settings are not stored (on a built log they are not
   * used at all, since the email sink is only made on the first call).
   */
  lemma ConfigureStores(env: Env, s: State, o: Options, now: int, k: string)
    requires o.Keys <= Parameters
    requires RepathSpec(env, Stored(s.config, OutputKeys, o), s.io.(output := Steered(s.io.output, o)), o, now).1.None?
    ensures var (t, err) := ConfigureSpec(env, s, o, now);
      var stored := (k in OutputKeys || k in SettingKeys) && k in o && o[k] != NoneV;
      err.None? && t.email == s.email
      && (k in t.config <==> stored || k in s.config)
      && (stored ==> t.config[k] == o[k])
      && (!stored && k in s.config ==> t.config[k] == s.config[k])
  {
    var c1 := Stored(s.config, OutputKeys, o);
    var r := RepathSpec(env, c1, s.io.(output := Steered(s.io.output, o)), o, now);
    assert ConfigureSpec(env, s, o, now) == (State(Stored(c1, SettingKeys, o), r.0.(header := Resized(r.0.header, o)), s.email), None);
    StoredRule(s.config, OutputKeys, o, k);
    StoredRule(c1, SettingKeys, o, k);
  }

  /** Two partial `configure` calls with no common keyword store what one call with both would. */
  lemma StoredAddsUp(config: map<string, Value>, keys: seq<string>, o1: Options, o2: Options)
    requires o1.Keys !! o2.Keys
    ensures Stored(Stored(config, keys, o1), keys, o2) == Stored(config, keys, o1 + o2)
  {
    var a := Stored(Stored(config, keys, o1), keys, o2);
    var b := Stored(config, keys, o1 + o2);
    forall k | true
      ensures (k in a <==> k in b) && (k in a ==> a[k] == b[k])
    {
      StoredRule(config, keys, o1, k);
      StoredRule(Stored(config, keys, o1), keys, o2, k);
      StoredRule(config, keys, o1 + o2, k);
      Loggers.ArgDisjoint(o1, o2, k);
    }
    assert a == b;
  }

  /**
   * The path is set anew iff `folder` is truthy, or `filename` is truthy,
   * or `extension` is not `None` (`or` binds looser than `is not`); the
   * new pattern is `folder/filename.extension` of the new or stored parts,
   * and a restart follows.
   */
  lemma RepathRules(env: Env, config: map<string, Value>, io: Io, o: Options, now: int)
    ensures !Repaths(o) ==> RepathSpec(env, config, io, o, now) == (io, None)
    ensures Repaths(o) && NewPath(config, o).Ok? && Patterns.SetAll(io.path, StrV(NewPath(config, o).value), map[]).1.None? ==>
      var fmt := Patterns.SetAll(io.path, StrV(NewPath(config, o).value), map[]).0;
      RepathSpec(env, config, io, o, now) == RestartSpec(env, config, io.(path := fmt), now)
    ensures Truthy(Loggers.Arg(o, "folder")) && Truthy(Loggers.Arg(o, "filename")) && Truthy(Loggers.Arg(o, "extension")) ==>
      NewPath(config, o) == Ok(Str(o["folder"]) + "/" + Str(o["filename"]) + "." + Str(o["extension"]))
    ensures !Truthy(Loggers.Arg(o, "folder")) && "folder" !in config ==> NewPath(config, o) == Raise(KeyError("folder"))
  {
  }

  /** An empty `extension` alone moves the file; an empty `folder` alone does not. */
  lemma RepathPrecedence()
    ensures Repaths(map["extension" := StrV("")])
    ensures !Repaths(map["folder" := StrV("")])
  {
    assert Loggers.Arg(map["extension" := StrV("")], "extension") == StrV("");
    assert Loggers.Arg(map["folder" := StrV("")], "folder") == StrV("");
    assert Loggers.Arg(map["folder" := StrV("")], "filename") == NoneV;
    assert Loggers.Arg(map["folder" := StrV("")], "extension") == NoneV;
  }

  /**
   * A new log: `CONFIG` holds `emergency` 2, the path parts and layouts
   * given or their defaults, and the size limit of 10 MiB unless one is
   * given; the log opens now, its header is not yet created, and the
   * email sink is used only for an address other than `None` or `False`
   * (the default is `False`) and has sent no alarm.
   */
  lemma InitRule(app: Value, o: Options, p: Headers.Platform, d: Outputs.Disk, cwd: string, now: int)
    requires InitSpec(app, o, p, d, cwd, now).Ok?
    ensures var s := InitSpec(app, o, p, d, cwd, now).value;
      "emergency" in s.config && s.config["emergency"] == IntV(2)
      && "folder" in s.config && s.config["folder"] == Or(Loggers.Arg(o, "folder"), StrV("logs"))
      && "filename" in s.config && s.config["filename"] == Or(Loggers.Arg(o, "filename"), StrV(DefaultFilename))
      && "extension" in s.config && s.config["extension"] == Or(Loggers.Arg(o, "extension"), StrV("log"))
      && "format" in s.config && s.config["format"] == Or(Loggers.Arg(o, "format"), StrV(DefaultFormat))
      && "error_format" in s.config && s.config["error_format"] == Or(Loggers.Arg(o, "error_format"), StrV(DefaultErrorFormat))
      && ("max_size" !in o ==> "max_size" in s.config && s.config["max_size"] == IntV(10485760))
      && s.io.openTime == now && !s.io.header.used
      && s.email.alarms == 0 && ("email" !in o ==> !s.email.used)
  {
    var a := InitArgs(o);
    InitPathArgs(o);
    InitLayoutArgs(o);
    InitLimitArgs(o);
    var s := Assembled(app, o, a, p, now, FirstOutput(app, a, d, cwd, now).value);
    assert InitSpec(app, o, p, d, cwd, now).value == s;
    StoredTwice(a, "folder");
    StoredTwice(a, "filename");
    StoredTwice(a, "extension");
    StoredTwice(a, "format");
    StoredTwice(a, "error_format");
    StoredTwice(a, "emergency");
    if "max_size" !in o {
      StoredTwice(a, "max_size");
    }
  }

  /** The path parts `__init__` hands to `configure`: the given ones when truthy, else `logs`, the stamped name and `log`. */
  lemma InitPathArgs(o: Options)
    ensures var a := InitArgs(o);
      Loggers.Arg(a, "folder") == Or(Loggers.Arg(o, "folder"), StrV("logs"))
      && Loggers.Arg(a, "filename") == Or(Loggers.Arg(o, "filename"), StrV(DefaultFilename))
      && Loggers.Arg(a, "extension") == Or(Loggers.Arg(o, "extension"), StrV("log"))
  {
    var g := InitDefaults + o;
    var a := InitArgs(o);
    assert Loggers.Arg(g, "folder") == Loggers.Arg(o, "folder");
    assert a["folder"] == Or(Loggers.Arg(g, "folder"), StrV("logs"));
    assert Loggers.Arg(g, "filename") == Loggers.Arg(o, "filename");
    assert a["filename"] == Or(Loggers.Arg(g, "filename"), StrV(DefaultFilename));
    assert Loggers.Arg(g, "extension") == Loggers.Arg(o, "extension");
    assert a["extension"] == Or(Loggers.Arg(g, "extension"), StrV("log"));
  }

  /** The layouts `__init__` hands to `configure`, and the `emergency` of 2 it always passes. */
  lemma InitLayoutArgs(o: Options)
    ensures var a := InitArgs(o);
      Loggers.Arg(a, "emergency") == IntV(2)
      && Loggers.Arg(a, "format") == Or(Loggers.Arg(o, "format"), StrV(DefaultFormat))
      && Loggers.Arg(a, "error_format") == Or(Loggers.Arg(o, "error_format"), StrV(DefaultErrorFormat))
  {
    var g := InitDefaults + o;
    assert Loggers.Arg(g, "format") == Loggers.Arg(o, "format");
    assert Loggers.Arg(g, "error_format") == Loggers.Arg(o, "error_format");
  }

  /** The size limit of 10 MiB and the email address `False` that `__init__` passes when none is given. */
  lemma InitLimitArgs(o: Options)
    ensures var a := InitArgs(o);
      ("max_size" !in o ==> Loggers.Arg(a, "max_size") == IntV(10485760))
      && ("email" !in o ==> Loggers.Arg(a, "email") == BoolV(false))
  {
    var g := InitDefaults + o;
    if "max_size" !in o {
      assert g["max_size"] == IntV(10485760);
      assert Loggers.Arg(InitArgs(o), "max_size") == g["max_size"];
    }
    if "email" !in o {
      assert g["email"] == BoolV(false);
      assert Loggers.Arg(InitArgs(o), "email") == g["email"];
    }
  }

  /** The settings of both stages of the first `configure` call, starting from an empty `CONFIG`. */
  lemma StoredTwice(a: Options, k: string)
    requires k in OutputKeys || k in SettingKeys
    requires Loggers.Arg(a, k) != NoneV
    ensures var c := Stored(Stored(map[], OutputKeys, a), SettingKeys, a);
      k in c && c[k] == Loggers.Arg(a, k)
  {
    StoredRule(map[], OutputKeys, a, k);
    StoredRule(Stored(map[], OutputKeys, a), SettingKeys, a, k);
  }

  /**
   * `bound()` draws `CONFIG['div']` repeated `CONFIG['length']` times and a
   * newline; Python's `*` takes the two in either order, anything else is
   * a `TypeError`.
   */
  lemma BorderRule(config: map<string, Value>)
    requires "length" in config && "div" in config
    ensures var length, div := config["length"], config["div"];
      (length.IntV? && div.StrV? ==> BorderSpec(config) == Ok(Repeat(div.s, length.i) + "\n"))
      && (length.StrV? && div.IntV? ==> BorderSpec(config) == Ok(Repeat(length.s, div.i) + "\n"))
      && (!(IsInt(length) && div.StrV?) && !(length.StrV? && IsInt(div)) ==> BorderSpec(config) == Raise(TypeError))
  {
  }

  /** With the file unused a write goes to the console alone (when the output is on), and nothing can rotate. */
  lemma ConsoleOnlyWrite(env: Env, config: map<string, Value>, io: Io, s: string, now: int)
    requires !io.output.file.used
    ensures WriteSpec(env, config, io, s, now)
      == (io.(output := io.output.(console := if io.output.status then Outputs.ConsoleWrite(io.output.console, s) else io.output.console)), None)
  {
  }

  /** `subhead(text)` on the console: a border, the upper-cased text on its own tab-indented line, a border. */
  lemma SubheadOnConsole(env: Env, config: map<string, Value>, io: Io, text: Value, now: int)
    requires !io.output.file.used && io.output.status && io.output.console.status
    requires BorderSpec(config).Ok?
    ensures var b := BorderSpec(config).value;
      var line := Upper("\t" + Str(text) + "\n");
      SubheadSpec(env, config, io, text, now)
        == (io.(output := io.output.(console := io.output.console.(printed := io.output.console.printed + b + line + b))), None)
  {
    var b := BorderSpec(config).value;
    var line := Upper("\t" + Str(text) + "\n");
    var c := io.output.console;
    ConsoleOnlyWrite(env, config, io, b, now);
    var io1 := io.(output := io.output.(console := c.(printed := c.printed + b)));
    ConsoleOnlyWrite(env, config, io1, line, now);
    var io2 := io.(output := io.output.(console := c.(printed := c.printed + b + line)));
    ConsoleOnlyWrite(env, config, io2, b, now);
  }

  /**
   * `record` has no filter: a record of any type whose text builds is
   * written.  With nothing due for rotation, the text is appended to the
   * used file and, once that succeeds, printed on the console.
   */
  lemma RecordAlwaysWrites(env: Env, config: map<string, Value>, io: Io, rectype: string, message: Value, error: Value,
                           kwargs: map<string, Value>, now: int, site: Records.CallSite)
    requires RecordText(config, rectype, message, error, kwargs, now, site).Ok?
    requires CheckSpec(env, config, io, now) == (io, None)
    requires io.output.status && io.output.file.used
    requires LegacyOutputs.Written(io.output.file, io.disk, RecordText(config, rectype, message, error, kwargs, now, site).value, now).2.None?
    ensures io.output.file.path.Some?
    ensures var text := RecordText(config, rectype, message, error, kwargs, now, site).value;
      var path := io.output.file.path.value;
      var (io', err) := RecordSpec(env, config, io, rectype, message, error, kwargs, now, site);
      err.None? && io'.disk.files == io.disk.files[path := Outputs.Contents(io.disk, path) + text]
      && io'.output.console == Outputs.ConsoleWrite(io.output.console, text)
  {
    var text := RecordText(config, rectype, message, error, kwargs, now, site).value;
    LegacyOutputs.WriteAppends(io.output.file, io.disk, text, now);
    assert RecordSpec(env, config, io, rectype, message, error, kwargs, now, site) == WriteSpec(env, config, io, text, now);
  }
}
