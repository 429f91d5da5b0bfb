/**
 * The record of the two older revisions (their `record.py` files are the
 * same text).  A record holds two pattern formatters made when it is built:
 * one for the record layout, with no forms of its own, and one for the
 * message, whose forms are the log and the caller's keywords.  `create()`
 * renders the message into the `message` attribute and then fills the
 * layout from all of the record's attributes.  Placeholders that nothing
 * supplies render as `NONE`, since the formatters give them that form.
 */
module LegacyRecords {
  import opened Python
  import opened Template
  import Clock
  import Patterns
  import Records

  /**
   * The log as a record reads it: its `str()`, and its `RECTYPES` and
   * `CONFIG` dictionaries, `None` where the log has no such attribute.
   */
  datatype LogView = LogView(text: string, rectypes: Option<map<string, Value>>, config: Option<map<string, Value>>)

  /** A record's attributes; `rec` and `msg` are its private layout and message formatters. */
  datatype RecordState = RecordState(
    log: string, tmstmp: int, isotime: string, flname: string, objname: string, rectype: Value,
    message: Value, rec: Patterns.PatternState, msg: Patterns.PatternState)

  /** Both formatters hold a pattern, as every formatter built by `Formatter(...)` does. */
  predicate Ready(r: RecordState)
  {
    r.rec.pattern.Some? && r.msg.pattern.Some?
  }

  /** The text `str()` is taken to give for the two formatter attributes. */
  const FormatterText: string := "<logbook.formatter.Formatter object>"

  /** The attribute names `self.__dict__` holds. */
  const FieldNames: set<string> := {"log", "tmstmp", "isotime", "flname", "objname", "rectype", "message",
    "_Record__rec_formatter", "_Record__msg_formatter"}

  /** `self.__dict__`, which `create()` passes to the layout formatter. */
  function Fields(r: RecordState): (f: map<string, Value>)
    ensures f.Keys == FieldNames
  {
    map["log" := ObjV(r.log), "tmstmp" := TimeV(r.tmstmp), "isotime" := StrV(r.isotime),
        "flname" := StrV(r.flname), "objname" := StrV(r.objname), "rectype" := r.rectype,
        "message" := r.message, "_Record__rec_formatter" := ObjV(FormatterText),
        "_Record__msg_formatter" := ObjV(FormatterText)]
  }

  /** Keywords that would give one of `Record.__init__`'s own parameters a second value. */
  predicate Clash(kwargs: map<string, Value>)
  {
    "self" in kwargs || "log" in kwargs || "rectype" in kwargs || "message" in kwargs || "error" in kwargs
  }

  /** `log.CONFIG[key]`. */
  function Setting(log: LogView, key: string): (r: Result<Value>)
    ensures log.config.Some? && key in log.config.value ==> r == Ok(log.config.value[key])
  {
    if log.config.None? then Raise(AttributeError("CONFIG"))
    else if key !in log.config.value then Raise(KeyError(key))
    else Ok(log.config.value[key])
  }

  /** The record layout, `format or log.CONFIG['format']`. */
  function Layout(log: LogView, format: Value): Result<Value>
  {
    if Truthy(format) then Ok(format) else Setting(log, "format")
  }

  /**
   * The message template `msg_fmt`: for `error=True` the message when it
   * is truthy and `CONFIG['error_format']` otherwise, for `error=False`
   * the message; for any other `error` it is never assigned.
   */
  function MessageTemplate(log: LogView, message: Value, error: Value): Result<Value>
  {
    if error == BoolV(true) then (if Truthy(message) then Ok(message) else Setting(log, "error_format"))
    else if error == BoolV(false) then Ok(message)
    else Raise(UnboundLocalError("msg_fmt"))
  }

  /**
   * `Record(log, rectype, message, error=error, format=format, **kwargs)`,
   * in the order the constructor assigns its attributes.
   */
  function Built(log: LogView, rectype: string, message: Value, error: Value, format: Value,
                 kwargs: map<string, Value>, now: int, site: Records.CallSite): (r: Result<RecordState>)
    ensures r.Ok? ==> Ready(r.value)
    ensures r.Ok? ==> log.rectypes.Some? && rectype in log.rectypes.value && r.value.rectype == log.rectypes.value[rectype]
  {
    if Clash(kwargs) then Raise(TypeError)
    else if log.rectypes.None? then Raise(AttributeError("RECTYPES"))
    else if rectype !in log.rectypes.value then Raise(KeyError(rectype))
    else match Layout(log, format)
      case Raise(e) => Raise(e)
      case Ok(layout) =>
        match Patterns.Created(layout, map[])
        case Raise(e) => Raise(e)
        case Ok(rec) =>
          match MessageTemplate(log, message, error)
          case Raise(e) => Raise(e)
          case Ok(template) =>
            if "pattern" in kwargs then Raise(TypeError)
            else match Patterns.Created(template, kwargs["log" := ObjV(log.text)])
              case Raise(e) => Raise(e)
              case Ok(msg) =>
                Ok(RecordState(log.text, now, Clock.IsoFormat(now), Records.FileLabel(site.file),
                  Records.ObjectName(site.caller), log.rectypes.value[rectype], message, rec, msg))
  }

  /**
   * `Record(log, rectype, message, error=error, **kwargs)`: the
   * constructor's `format` and `error_format` parameters take their
   * keywords out of `kwargs` (`error_format` is accepted and not used).
   */
  function Construct(log: LogView, rectype: string, message: Value, error: Value, kwargs: map<string, Value>,
                     now: int, site: Records.CallSite): (r: Result<RecordState>)
    ensures r.Ok? ==> Ready(r.value)
  {
    Built(log, rectype, message, error, if "format" in kwargs then kwargs["format"] else NoneV,
      kwargs - {"format", "error_format"}, now, site)
  }

  /** `create()`: the message rendered and stored, then the layout filled from the attributes; the new record. */
  function Created(r: RecordState): (Result<string>, RecordState)
    requires Ready(r)
  {
    match Patterns.Rendered(r.msg, map[])
    case Raise(e) => (Raise(e), r)
    case Ok(m) =>
      var r1 := r.(message := StrV(m));
      (Patterns.Rendered(r.rec, Fields(r1)), r1)
  }

  class Record {
    const log: string
    const tmstmp: int
    const isotime: string
    const flname: string
    const objname: string
    const rectype: Value
    var message: Value
    const rec: Patterns.PatternState
    const msg: Patterns.PatternState

    function Snap(): RecordState
      reads this
    {
      RecordState(log, tmstmp, isotime, flname, objname, rectype, message, rec, msg)
    }

    /** The object `Record.__init__` leaves behind. */
    constructor (s: RecordState)
      ensures Snap() == s
    {
      log, tmstmp, isotime, flname, objname, rectype := s.log, s.tmstmp, s.isotime, s.flname, s.objname, s.rectype;
      message, rec, msg := s.message, s.rec, s.msg;
    }

    /** `create()`: only `message` changes. */
    method Create() returns (s: Result<string>)
      requires Ready(Snap())
      modifies this`message
      ensures (s, Snap()) == Created(old(Snap()))
    {
      var m := Patterns.Rendered(msg, map[]);
      if m.Raise? {
        return Raise(m.exc);
      }
      message := StrV(m.value);
      s := Patterns.Rendered(rec, Fields(Snap()));
    }
  }

  // ---- properties ------------------------------------------------------

  /**
   * The label is `log.RECTYPES[rectype]`; an unregistered type raises a
   * `KeyError` naming it, and a log without `RECTYPES` an `AttributeError`.
   */
  lemma RecordTypeLabel(log: LogView, rectype: string, message: Value, error: Value, format: Value,
                        kwargs: map<string, Value>, now: int, site: Records.CallSite)
    requires !Clash(kwargs)
    ensures log.rectypes.None? ==> Built(log, rectype, message, error, format, kwargs, now, site) == Raise(AttributeError("RECTYPES"))
    ensures log.rectypes.Some? && rectype !in log.rectypes.value ==>
      Built(log, rectype, message, error, format, kwargs, now, site) == Raise(KeyError(rectype))
  {
  }

  /** Module-level code is `main`; the file is its base name without extension. */
  lemma CallSiteLabels(log: LogView, rectype: string, message: Value, error: Value, format: Value,
                       kwargs: map<string, Value>, now: int, site: Records.CallSite)
    requires Built(log, rectype, message, error, format, kwargs, now, site).Ok?
    ensures var r := Built(log, rectype, message, error, format, kwargs, now, site).value;
      r.objname == (if site.caller == "<module>" then "main" else site.caller)
      && r.flname == StripExtension(Basename(site.file)) && r.log == log.text && r.message == message
  {
  }

  /** `isotime` is the construction time as `YYYY-MM-DD HH:MM:SS`. */
  lemma IsotimeLayout(log: LogView, rectype: string, message: Value, error: Value, format: Value,
                      kwargs: map<string, Value>, now: int, site: Records.CallSite)
    requires Built(log, rectype, message, error, format, kwargs, now, site).Ok?
    requires 1000 <= Clock.At(now).date.year <= 9999
    ensures var r := Built(log, rectype, message, error, format, kwargs, now, site).value;
      r.isotime == Clock.IsoFormat(now) && r.tmstmp == now && |r.isotime| == 19
      && r.isotime[10] == ' ' && r.isotime[13] == ':' && r.isotime[16] == ':'
  {
    Clock.IsoFormatLayout(now);
  }

  /** The layout is the `format` argument when truthy, `CONFIG['format']` otherwise, as text (`''` for `None`). */
  lemma LayoutChoice(log: LogView, rectype: string, message: Value, error: Value, format: Value,
                     kwargs: map<string, Value>, now: int, site: Records.CallSite)
    requires Built(log, rectype, message, error, format, kwargs, now, site).Ok?
    ensures !Truthy(format) ==> log.config.Some? && "format" in log.config.value
    ensures var t := if Truthy(format) then format else log.config.value["format"];
      Built(log, rectype, message, error, format, kwargs, now, site).value.rec.pattern
      == Some(if t == NoneV then "" else Str(t))
  {
    Patterns.Construction(Layout(log, format).value, map[], "log");
  }

  /**
   * The message template: with `error=True` the message when truthy and
   * `CONFIG['error_format']` otherwise; with `error=False` the message
   * (`''` for `None`).  No other `error` value builds a record.
   */
  lemma MessageChoice(log: LogView, rectype: string, message: Value, error: Value, format: Value,
                      kwargs: map<string, Value>, now: int, site: Records.CallSite)
    requires Built(log, rectype, message, error, format, kwargs, now, site).Ok?
    ensures error == BoolV(true) || error == BoolV(false)
    ensures error == BoolV(true) && !Truthy(message) ==> log.config.Some? && "error_format" in log.config.value
    ensures var t := if error == BoolV(true) && !Truthy(message) then log.config.value["error_format"] else message;
      Built(log, rectype, message, error, format, kwargs, now, site).value.msg.pattern
      == Some(if t == NoneV then "" else Str(t))
  {
    Patterns.Construction(MessageTemplate(log, message, error).value, kwargs["log" := ObjV(log.text)], "log");
  }

  /** An `error` flag that is neither `True` nor `False` leaves the template unassigned. */
  lemma OtherErrorFlagUnbound(log: LogView, rectype: string, message: Value, error: Value, format: Value,
                              kwargs: map<string, Value>, now: int, site: Records.CallSite)
    requires error != BoolV(true) && error != BoolV(false)
    ensures Built(log, rectype, message, error, format, kwargs, now, site).Raise?
  {
  }

  /**
   * `create()` renders the message from the message formatter alone, so
   * it is the same on every call: a second `create()` gives the same text
   * and the same record.
   */
  lemma CreateRefills(r: RecordState)
    requires Ready(r)
    ensures var (s, r1) := Created(r);
      Ready(r1) && r1.rec == r.rec && r1.msg == r.msg
      && (Patterns.Rendered(r.msg, map[]).Ok? ==>
            r1.message == StrV(Patterns.Rendered(r.msg, map[]).value) && s == Patterns.Rendered(r.rec, Fields(r1)))
      && (Patterns.Rendered(r.msg, map[]).Raise? ==> r1 == r && s == Raise(Patterns.Rendered(r.msg, map[]).exc))
      && Created(r1) == (s, r1)
  {
  }

  /**
   * The message is filled from the caller's keywords when it is made: a
   * placeholder `{n}` takes the keyword's value (`None` as `NONE`), and a
   * placeholder no keyword supplies renders as `NONE`.
   */
  lemma MessageFromKeywords(log: LogView, rectype: string, n: string, rest: string, format: Value,
                            kwargs: map<string, Value>, now: int, site: Records.CallSite)
    requires PlainName(n) && BraceFree(rest) && '\n' !in n && '|' !in n && n != "log"
    requires Built(log, rectype, StrV("{" + n + "}" + rest), BoolV(false), format, kwargs, now, site).Ok?
    ensures var r := Built(log, rectype, StrV("{" + n + "}" + rest), BoolV(false), format, kwargs, now, site).value;
      Created(r).1.message == StrV(Str(if n in kwargs then Patterns.Stored(kwargs[n]) else Patterns.Missing) + rest)
  {
    var k := kwargs["log" := ObjV(log.text)];
    Patterns.UnknownRendersNone(n, rest, k);
  }

  /**
   * The layout can name any attribute of the record; a placeholder that is
   * none of them renders as `NONE` instead of failing.
   */
  lemma UnknownFieldRendersNone(log: LogView, rectype: string, message: Value, error: Value, n: string, rest: string,
                                kwargs: map<string, Value>, now: int, site: Records.CallSite)
    requires PlainName(n) && BraceFree(rest) && '\n' !in n && '|' !in n && n !in FieldNames
    requires Built(log, rectype, message, error, StrV("{" + n + "}" + rest), kwargs, now, site).Ok?
    ensures var r := Built(log, rectype, message, error, StrV("{" + n + "}" + rest), kwargs, now, site).value;
      Patterns.Rendered(r.msg, map[]).Ok? ==> Created(r).0 == Ok("NONE" + rest)
  {
    var p := "{" + n + "}" + rest;
    Patterns.UnknownRendersNone(n, rest, map[]);
    var r := Built(log, rectype, message, error, StrV(p), kwargs, now, site).value;
    assert r.rec == Patterns.Created(StrV(p), map[]).value;
    if Patterns.Rendered(r.msg, map[]).Ok? {
      var r1 := Created(r).1;
      var all := r.rec.forms + Fields(r1);
      assert n in all && all[n] == Patterns.Missing;
      FieldPrefix(n, rest, all);
      BraceFreeIsLiteral(rest, all);
    }
  }

  /** The layout fills `{message}` with the rendered message, not the message as given. */
  lemma LayoutSeesRenderedMessage(r: RecordState, rest: string)
    requires Ready(r) && r.rec.pattern == Some("{message}" + rest)
    requires Patterns.Rendered(r.msg, map[]).Ok?
    ensures Created(r).0 == Prepend(Patterns.Rendered(r.msg, map[]).value,
      Format(rest, r.rec.forms + Fields(Created(r).1)))
  {
    var r1 := Created(r).1;
    assert "{message}" + rest == "{" + "message" + "}" + rest;
    Patterns.ArgumentsOverrideForms(r.rec, "message", rest, Fields(r1));
  }
}
