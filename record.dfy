/**
 * A record of the newest revision: built once from the logger's record
 * types and formatter, the clock and the call site, and rendered by
 * `create()` from its own fields.  The message is rendered when the record
 * is built, from the record's fields and the caller's keyword arguments;
 * a missing placeholder leaves the message template as it is.
 */
module Records {
  import opened Python
  import opened Template
  import Clock
  import Formatters

  /** Where the logging call was made: the caller's file and function, and the thread's name. */
  datatype CallSite = CallSite(file: string, caller: string, thread: string)

  datatype Record = Record(
    format: Value, rectype: Value, datetime: int, isodate: string,
    objname: string, flname: string, thread: string, div: Value, message: string)

  /** The text `str()` gives for the logger object itself. */
  const LoggerText: string := "<pepperoni.logger.Logger object>"

  /** Keyword arguments that would give one of `Record.__init__`'s own parameters a second value. */
  predicate ClashesWithParameters(kwargs: map<string, Value>)
  {
    "self" in kwargs || "logger" in kwargs || "rectype" in kwargs || "message" in kwargs || "error" in kwargs
  }

  /** The attributes a record has before its message is set, as `self.__dict__` lists them. */
  function BaseFields(r: Record): (f: map<string, Value>)
    ensures f.Keys == {"logger", "format", "rectype", "datetime", "isodate", "objname", "flname", "thread", "div"}
  {
    map["logger" := ObjV(LoggerText), "format" := r.format, "rectype" := r.rectype,
        "datetime" := TimeV(r.datetime), "isodate" := StrV(r.isodate), "objname" := StrV(r.objname),
        "flname" := StrV(r.flname), "thread" := StrV(r.thread), "div" := r.div]
  }

  /** Every attribute of a finished record. */
  function Fields(r: Record): (f: map<string, Value>)
    ensures f.Keys == BaseFields(r).Keys + {"message"}
  {
    BaseFields(r)["message" := StrV(r.message)]
  }

  /** `'main'` for module-level code, the function's name otherwise. */
  function ObjectName(caller: string): (n: string)
    ensures caller != "<module>" ==> n == caller
  {
    if caller == "<module>" then "main" else caller
  }

  /** The caller's script name without directory and extension. */
  function FileLabel(file: string): string
  {
    StripExtension(Basename(file))
  }

  /** `message.format(**fields, **kwargs)`; on a `KeyError` the template itself. */
  function RenderMessage(template: string, fields: map<string, Value>, kwargs: map<string, Value>): (r: Result<string>)
  {
    if fields.Keys * kwargs.Keys != {} then Raise(TypeError)
    else match Format(template, fields + kwargs)
      case Ok(s) => Ok(s)
      case Raise(KeyError(_)) => Ok(template)
      case Raise(e) => Raise(e)
  }

  /**
   * `Record(logger, rectype, message, error=error, format=format, **kwargs)`,
   * step by step as the constructor assigns its attributes.  An attribute
   * the formatter lacks (`NoneV`) is an `AttributeError` when it is read.
   */
  function Build(rectypes: map<string, Value>, fmt: Formatters.Settings, rectype: string, message: Value,
                 error: Value, format: Value, kwargs: map<string, Value>, now: int, site: CallSite): (r: Result<Record>)
  {
    if ClashesWithParameters(kwargs) then Raise(TypeError)
    else if !Truthy(format) && fmt.record == NoneV then Raise(AttributeError("record"))
    else if rectype !in rectypes then Raise(KeyError(rectype))
    else if fmt.div == NoneV then Raise(AttributeError("div"))
    else if error != BoolV(false) && fmt.error == NoneV then Raise(AttributeError("error"))
    else
      var base := Record(Or(format, fmt.record), rectypes[rectype], now, Clock.IsoFormat(now),
        ObjectName(site.caller), FileLabel(site.file), site.thread, fmt.div, "");
      var template := Str(if error == BoolV(false) then message else fmt.error);
      match RenderMessage(template, BaseFields(base), kwargs)
      case Raise(e) => Raise(e)
      case Ok(m) => Ok(base.(message := m))
  }

  /**
   * `Record(logger, rectype, message, error=error, **kwargs)`: the
   * constructor's own `format` and `error_format` parameters take their
   * keywords out of `kwargs` (`error_format` is accepted and not used).
   */
  function Construct(rectypes: map<string, Value>, fmt: Formatters.Settings, rectype: string, message: Value,
                     error: Value, kwargs: map<string, Value>, now: int, site: CallSite): (r: Result<Record>)
  {
    Build(rectypes, fmt, rectype, message, error, if "format" in kwargs then kwargs["format"] else NoneV,
      kwargs - {"format", "error_format"}, now, site)
  }

  /** `create()`: the record layout filled from the record's own attributes. */
  function Create(r: Record): (s: Result<string>)
    ensures !r.format.StrV? ==> s == Raise(AttributeError("format"))
  {
    if r.format.StrV? then Format(r.format.s, Fields(r)) else Raise(AttributeError("format"))
  }

  // ---- properties ------------------------------------------------------

  /**
   * The label is `rectypes[rectype]`; an unregistered type raises a
   * `KeyError` naming it (once the layout has been found).
   */
  lemma RecordTypeLabel(rectypes: map<string, Value>, fmt: Formatters.Settings, rectype: string, message: Value,
                        error: Value, format: Value, kwargs: map<string, Value>, now: int, site: CallSite)
    requires !ClashesWithParameters(kwargs) && (Truthy(format) || fmt.record != NoneV)
    ensures rectype !in rectypes ==> Build(rectypes, fmt, rectype, message, error, format, kwargs, now, site) == Raise(KeyError(rectype))
    ensures Build(rectypes, fmt, rectype, message, error, format, kwargs, now, site).Ok? ==>
      rectype in rectypes && Build(rectypes, fmt, rectype, message, error, format, kwargs, now, site).value.rectype == rectypes[rectype]
  {
  }

  /**
   * The call site is normalised: module-level code is `main`, and the file
   * is its base name without extension, so `dir/name.py` gives `name`.
   */
  lemma CallSiteLabels(rectypes: map<string, Value>, fmt: Formatters.Settings, rectype: string, message: Value,
                       error: Value, format: Value, kwargs: map<string, Value>, now: int, site: CallSite)
    requires Build(rectypes, fmt, rectype, message, error, format, kwargs, now, site).Ok?
    ensures var r := Build(rectypes, fmt, rectype, message, error, format, kwargs, now, site).value;
      r.objname == (if site.caller == "<module>" then "main" else site.caller)
      && r.flname == FileLabel(site.file) && r.thread == site.thread
  {
  }

  /** A script `dir/name.ext` is labelled `name`. */
  lemma ScriptLabel(dir: string, name: string, ext: string)
    requires name != [] && '/' !in name && '.' !in name && '/' !in ext && '.' !in ext
    ensures FileLabel(dir + "/" + name + "." + ext) == name
  {
    StripExtensionOfScript(dir, name, ext);
  }

  /** The record layout is `format` when truthy, the formatter's otherwise. */
  lemma RecordLayoutChoice(rectypes: map<string, Value>, fmt: Formatters.Settings, rectype: string, message: Value,
                           error: Value, format: Value, kwargs: map<string, Value>, now: int, site: CallSite)
    requires Build(rectypes, fmt, rectype, message, error, format, kwargs, now, site).Ok?
    ensures Build(rectypes, fmt, rectype, message, error, format, kwargs, now, site).value.format
      == if Truthy(format) then format else fmt.record
  {
  }

  /** With an error flag other than `False` the message is ignored: the error layout is rendered instead. */
  lemma ErrorIgnoresMessage(rectypes: map<string, Value>, fmt: Formatters.Settings, rectype: string,
                            m1: Value, m2: Value, error: Value, format: Value, kwargs: map<string, Value>,
                            now: int, site: CallSite)
    requires error != BoolV(false)
    ensures Build(rectypes, fmt, rectype, m1, error, format, kwargs, now, site)
      == Build(rectypes, fmt, rectype, m2, error, format, kwargs, now, site)
  {
  }

  /**
   * A message with a placeholder nobody supplies is kept as written: the
   * `KeyError` is swallowed.
   */
  lemma MissingPlaceholderKeepsTemplate(template: string, fields: map<string, Value>, kwargs: map<string, Value>)
    requires fields.Keys * kwargs.Keys == {}
    requires Format(template, fields + kwargs).Raise? && Format(template, fields + kwargs).exc.KeyError?
    ensures RenderMessage(template, fields, kwargs) == Ok(template)
  {
  }

  /**
   * A placeholder is filled from the caller's keyword arguments, and only a
   * `KeyError` is swallowed: other format errors escape.
   */
  lemma MessageFromKeywords(name: string, rest: string, fields: map<string, Value>, kwargs: map<string, Value>)
    requires PlainName(name) && name in kwargs && fields.Keys * kwargs.Keys == {}
    ensures RenderMessage("{" + name + "}" + rest, fields, kwargs)
      == match Format(rest, fields + kwargs)
         case Ok(s) => Ok(Str(kwargs[name]) + s)
         case Raise(KeyError(_)) => Ok("{" + name + "}" + rest)
         case Raise(e) => Raise(e)
  {
    FieldPrefix(name, rest, fields + kwargs);
  }

  /** A record layout never sees the caller's keyword arguments: `{k}` for a name outside the record is a `KeyError`. */
  lemma KeywordsInvisibleToLayout(r: Record, name: string, rest: string)
    requires PlainName(name) && name !in Fields(r) && r.format == StrV("{" + name + "}" + rest)
    ensures Create(r) == Raise(KeyError(name))
  {
    FieldPrefix(name, rest, Fields(r));
  }

  /** `isodate` is the construction time as `YYYY-MM-DD HH:MM:SS`. */
  lemma IsodateLayout(rectypes: map<string, Value>, fmt: Formatters.Settings, rectype: string, message: Value,
                      error: Value, format: Value, kwargs: map<string, Value>, now: int, site: CallSite)
    requires Build(rectypes, fmt, rectype, message, error, format, kwargs, now, site).Ok?
    requires 1000 <= Clock.At(now).date.year <= 9999
    ensures var r := Build(rectypes, fmt, rectype, message, error, format, kwargs, now, site).value;
      r.isodate == Clock.IsoFormat(now) && r.datetime == now && |r.isodate| == 19
      && r.isodate[10] == ' ' && r.isodate[13] == ':' && r.isodate[16] == ':'
  {
    Clock.IsoFormatLayout(now);
  }

  /** The default layout fills its three fields in order, separated by tabs. */
  lemma IsodateLayoutFormat(f: map<string, Value>)
    requires "isodate" in f && "rectype" in f && "message" in f
    ensures Format(Formatters.IsodateLayout, f)
      == Ok(Str(f["isodate"]) + ("\t" + (Str(f["rectype"]) + ("\t" + (Str(f["message"]) + "\n")))))
  {
    BraceFreeIsLiteral("\n", f);
    ThreeFields("isodate", "rectype", "message", "\t", "\n", "\n", f);
  }

  /** The default layout renders as `isodate TAB label TAB message NEWLINE`. */
  lemma DefaultLayoutRenders(r: Record)
    requires r.format == StrV(Formatters.IsodateLayout)
    ensures Create(r) == Ok(r.isodate + ("\t" + (Str(r.rectype) + ("\t" + (r.message + "\n")))))
  {
    var f := Fields(r);
    assert f["isodate"] == StrV(r.isodate) && f["rectype"] == r.rectype && f["message"] == StrV(r.message);
    IsodateLayoutFormat(f);
  }
}
