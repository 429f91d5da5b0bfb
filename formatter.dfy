/**
 * The record formatter of the two newer revisions: the record layout, the
 * error-message layout, the line length and the divider used by headers
 * and bounds.  Its only operation is a merge-only `configure`.
 *
 * An attribute the formatter never received (the constructor passes
 * `length=None` on) is represented by `NoneV`: `configure` never stores
 * `None`, so `NoneV` in a field can only mean "not set".
 */
module Formatters {
  import opened Python

  // The layouts are written field by field, in the shape the lemmas about
  // `str.format` take: `"{" + name + "}" + rest`.

  /** The default error-message layout: the five error fields, tab-separated. */
  const ErrorLayout: string := "{" + "err_name" + "}\t{" + "err_value" + "}\t{" + "err_file" + "}\t{"
    + "err_line" + "}\t{" + "err_obj" + "}"
  /** The default record layout of the newest revision: `{isodate}`, `{rectype}`, `{message}`, tab-separated, newline. */
  const IsodateLayout: string := "{" + "isodate" + "}" + ("\t" + ("{" + "rectype" + "}" + ("\t" + ("{" + "message" + "}" + "\n"))))
  /** The default record layout of the intermediate revision: the same with `{isotime}`. */
  const IsotimeLayout: string := "{" + "isotime" + "}" + ("\t" + ("{" + "rectype" + "}" + ("\t" + ("{" + "message" + "}" + "\n"))))

  datatype Settings = Settings(record: Value, error: Value, length: Value, div: Value)

  /** `configure(record, error, length, div)` applied to `s`. */
  function Configured(s: Settings, record: Value, error: Value, length: Value, div: Value): (r: Settings)
  {
    Settings(
      if record != NoneV then record else s.record,
      if error != NoneV then error else s.error,
      if length != NoneV then length else s.length,
      if div != NoneV then div else s.div)
  }

  /** The settings of `Formatter(record, error, length, div)` with the given default record layout. */
  function Initial(defaultRecord: string, record: Value, error: Value, length: Value, div: Value): (r: Settings)
  {
    Configured(Settings(NoneV, NoneV, NoneV, NoneV),
      Or(record, StrV(defaultRecord)),
      if error == NoneV then StrV(ErrorLayout) else error,
      length, div)
  }

  class Formatter {
    var record: Value
    var error: Value
    var length: Value
    var div: Value

    function Snap(): Settings
      reads this
    {
      Settings(record, error, length, div)
    }

    /** `pepperoni.Formatter(record, error, length, div)`; the usual defaults are `length=80, div='*'`. */
    constructor Isodate(record: Value, error: Value, length: Value, div: Value)
      ensures Snap() == Initial(IsodateLayout, record, error, length, div)
    {
      var s := Initial(IsodateLayout, record, error, length, div);
      this.record, this.error, this.length, this.div := s.record, s.error, s.length, s.div;
    }

    /** The intermediate revision's `Formatter(record, error, length, div)`. */
    constructor Isotime(record: Value, error: Value, length: Value, div: Value)
      ensures Snap() == Initial(IsotimeLayout, record, error, length, div)
    {
      var s := Initial(IsotimeLayout, record, error, length, div);
      this.record, this.error, this.length, this.div := s.record, s.error, s.length, s.div;
    }

    /** `configure(record, error, length, div)`: every argument that is not `None` replaces its field. */
    method Configure(record: Value, error: Value, length: Value, div: Value)
      modifies this
      ensures Snap() == Configured(old(Snap()), record, error, length, div)
    {
      ghost var s0 := Snap();
      if record != NoneV { this.record := record; }
      assert this.record == Configured(s0, record, error, length, div).record;
      if error != NoneV { this.error := error; }
      assert this.error == Configured(s0, record, error, length, div).error;
      if length != NoneV { this.length := length; }
      assert this.length == Configured(s0, record, error, length, div).length;
      if div != NoneV { this.div := div; }
    }
  }

  // ---- properties ------------------------------------------------------

  /** With no arguments the constructor yields the documented defaults. */
  lemma DefaultSettings(defaultRecord: string)
    requires defaultRecord != ""
    ensures Initial(defaultRecord, NoneV, NoneV, IntV(80), StrV("*"))
      == Settings(StrV(defaultRecord), StrV(ErrorLayout), IntV(80), StrV("*"))
  {
  }

  /**
   * A falsy record layout (`None`, `''`, `False`, `0`) falls back to the
   * default, while the error layout falls back only for `None`: `False`
   * and `''` survive.
   */
  lemma ConstructorFallbacks(defaultRecord: string, record: Value, error: Value, length: Value, div: Value)
    requires defaultRecord != ""
    ensures Initial(defaultRecord, record, error, length, div).record
      == if Truthy(record) then record else StrV(defaultRecord)
    ensures Initial(defaultRecord, record, error, length, div).error
      == if error == NoneV then StrV(ErrorLayout) else error
  {
  }

  /** `configure` replaces exactly the fields whose argument is not `None`. */
  lemma ConfigureOverwritesGiven(s: Settings, record: Value, error: Value, length: Value, div: Value)
    ensures var r := Configured(s, record, error, length, div);
      (record == NoneV ==> r.record == s.record) && (record != NoneV ==> r.record == record)
      && (error == NoneV ==> r.error == s.error) && (error != NoneV ==> r.error == error)
      && (length == NoneV ==> r.length == s.length) && (length != NoneV ==> r.length == length)
      && (div == NoneV ==> r.div == s.div) && (div != NoneV ==> r.div == div)
  {
  }

  /** `configure()` with every argument `None` is a no-op. */
  lemma ConfigureNothing(s: Settings)
    ensures Configured(s, NoneV, NoneV, NoneV, NoneV) == s
  {
  }

  /** Applying the same arguments twice is the same as applying them once. */
  lemma ConfigureIdempotent(s: Settings, record: Value, error: Value, length: Value, div: Value)
    ensures var once := Configured(s, record, error, length, div);
      Configured(once, record, error, length, div) == once
  {
  }

  /** Two partial calls on disjoint arguments do not clobber each other, in either order. */
  lemma ConfigureCommutes(s: Settings, record: Value, error: Value, length: Value, div: Value)
    ensures Configured(Configured(s, record, NoneV, length, NoneV), NoneV, error, NoneV, div)
      == Configured(Configured(s, NoneV, error, NoneV, div), record, NoneV, length, NoneV)
    ensures Configured(Configured(s, record, NoneV, length, NoneV), NoneV, error, NoneV, div)
      == Configured(s, record, error, length, div)
  {
  }
}
