/**
 * The text block a header renders to.  Every line is the divider, the
 * content left-aligned in `length - 2` columns (padded with the divider on
 * the two border lines and with spaces elsewhere) and the divider again:
 * the format `'{div}{content:{filler}<{ln_in}}{div}\n'`.  Between two
 * border lines and two blank lines there is one line per entry: the
 * upper-cased name right-aligned to the longest name plus an offset (2 in
 * the newest revision, 3 in the older ones), `': '` and the value's text.
 * The divider and the values arrive as the text `str()` gives them.
 */
module HeaderLayout {
  import opened Python
  import opened Template
  import opened OrderedDict

  /** The length of the longest name. */
  function MaxLength(names: seq<string>): (n: nat)
    ensures forall i :: 0 <= i < |names| ==> |names[i]| <= n
    ensures names != [] ==> exists i :: 0 <= i < |names| && |names[i]| == n
    ensures names == [] ==> n == 0
  {
    if names == [] then 0
    else
      var rest := MaxLength(names[1..]);
      assert forall i :: 1 <= i < |names| ==> names[i] == names[1..][i - 1];
      if |names[0]| >= rest then |names[0]| else rest
  }

  /**
   * What the length computation and the first frame refuse: a length that
   * is not an integer (`length - 2`), no entries at all (`max` of an empty
   * list), a divider whose `str()` is longer than one character (an invalid
   * fill) and a negative inner width (a sign in a string format spec).
   */
  function LayoutError(names: seq<string>, length: Value, d: string): (r: Option<Exception>)
    ensures r.None? <==> IsInt(length) && names != [] && |d| <= 1 && AsInt(length) >= 2
    ensures r.Some? ==> r.value == (if IsInt(length) then ValueError else TypeError)
  {
    if !IsInt(length) then Some(TypeError)
    else if names == [] then Some(ValueError)
    else if |d| >= 2 || AsInt(length) - 2 < 0 then Some(ValueError)
    else None
  }

  /** A line of the block before rendering: its content and the character that pads it. */
  datatype Frame = Frame(content: string, fill: char)

  /** One framed line: `div`, the content padded to `width` columns with its fill, `div`, newline. */
  function FrameText(d: string, f: Frame, width: nat): string
  {
    d + Pad(f.content, Spec(f.fill, '<', width)) + d + "\n"
  }

  /** The padding of a border line: the divider itself, or a space when the divider is empty. */
  function BorderFill(d: string): char
  {
    if d == "" then ' ' else d[0]
  }

  /** The content of an entry's line. */
  function EntryContent(name: string, text: string, nameWidth: nat): string
  {
    Pad(Upper(name), Spec(' ', '>', nameWidth)) + ": " + text
  }

  function EntryFrames(entries: seq<(string, string)>, nameWidth: nat): (r: seq<Frame>)
    ensures |r| == |entries|
  {
    if entries == [] then []
    else
      [Frame(EntryContent(entries[0].0, entries[0].1, nameWidth), ' ')]
      + EntryFrames(entries[1..], nameWidth)
  }

  /** The frames of the block: border, blank, one per entry, blank, border. */
  function Frames(entries: seq<(string, string)>, d: string, offset: nat): (r: seq<Frame>)
  {
    Framed(Frame("", BorderFill(d)), Frame("", ' '), EntryFrames(entries, MaxLength(Keys(entries)) + offset))
  }

  /** `m` between `edge, gap` and `gap, edge`. */
  function Framed<T>(edge: T, gap: T, m: seq<T>): (r: seq<T>)
    ensures |r| == |m| + 4 && r[0] == r[|m| + 3] == edge && r[1] == r[|m| + 2] == gap
    ensures r[2..|m| + 2] == m
  {
    [edge, gap] + m + [gap, edge]
  }

  function Render(d: string, frames: seq<Frame>, width: nat): string
  {
    if frames == [] then "" else FrameText(d, frames[0], width) + Render(d, frames[1..], width)
  }

  /** The whole block, or the exception its computation raises. */
  function Block(entries: seq<(string, string)>, length: Value, d: string, offset: nat): (r: Result<string>)
  {
    match LayoutError(Keys(entries), length, d)
    case Some(e) => Raise(e)
    case None => Ok(Render(d, Frames(entries, d, offset), AsInt(length) - 2))
  }

  // ---- properties ------------------------------------------------------

  /**
   * The block has exactly one line per entry plus four, in the order
   * border, blank, the entries in dict order, blank, border.
   */
  lemma BlockShape(entries: seq<(string, string)>, d: string, offset: nat)
    ensures var fs := Frames(entries, d, offset);
      |fs| == |entries| + 4
      && fs[0] == fs[|entries| + 3] == Frame("", BorderFill(d))
      && fs[1] == fs[|entries| + 2] == Frame("", ' ')
      && fs[2..|entries| + 2] == EntryFrames(entries, MaxLength(Keys(entries)) + offset)
  {
  }

  /** The frame of entry `i` carries that entry's name and text, in dict order. */
  lemma {:induction false} EntryFrameAt(entries: seq<(string, string)>, nameWidth: nat, i: int)
    requires 0 <= i < |entries|
    ensures EntryFrames(entries, nameWidth)[i] == Frame(EntryContent(entries[i].0, entries[i].1, nameWidth), ' ')
    decreases i
  {
    if i > 0 {
      EntryFrameAt(entries[1..], nameWidth, i - 1);
    }
  }

  /** The rendered block is the rendered frames one after another. */
  lemma {:induction false} RenderAppend(d: string, a: seq<Frame>, b: seq<Frame>, width: nat)
    ensures Render(d, a + b, width) == Render(d, a, width) + Render(d, b, width)
    decreases |a|
  {
    if a == [] {
      assert a + b == b;
    } else {
      assert (a + b)[1..] == a[1..] + b;
      RenderAppend(d, a[1..], b, width);
    }
  }

  /**
   * A framed line starts and ends with the divider; the content stands
   * whole after the first divider (it is never cut to the width) and is
   * followed only by the fill, up to `width` columns.
   */
  lemma FrameLine(d: string, f: Frame, width: nat)
    ensures var l := FrameText(d, f, width);
      var inner := if |f.content| >= width then |f.content| else width;
      |l| == |d| + inner + |d| + 1
      && l[..|d|] == d
      && l[|d|..|d| + |f.content|] == f.content
      && (forall k :: |d| + |f.content| <= k < |d| + inner ==> l[k] == f.fill)
      && l[|d| + inner..] == d + "\n"
  {
    var l := FrameText(d, f, width);
    var padded := Pad(f.content, Spec(f.fill, '<', width));
    assert l == d + padded + d + "\n";
    assert padded[..|f.content|] == f.content;
    assert l[|d|..|d| + |f.content|] == padded[..|f.content|];
  }

  /** For a one-character divider the border lines are `div * length`, like `bound()`. */
  lemma BorderIsRepeat(d: string, length: int)
    requires |d| == 1 && length >= 2
    ensures FrameText(d, Frame("", BorderFill(d)), length - 2) == Repeat(d, length) + "\n"
  {
    var l := FrameText(d, Frame("", BorderFill(d)), length - 2);
    var r := Repeat(d, length);
    assert Pad("", Spec(d[0], '<', length - 2)) == Fill(d[0], length - 2);
    assert |l| == |r| + 1;
    forall k | 0 <= k < |r|
      ensures l[k] == r[k]
    {
      if k == 0 {
      } else if k < length - 1 {
        assert l[k] == Fill(d[0], length - 2)[k - 1];
      } else {
        assert l[k] == d[0];
      }
    }
    assert l[..|r|] == r;
    assert l == l[..|r|] + "\n";
  }

  /**
   * An entry's name is upper-cased and right-aligned: the colon stands at
   * column `nameWidth` for every name no longer than that.
   */
  lemma EntryAligned(name: string, text: string, nameWidth: nat)
    requires |name| <= nameWidth
    ensures EntryContent(name, text, nameWidth)
      == Fill(' ', nameWidth - |name|) + Upper(name) + ": " + text
    ensures EntryContent(name, text, nameWidth)[nameWidth] == ':'
  {
  }

  /** Every name fits its column: the offset's spaces at least stand before the longest one. */
  lemma NameColumn(entries: seq<(string, string)>, offset: nat, i: int)
    requires 0 <= i < |entries|
    ensures EntryContent(entries[i].0, entries[i].1, MaxLength(Keys(entries)) + offset)
      == Fill(' ', MaxLength(Keys(entries)) + offset - |entries[i].0|) + Upper(entries[i].0) + ": " + entries[i].1
    ensures MaxLength(Keys(entries)) + offset - |entries[i].0| >= offset
  {
    assert Keys(entries)[i] == entries[i].0;
    EntryAligned(entries[i].0, entries[i].1, MaxLength(Keys(entries)) + offset);
  }

  /** With a one-character divider, a line whose content fits is exactly `length` columns. */
  lemma FixedWidth(d: string, f: Frame, length: int)
    requires |d| == 1 && length >= 2 && |f.content| <= length - 2
    ensures |FrameText(d, f, length - 2)| == length + 1
  {
    FrameLine(d, f, length - 2);
  }

  /** A header without entries cannot be rendered. */
  lemma EmptyFails(length: Value, d: string, offset: nat)
    ensures Block([], length, d, offset) == Raise(if IsInt(length) then ValueError else TypeError)
  {
  }
}
