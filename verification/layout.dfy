/** `render_square`: the bordered box with the title in its top border,
    as the list of strings written at terminal positions. */
module Layout {
  import opened Wrappers
  import opened Text
  import opened Titles

  /** A terminal coordinate after the source's `as u16` cast. */
  type U16 = n: int | 0 <= n < 0x1_0000

  /** Rust's `usize as u16`: keeps the low 16 bits. */
  function AsU16(n: nat): (r: U16)
    ensures n < 0x1_0000 ==> r == n
  {
    n % 0x1_0000
  }

  /** The cast wraps every 65536: a coordinate and that coordinate plus 65536
      are drawn at the same place. */
  lemma AsU16Periodic(n: nat)
    ensures AsU16(n + 0x1_0000) == AsU16(n)
  {
  }

  /** A string printed with its first character at column `col` of row `row`. */
  datatype Placement = Placement(col: U16, row: U16, text: string)

  /** The rejection that the source raises as a panic. */
  datatype LayoutError = TooSmall

  const Horizontal: char := '─'
  const Vertical: char := '│'
  const TopLeft: char := '┌'
  const TopRight: char := '┐'
  const BottomLeft: char := '└'
  const BottomRight: char := '┘'

  function Max(a: nat, b: nat): (m: nat)
    ensures a <= m && b <= m && (m == a || m == b)
  {
    if a < b then b else a
  }

  /** Number of fill characters formatting adds to a value of `len` characters
      for a minimum width of `width` characters. */
  function PadCount(len: nat, width: nat): (pad: nat)
    ensures len + pad == Max(width, len)
  {
    if len < width then width - len else 0
  }

  /** How many of `pad` fill characters go before the value. */
  function LeadCount(align: Align, pad: nat): (lead: nat)
    ensures lead <= pad
  {
    match align
    case Left => 0
    case Middle => pad / 2
    case Right => pad
  }

  /** `format!("{:fill<width$}")` and its `^`/`>` variants for a string: the
      width is counted in characters and a longer value is never truncated. */
  function Pad(s: string, fill: char, align: Align, width: nat): (r: string)
    ensures |r| == Max(width, |s|)
    ensures var lead := LeadCount(align, PadCount(|s|, width));
      && lead + |s| <= |r|
      && r[lead..lead + |s|] == s
      && forall i :: 0 <= i < |r| && !(lead <= i < lead + |s|) ==> r[i] == fill
  {
    var pad := PadCount(|s|, width);
    var lead := LeadCount(align, pad);
    Repeat(fill, lead) + s + Repeat(fill, pad - lead)
  }

  /** Left alignment: the value first, then the fill. */
  lemma PadLeft(s: string, fill: char, width: nat)
    ensures var r := Pad(s, fill, Left, width);
      && s <= r
      && forall i :: |s| <= i < |r| ==> r[i] == fill
  {
  }

  /** Right alignment: the fill first, then the value, which ends the string. */
  lemma PadRight(s: string, fill: char, width: nat)
    ensures var r := Pad(s, fill, Right, width);
      && r[|r| - |s|..] == s
      && forall i :: 0 <= i < |r| - |s| ==> r[i] == fill
  {
  }

  /** Centre alignment: of `pad` fill characters, `pad / 2` go before the value
      and `(pad + 1) / 2` after it, so an odd one goes to the right. */
  lemma PadMiddle(s: string, fill: char, width: nat)
    ensures var r := Pad(s, fill, Middle, width);
      var pad := PadCount(|s|, width);
      && r[..pad / 2] == Repeat(fill, pad / 2)
      && r[pad / 2..pad / 2 + |s|] == s
      && r[pad / 2 + |s|..] == Repeat(fill, (pad + 1) / 2)
  {
  }

  /** A value at least as wide as the field comes out unchanged. */
  lemma PadNoTruncation(s: string, fill: char, align: Align, width: nat)
    requires width <= |s|
    ensures Pad(s, fill, align, width) == s
  {
    var r := Pad(s, fill, align, width);
    assert r == r[0..|s|];
  }

  /** The top border: corner, title padded with `─` to `width - 3` characters
      according to its alignment, corner. */
  function TopLine(title: Title, width: nat): (top: string)
    requires width >= 3
    ensures |top| == 2 + Max(width - 3, |title.text|)
    ensures top[0] == TopLeft && top[|top| - 1] == TopRight
  {
    [TopLeft] + Pad(title.text, Horizontal, title.align, width - 3) + [TopRight]
  }

  /** The bottom border: the empty string centred in a `─` field. */
  function BottomLine(width: nat): (bottom: string)
    requires width >= 3
    ensures |bottom| == width - 1
    ensures bottom[0] == BottomLeft && bottom[width - 2] == BottomRight
  {
    [BottomLeft] + Pad("", Horizontal, Middle, width - 3) + [BottomRight]
  }

  /** One of the two `│` written on a side row. */
  function Border(width: nat, row: nat, right: bool): (p: Placement)
    requires width >= 2
    ensures p.text == [Vertical] && p.row == AsU16(row)
    ensures p.col == (if right then AsU16(width - 2) else 0)
  {
    Placement(if right then AsU16(width - 2) else 0, AsU16(row), [Vertical])
  }

  /** The side rows `lo` up to (excluding) `hi`, each as its left and its right `│`. */
  function SideRows(width: nat, lo: nat, hi: nat): (ps: seq<Placement>)
    requires width >= 2
    ensures |ps| == 2 * (hi - lo) || (hi < lo && ps == [])
    decreases hi - lo
  {
    if hi <= lo then []
    else [Border(width, lo, false), Border(width, lo, true)] + SideRows(width, lo + 1, hi)
  }

  /** The `j`th placement of the side rows is the left border (even `j`) or the
      right border (odd `j`) of row `lo + j / 2`. */
  lemma {:induction false} SideRowsAt(width: nat, lo: nat, hi: nat)
    requires width >= 2 && lo <= hi
    ensures forall j :: 0 <= j < |SideRows(width, lo, hi)| ==>
      SideRows(width, lo, hi)[j] == Border(width, lo + j / 2, j % 2 == 1)
    decreases hi - lo
  {
    if lo < hi {
      SideRowsAt(width, lo + 1, hi);
      var ps := SideRows(width, lo, hi);
      var rest := SideRows(width, lo + 1, hi);
      assert ps == [Border(width, lo, false), Border(width, lo, true)] + rest;
      forall j | 2 <= j < |ps|
        ensures ps[j] == Border(width, lo + j / 2, j % 2 == 1)
      {
        assert ps[j] == rest[j - 2];
        assert rest[j - 2] == Border(width, lo + 1 + (j - 2) / 2, (j - 2) % 2 == 1);
        assert lo + 1 + (j - 2) / 2 == lo + j / 2;
        assert (j - 2) % 2 == j % 2;
      }
    }
  }

  /** The frame `render_square` draws for a box of `width` columns and `height`
      rows, or `TooSmall` where the source panics. */
  function Render(title: Title, width: nat, height: nat): (r: Result<seq<Placement>, LayoutError>)
    ensures r.Failure? <==> width < 3 || height < 3 || ByteLen(title.text) > height
    ensures r.Success? ==> |r.value| == 2 * height - 2
  {
    if width < 3 || height < 3 || ByteLen(title.text) > height then Failure(TooSmall)
    else
      Success([Placement(0, 0, TopLine(title, width))]
              + SideRows(width, 1, height - 1)
              + [Placement(0, AsU16(height - 1), BottomLine(width))])
  }

  /** The top line is `┌`, a field of `max(width - 3, |title|)` characters, `┐`;
      the title sits verbatim where its alignment puts it and every other
      interior character is `─`. A title that fits gives `width - 1` characters,
      so `┐` is character `width - 2` of the line: for a title whose characters
      each take one terminal column, it lands above the right side border. */
  lemma TopLineShape(title: Title, width: nat)
    requires width >= 3
    ensures var top := TopLine(title, width);
      var text := title.text;
      var at := 1 + LeadCount(title.align, PadCount(|text|, width - 3));
      && |top| == 2 + Max(width - 3, |text|)
      && top[0] == TopLeft && top[|top| - 1] == TopRight
      && at + |text| <= |top| - 1
      && top[at..at + |text|] == text
      && (forall i :: 1 <= i < |top| - 1 && !(at <= i < at + |text|) ==> top[i] == Horizontal)
      && (|text| <= width - 3 <==> |top| == width - 1)
  {
    var text := title.text;
    var field := Pad(text, Horizontal, title.align, width - 3);
    var top := TopLine(title, width);
    var lead := LeadCount(title.align, PadCount(|text|, width - 3));
    assert top == [TopLeft] + field + [TopRight];
    assert top[1 + lead..1 + lead + |text|] == field[lead..lead + |text|];
    forall i | 1 <= i < |top| - 1 && !(1 + lead <= i < 1 + lead + |text|)
      ensures top[i] == Horizontal
    {
      assert top[i] == field[i - 1];
    }
  }

  /** The bottom line is `└`, `width - 3` dashes, `┘`: `width - 1` characters
      whatever the title. */
  lemma BottomLineShape(width: nat)
    requires width >= 3
    ensures BottomLine(width) == [BottomLeft] + Repeat(Horizontal, width - 3) + [BottomRight]
    ensures |BottomLine(width)| == width - 1
  {
    PadMiddle("", Horizontal, width - 3);
    var pad := width - 3;
    var field := Pad("", Horizontal, Middle, width - 3);
    assert field == field[..pad / 2] + field[pad / 2..];
  }

  /** `needle` occurs in `line` starting at index `j`. */
  predicate OccursAt(needle: string, line: string, j: nat)
  {
    j + |needle| <= |line| && line[j..j + |needle|] == needle
  }

  /** The bottom line never shows a title holding any character other than its
      own border glyphs. */
  lemma BottomLineHasNoTitle(width: nat, text: string, k: nat)
    requires width >= 3
    requires k < |text| && text[k] != Horizontal && text[k] != BottomLeft && text[k] != BottomRight
    ensures forall j: nat :: !OccursAt(text, BottomLine(width), j)
  {
    BottomLineShape(width);
    var bottom := BottomLine(width);
    forall j: nat
      ensures !OccursAt(text, bottom, j)
    {
      if j + |text| <= |bottom| {
        var c := bottom[j + k];
        assert c == Horizontal || c == BottomLeft || c == BottomRight;
        assert bottom[j..j + |text|][k] == c;
      }
    }
  }

  /** An accepted frame: the top line at the origin; then, for every row `i` of
      `1 .. height - 2` in order, a `│` at column 0 and a `│` at column
      `width - 2` (placements `2i - 1` and `2i`); last, the bottom line at row
      `height - 1`. Columns and rows are the source's `u16` casts. */
  lemma RenderFrame(title: Title, width: nat, height: nat)
    requires width >= 3 && height >= 3 && ByteLen(title.text) <= height
    ensures var ps := Render(title, width, height).value;
      && ps[0] == Placement(0, 0, TopLine(title, width))
      && ps[|ps| - 1] == Placement(0, AsU16(height - 1), BottomLine(width))
      && ps[1..|ps| - 1] == SideRows(width, 1, height - 1)
      && forall j :: 1 <= j < |ps| - 1 ==>
           ps[j] == Border(width, (j + 1) / 2, j % 2 == 0)
  {
    var ps := Render(title, width, height).value;
    var sides := SideRows(width, 1, height - 1);
    SideRowsAt(width, 1, height - 1);
    assert ps == [ps[0]] + sides + [ps[|ps| - 1]];
    forall j | 1 <= j < |ps| - 1
      ensures ps[j] == Border(width, (j + 1) / 2, j % 2 == 0)
    {
      assert ps[j] == sides[j - 1];
      assert 1 + (j - 1) / 2 == (j + 1) / 2;
      assert ((j - 1) % 2 == 1) == (j % 2 == 0);
    }
  }

  /** Every side placement is a single `│` in column 0 or `width - 2`, on the
      (cast) row `(j + 1) / 2`, one of the rows `1 .. height - 2`. */
  lemma RenderSideRows(title: Title, width: nat, height: nat)
    requires width >= 3 && height >= 3 && ByteLen(title.text) <= height
    ensures var ps := Render(title, width, height).value;
      forall j :: 1 <= j < |ps| - 1 ==>
        && ps[j].text == [Vertical]
        && ps[j].row == AsU16((j + 1) / 2)
        && 1 <= (j + 1) / 2 <= height - 2
        && (ps[j].col == 0 || ps[j].col == AsU16(width - 2))
  {
    RenderFrame(title, width, height);
  }

  /** Two borders at distinct (row, side) pairs sit on distinct cells when the
      row and the right column fit in 16 bits. */
  lemma BordersDistinct(width: nat, r1: nat, right1: bool, r2: nat, right2: bool)
    requires 3 <= width && width - 2 < 0x1_0000 && r1 < 0x1_0000 && r2 < 0x1_0000
    requires r1 != r2 || right1 != right2
    ensures var p1, p2 := Border(width, r1, right1), Border(width, r2, right2);
      p1.col != p2.col || p1.row != p2.row
  {
  }

  /** Distinct side placements have distinct (row, side) pairs. */
  lemma SideIndexInjective(j: nat, k: nat)
    requires 1 <= j < k
    ensures (j - 1) / 2 != (k - 1) / 2 || (j % 2 == 0) != (k % 2 == 0)
  {
  }

  /** When every column and row fits in 16 bits, no two placements of the side
      rows land on the same terminal cell; `Render` draws exactly the side rows
      `1 .. height - 2`. */
  lemma SideRowsDistinct(width: nat, lo: nat, hi: nat)
    requires 3 <= width && width - 2 < 0x1_0000 && lo <= hi <= 0x1_0000
    ensures var ps := SideRows(width, lo, hi);
      forall j, k :: 0 <= j < k < |ps| ==>
        ps[j].col != ps[k].col || ps[j].row != ps[k].row
  {
    var ps := SideRows(width, lo, hi);
    SideRowsAt(width, lo, hi);
    forall j, k | 0 <= j < k < |ps|
      ensures ps[j].col != ps[k].col || ps[j].row != ps[k].row
    {
      SideIndexInjective(j + 1, k + 1);
      assert lo + k / 2 < hi;
      BordersDistinct(width, lo + j / 2, j % 2 == 1, lo + k / 2, k % 2 == 1);
      assert ps[j] == Border(width, lo + j / 2, j % 2 == 1);
      assert ps[k] == Border(width, lo + k / 2, k % 2 == 1);
    }
  }

  /** Outside 16 bits the cast folds coordinates: in a box 65538 columns wide
      the right border of a row is written at column 0, over the left one. */
  lemma WideBoxFoldsRightBorder()
    ensures Border(0x1_0002, 1, true) == Border(0x1_0002, 1, false)
  {
  }

  /** The title bound is checked in bytes against the height: an accepted title
      has at most `height` characters, and an ASCII title is accepted exactly
      when it has at most `height` characters, whatever the width. */
  lemma RenderTitleBound(title: Title, width: nat, height: nat)
    requires width >= 3 && height >= 3
    ensures Render(title, width, height).Success? ==> |title.text| <= height
    ensures IsAscii(title.text) ==>
      (Render(title, width, height).Success? <==> |title.text| <= height)
  {
    ByteLenBounds(title.text);
    ByteLenIsCharCountIffAscii(title.text);
  }

  /** The guard never compares the title with the width: any box of at least
      3 x 3 accepts an ASCII title of up to `height` characters, and a title
      longer than `width - 3` characters then makes the top line longer than
      `width - 1`, which for one-column characters pushes `┐` past the right side
      border at column `width - 2`. */
  lemma GuardIgnoresWidth(title: Title, width: nat, height: nat)
    requires width >= 3 && height >= 3
    requires IsAscii(title.text) && width - 3 < |title.text| <= height
    ensures Render(title, width, height).Success?
    ensures |TopLine(title, width)| > width - 1
  {
    RenderTitleBound(title, width, height);
    TopLineShape(title, width);
  }

  /** A character outside ASCII counts as two bytes or more: a two-character
      title `éé` is rejected by a 3-row box that accepts `ee`. */
  lemma ByteBoundRejectsWideTitle()
    ensures Render(Title("éé", Left), 20, 3).Failure?
    ensures Render(Title("ee", Left), 20, 3).Success?
  {
    assert ByteLen("éé") == 4;
    assert ByteLen("ee") == 2;
  }
}
