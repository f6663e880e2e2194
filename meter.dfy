/** The meter effect: a bar of keys that lights up in proportion to a rate
    property. One grid range is the meter (a `Direction`, from its start
    towards its end) and the other the base (a `Range`): the same bar is
    drawn once for every base coordinate. In fill mode the bar is lit up to
    the current level and the boundary key is dimmed by the fractional part;
    otherwise only the boundary key is lit. */
module Meter {
  import opened Primitives
  import Config
  import Frame
  import Property
  import Datagram

  datatype Orientation = ColumnBase | RowBase

  /** Everything of `MeterEffect` except its property. */
  datatype MeterLayout = MeterLayout(
    color: Rgb, orientation: Orientation, base: Config.Span, meter: Config.Span, fill: bool)

  datatype Panic =
    | NoKeyboard              // `expect` on an absent keyboard output
    | UnknownColor(name: string)  // indexing the colour table with a missing name
    | NoDirection             // neither or both ranges are directions
    | QueryFailed(error: Property.PropertyError)
    | HeightOverflow          // `u8` overflow computing the meter height
    | ExtentOverflow          // `u8` overflow or underflow computing a meter position

  // ---------------------------------------------------------------------
  // Construction

  /** `All` stands for the whole keyboard dimension of length `len`. */
  function Resolve(g: Config.GridRange, len: nat): (r: Config.GridRange)
    requires 0 < len <= 0x100
    ensures g.All? ==> r == Config.Range(Config.Span(0, len - 1))
    ensures !g.All? ==> r == g
  {
    if g.All? then Config.Range(Config.Span(0, len - 1)) else g
  }

  /** `MeterEffect::new` without its property: the keyboard output, the
      named colour and the orientation. */
  function NewLayout(output: Config.Output, colors: map<string, Config.Color>): (r: Result<MeterLayout, Panic>)
  {
    if output.keyboard.None? then Err(NoKeyboard)
    else if output.color !in colors then Err(UnknownColor(output.color))
    else
      var column := Resolve(output.keyboard.value.column, Frame.MAX_COLUMN);
      var row := Resolve(output.keyboard.value.row, Frame.MAX_ROW);
      var color := colors[output.color].rgb;
      match (column, row)
      case (Range(base), Direction(meter)) => Ok(MeterLayout(color, ColumnBase, base, meter, output.effectType.fill))
      case (Direction(meter), Range(base)) => Ok(MeterLayout(color, RowBase, base, meter, output.effectType.fill))
      case _ => Err(NoDirection)
  }

  /** The layout fails for a missing keyboard or colour; otherwise exactly
      one of the two resolved ranges must be a direction, and the direction
      is the meter and the other range the base. */
  lemma NewLayoutCases(output: Config.Output, colors: map<string, Config.Color>)
    ensures output.keyboard.None? ==> NewLayout(output, colors) == Err(NoKeyboard)
    ensures output.keyboard.Some? && output.color !in colors ==>
      NewLayout(output, colors) == Err(UnknownColor(output.color))
    ensures output.keyboard.Some? && output.color in colors ==>
      var column := Resolve(output.keyboard.value.column, Frame.MAX_COLUMN);
      var row := Resolve(output.keyboard.value.row, Frame.MAX_ROW);
      var r := NewLayout(output, colors);
      (r.Ok? <==> (column.Direction? != row.Direction?))
      && (r.Ok? ==> r.value.color == colors[output.color].rgb && r.value.fill == output.effectType.fill)
      && (r.Ok? && column.Direction? ==> r.value == r.value.(orientation := RowBase, meter := column.span, base := row.span))
      && (r.Ok? && row.Direction? ==> r.value == r.value.(orientation := ColumnBase, meter := row.span, base := column.span))
  {
  }

  /** A whole-row column base covers columns 0 .. MAX_COLUMN - 1 and a
      whole-column row base covers rows 0 .. MAX_ROW - 1. */
  lemma NewLayoutAll(output: Config.Output, colors: map<string, Config.Color>)
    requires output.keyboard.Some? && output.color in colors
    ensures output.keyboard.value.column.All? && output.keyboard.value.row.Direction? ==>
      NewLayout(output, colors).Ok? && NewLayout(output, colors).value.orientation == ColumnBase
      && NewLayout(output, colors).value.base == Config.Span(0, 21)
    ensures output.keyboard.value.row.All? && output.keyboard.value.column.Direction? ==>
      NewLayout(output, colors).Ok? && NewLayout(output, colors).value.orientation == RowBase
      && NewLayout(output, colors).value.base == Config.Span(0, 5)
    ensures output.keyboard.value.row.All? && output.keyboard.value.column.All? ==>
      NewLayout(output, colors) == Err(NoDirection)
  {
  }

  /** `MeterEffect`: the property it shows and its layout. */
  datatype MeterEffect = MeterEffect(property: Property.RateProperty, layout: MeterLayout)

  // ---------------------------------------------------------------------
  // Geometry of one tick

  /** Whether `u8` arithmetic overflows computing the meter height: the
      larger end plus one. */
  predicate HeightOverflows(m: Config.Span)
  {
    if m.start > m.end then m.start == 255 else m.end == 255
  }

  /** Number of keys of the meter. */
  function Height(m: Config.Span): (h: nat)
    ensures 1 <= h <= 0x100
  {
    if m.start > m.end then m.start + 1 - m.end else m.end + 1 - m.start
  }

  /** The meter coordinate of position `p`, counted from the meter's start. */
  function Extent(m: Config.Span, p: nat): int
  {
    if m.start > m.end then m.start - p else m.start + p
  }

  function Low(m: Config.Span): uint8 { if m.start > m.end then m.end else m.start }
  function High(m: Config.Span): uint8 { if m.start > m.end then m.start else m.end }

  /** The positions of the meter enumerate its span from start to end, one
      key each. */
  lemma ExtentCoversSpan(m: Config.Span, p: nat, q: nat)
    ensures Height(m) == High(m) - Low(m) + 1
    ensures p < Height(m) ==> Low(m) <= Extent(m, p) <= High(m)
    ensures Extent(m, 0) == m.start && Extent(m, Height(m) - 1) == m.end
    ensures p != q ==> Extent(m, p) != Extent(m, q)
    ensures Extent(m, Height(m)) == (if m.start > m.end then Low(m) - 1 else High(m) + 1)
  {
  }

  /** The base coordinates `for base in base` visits: the inclusive range,
      empty when it is reversed. */
  function Bases(s: Config.Span): (bs: seq<uint8>)
    ensures s.start <= s.end ==> |bs| == s.end - s.start + 1
    ensures s.start > s.end ==> bs == []
    ensures forall i :: 0 <= i < |bs| ==> bs[i] == s.start as int + i
  {
    if s.start <= s.end then seq(s.end - s.start + 1, i requires 0 <= i < s.end - s.start + 1 => s.start as int + i)
    else []
  }

  /** `meter_height * pct` rounded down (`as u8`), and its fractional part
      (`shade % 1.0`). */
  function NumFilled(height: nat, pct: real): (n: nat)
    requires 0.0 <= pct <= 1.0
    ensures n <= height
    ensures n as real <= height as real * pct < n as real + 1.0
    ensures pct == 1.0 ==> n == height
  {
    var shade := height as real * pct;
    assert shade <= height as real by {
      assert height as real * pct <= height as real * 1.0;
    }
    shade.Floor
  }

  function Frac(height: nat, pct: real): (f: real)
    requires 0.0 <= pct <= 1.0
    ensures 0.0 <= f < 1.0
    ensures pct == 1.0 ==> f == 0.0
  {
    height as real * pct - NumFilled(height, pct) as real
  }

  /** A channel scaled by a fraction below one and truncated stays within
      the channel, and strictly below it when it is lit. */
  lemma ScaledFloor(c: uint8, frac: real)
    requires 0.0 <= frac < 1.0
    ensures 0 <= (c as real * frac).Floor <= c
    ensures c > 0 ==> (c as real * frac).Floor < c
  {
    var r := c as real;
    var y := r * frac;
    var g := 1.0 - frac;
    assert r * g >= 0.0;
    assert r * g == r - y;
    assert y >= 0.0;
    if c > 0 {
      assert r * g > 0.0;
    }
    var f := y.Floor;
    assert f as real <= y;
  }

  /** A colour channel scaled by a fraction and truncated (`as u8`). */
  function ScaleChannel(c: uint8, frac: real): (s: uint8)
    requires 0.0 <= frac < 1.0
    ensures s <= c
    ensures frac == 0.0 ==> s == 0
    ensures c > 0 ==> s < c
  {
    ScaledFloor(c, frac);
    (c as real * frac).Floor
  }

  function Scale(c: Rgb, frac: real): Rgb
    requires 0.0 <= frac < 1.0
  {
    Rgb(ScaleChannel(c.r, frac), ScaleChannel(c.g, frac), ScaleChannel(c.b, frac))
  }

  /** What is drawn along the meter for one base: (meter coordinate,
      colour) pairs in drawing order. `guard` bounds the boundary position. */
  function Pattern(l: MeterLayout, pct: real, guard: nat): (pat: seq<(int, Rgb)>)
    requires 0.0 <= pct <= 1.0
  {
    var h := Height(l.meter);
    var n := NumFilled(h, pct);
    (if l.fill then seq(n, p requires 0 <= p < n => (Extent(l.meter, p), l.color)) else [])
      + (if n < guard then [(Extent(l.meter, n), if l.fill then Scale(l.color, Frac(h, pct)) else l.color)] else [])
  }

  predicate Fits(pat: seq<(int, Rgb)>)
  {
    forall i :: 0 <= i < |pat| ==> 0 <= pat[i].0 < 0x100
  }

  function CellAt(o: Orientation, base: uint8, e: uint8): Frame.Cell
  {
    match o
    case RowBase => Frame.Cell(base, e)
    case ColumnBase => Frame.Cell(e, base)
  }

  /** The pattern placed at one base coordinate. */
  function Place(o: Orientation, base: uint8, pat: seq<(int, Rgb)>): (ws: seq<Frame.Write>)
    requires Fits(pat)
    ensures |ws| == |pat|
  {
    seq(|pat|, i requires 0 <= i < |pat| => Frame.Write(CellAt(o, base, pat[i].0), pat[i].1))
  }

  /** The pattern placed at every base coordinate in turn. */
  function PlaceAll(o: Orientation, bs: seq<uint8>, pat: seq<(int, Rgb)>): (ws: seq<Frame.Write>)
    requires Fits(pat)
    ensures |ws| == |bs| * |pat|
  {
    if bs == [] then [] else PlaceAll(o, bs[..|bs| - 1], pat) + Place(o, bs[|bs| - 1], pat)
  }

  /** The writes of a tick at level `pct` (none without a level), with the
      boundary write guarded by `guard`, or the panic it raises. */
  function WritesWith(l: MeterLayout, pct: Option<real>, guard: nat): Result<seq<Frame.Write>, Panic>
    requires pct.Some? ==> 0.0 <= pct.value <= 1.0
  {
    if pct.None? then Ok([])
    else if HeightOverflows(l.meter) then Err(HeightOverflow)
    else if Bases(l.base) == [] then Ok([])
    else
      var pat := Pattern(l, pct.value, guard);
      if Fits(pat) then Ok(PlaceAll(l.orientation, Bases(l.base), pat)) else Err(ExtentOverflow)
  }

  /** The boundary write as the tick writes it: guarded by the keyboard
      width, whatever the meter's length. */
  function TickWritesAsWritten(l: MeterLayout, pct: Option<real>): Result<seq<Frame.Write>, Panic>
    requires pct.Some? ==> 0.0 <= pct.value <= 1.0
  {
    WritesWith(l, pct, Frame.MAX_COLUMN)
  }

  /** The boundary write guarded by the meter's own length, so that it is
      never drawn past the meter's end. */
  function TickWrites(l: MeterLayout, pct: Option<real>): Result<seq<Frame.Write>, Panic>
    requires pct.Some? ==> 0.0 <= pct.value <= 1.0
  {
    WritesWith(l, pct, Height(l.meter))
  }

  // ---------------------------------------------------------------------
  // What a tick draws

  /** In fill mode the lit keys come first at full colour, then the
      boundary key dimmed by the fractional part; otherwise only the
      boundary key, at full colour. */
  lemma PatternShape(l: MeterLayout, pct: real, guard: nat)
    requires 0.0 <= pct <= 1.0
    ensures var h := Height(l.meter); var n := NumFilled(h, pct); var pat := Pattern(l, pct, guard);
      |pat| == (if l.fill then n else 0) + (if n < guard then 1 else 0)
      && (l.fill ==> forall p :: 0 <= p < n ==> pat[p] == (Extent(l.meter, p), l.color))
      && (l.fill && n < guard ==> pat[n] == (Extent(l.meter, n), Scale(l.color, Frac(h, pct))))
      && (!l.fill && n < guard ==> pat == [(Extent(l.meter, n), l.color)])
  {
  }

  /** With the meter-length guard no position leaves the meter, so the
      only panic is the height overflow. */
  lemma {:induction false} PatternFitsMeter(l: MeterLayout, pct: real)
    requires 0.0 <= pct <= 1.0
    ensures var pat := Pattern(l, pct, Height(l.meter));
      Fits(pat) && forall i :: 0 <= i < |pat| ==> Low(l.meter) <= pat[i].0 <= High(l.meter)
  {
    var pat := Pattern(l, pct, Height(l.meter));
    PatternShape(l, pct, Height(l.meter));
    forall i | 0 <= i < |pat|
      ensures Low(l.meter) <= pat[i].0 <= High(l.meter)
    {
      ExtentCoversSpan(l.meter, i, i);
    }
  }

  lemma TickWritesPanics(l: MeterLayout, pct: Option<real>)
    requires pct.Some? ==> 0.0 <= pct.value <= 1.0
    ensures pct.None? ==> TickWrites(l, pct) == Ok([])
    ensures pct.Some? && HeightOverflows(l.meter) ==> TickWrites(l, pct) == Err(HeightOverflow)
    ensures pct.Some? && !HeightOverflows(l.meter) ==> TickWrites(l, pct).Ok?
  {
    if pct.Some? {
      PatternFitsMeter(l, pct.value);
    }
  }

  /** Every write at the `k`-th base of `bs` is that base's copy of the
      pattern: the written cell pairs the base coordinate with the
      pattern's meter coordinate (row first for a row base, column first
      for a column base), in the pattern's colour. */
  lemma {:induction false} PlaceAllAt(o: Orientation, bs: seq<uint8>, pat: seq<(int, Rgb)>, k: nat, i: nat)
    requires Fits(pat) && k < |bs| && i < |pat|
    ensures k * |pat| + i < |PlaceAll(o, bs, pat)|
    ensures PlaceAll(o, bs, pat)[k * |pat| + i] == Frame.Write(CellAt(o, bs[k], pat[i].0), pat[i].1)
  {
    var n := |bs| - 1;
    BlockIndex(k, i, |pat|, |bs|);
    if k < n {
      PlaceAllAt(o, bs[..n], pat, k, i);
      BlockIndex(k, i, |pat|, n);
    } else {
      assert |PlaceAll(o, bs[..n], pat)| == k * |pat|;
    }
  }

  /** Entry i of block k lies before the end of m blocks of width w. */
  lemma BlockIndex(k: nat, i: nat, w: nat, m: nat)
    requires k < m && i < w
    ensures k * w + i < m * w
  {
    assert k * w + i < (k + 1) * w;
    assert (k + 1) * w <= m * w;
  }

  /** The coordinate of a cell along the base, and along the meter. */
  function BaseCoord(o: Orientation, c: Frame.Cell): uint8
  {
    if o == RowBase then c.row else c.column
  }

  function MeterCoord(o: Orientation, c: Frame.Cell): uint8
  {
    if o == RowBase then c.column else c.row
  }

  predicate DistinctCells(ws: seq<Frame.Write>)
  {
    forall j, j' :: 0 <= j < j' < |ws| ==> ws[j].cell != ws[j'].cell
  }

  /** Every write of `PlaceAll` lies at one of the bases, at one of the
      pattern's meter coordinates. */
  lemma {:induction false} PlaceAllCoords(o: Orientation, bs: seq<uint8>, pat: seq<(int, Rgb)>, lo: int, hi: int, j: nat)
    requires Fits(pat) && j < |PlaceAll(o, bs, pat)|
    requires forall i :: 0 <= i < |pat| ==> lo <= pat[i].0 <= hi
    ensures BaseCoord(o, PlaceAll(o, bs, pat)[j].cell) in bs
    ensures lo <= MeterCoord(o, PlaceAll(o, bs, pat)[j].cell) <= hi
  {
    var n := |bs| - 1;
    var front := PlaceAll(o, bs[..n], pat);
    if j < |front| {
      PlaceAllCoords(o, bs[..n], pat, lo, hi, j);
      assert forall x :: x in bs[..n] ==> x in bs;
    } else {
      assert PlaceAll(o, bs, pat)[j] == Place(o, bs[n], pat)[j - |front|];
    }
  }

  /** Copies of a pattern with distinct meter coordinates at distinct bases
      never share a cell. */
  lemma {:induction false} PlaceAllDistinct(o: Orientation, bs: seq<uint8>, pat: seq<(int, Rgb)>)
    requires Fits(pat)
    requires forall k, k' :: 0 <= k < k' < |bs| ==> bs[k] != bs[k']
    requires forall i, i' :: 0 <= i < i' < |pat| ==> pat[i].0 != pat[i'].0
    ensures DistinctCells(PlaceAll(o, bs, pat))
  {
    if bs != [] {
      var n := |bs| - 1;
      var front := PlaceAll(o, bs[..n], pat);
      var back := Place(o, bs[n], pat);
      var all: seq<Frame.Write> := front + back;
      assert all == PlaceAll(o, bs, pat);
      PlaceAllDistinct(o, bs[..n], pat);
      assert bs[n] !in bs[..n];
      forall j, j' | 0 <= j < j' < |all|
        ensures all[j].cell != all[j'].cell
      {
        if j < |front| <= j' {
          PlaceAllCoords(o, bs[..n], pat, 0, 0xff, j);
          assert BaseCoord(o, all[j'].cell) == bs[n];
        }
      }
    }
  }

  /** The corrected tick writes inside the meter span and the base span and
      never writes a cell twice, so each lit key shows its own write. */
  lemma TickWritesInSpanAndDistinct(l: MeterLayout, pct: real)
    requires 0.0 <= pct <= 1.0
    requires TickWrites(l, Some(pct)).Ok?
    ensures var ws := TickWrites(l, Some(pct)).value;
      DistinctCells(ws)
      && forall j :: 0 <= j < |ws| ==>
           Low(l.meter) <= MeterCoord(l.orientation, ws[j].cell) <= High(l.meter)
           && l.base.start <= BaseCoord(l.orientation, ws[j].cell) <= l.base.end
  {
    var pat := Pattern(l, pct, Height(l.meter));
    var bs := Bases(l.base);
    PatternFitsMeter(l, pct);
    if bs != [] {
      PatternDistinct(l, pct);
      PlaceAllDistinct(l.orientation, bs, pat);
      forall j | 0 <= j < |PlaceAll(l.orientation, bs, pat)|
        ensures Low(l.meter) <= MeterCoord(l.orientation, PlaceAll(l.orientation, bs, pat)[j].cell) <= High(l.meter)
        ensures l.base.start <= BaseCoord(l.orientation, PlaceAll(l.orientation, bs, pat)[j].cell) <= l.base.end
      {
        PlaceAllCoords(l.orientation, bs, pat, Low(l.meter), High(l.meter), j);
      }
    }
  }

  /** The corrected pattern never draws one meter coordinate twice. */
  lemma PatternDistinct(l: MeterLayout, pct: real)
    requires 0.0 <= pct <= 1.0
    ensures var pat := Pattern(l, pct, Height(l.meter));
      forall i, i' :: 0 <= i < i' < |pat| ==> pat[i].0 != pat[i'].0
  {
    var pat := Pattern(l, pct, Height(l.meter));
    PatternShape(l, pct, Height(l.meter));
    forall i, i' | 0 <= i < i' < |pat|
      ensures pat[i].0 != pat[i'].0
    {
      ExtentCoversSpan(l.meter, i, i');
    }
  }

  /** At a full meter in fill mode each base lights the whole meter span at
      full colour and nothing past its end. */
  lemma TickWritesFull(l: MeterLayout)
    requires l.fill && !HeightOverflows(l.meter) && Bases(l.base) != []
    ensures var pat := Pattern(l, 1.0, Height(l.meter));
      TickWrites(l, Some(1.0)) == Ok(PlaceAll(l.orientation, Bases(l.base), pat))
      && |pat| == Height(l.meter)
      && forall p :: 0 <= p < |pat| ==> pat[p] == (Extent(l.meter, p), l.color)
  {
    PatternShape(l, 1.0, Height(l.meter));
    PatternFitsMeter(l, 1.0);
  }

  // ---------------------------------------------------------------------
  // The boundary guard as written

  /** Ascending meter 0 -> 4 on column 0, full: the written boundary cell,
      row 5, is outside the meter. */
  lemma AsWrittenFullMeterOverruns()
    ensures var l := MeterLayout(Rgb(255, 0, 0), ColumnBase, Config.Span(0, 0), Config.Span(0, 4), true);
      TickWritesAsWritten(l, Some(1.0)).Ok?
      && Frame.Write(Frame.Cell(5, 0), Rgb(0, 0, 0)) in TickWritesAsWritten(l, Some(1.0)).value
      && Frame.Cell(5, 0) !in Frame.Written(TickWrites(l, Some(1.0)).value)
  {
    var l := MeterLayout(Rgb(255, 0, 0), ColumnBase, Config.Span(0, 0), Config.Span(0, 4), true);
    var pat := Pattern(l, 1.0, Frame.MAX_COLUMN);
    PatternShape(l, 1.0, Frame.MAX_COLUMN);
    assert Fits(pat);
    assert Bases(l.base) == [0];
    PlaceAllAt(ColumnBase, [0], pat, 0, 5);
    var ws := TickWrites(l, Some(1.0)).value;
    TickWritesInSpanAndDistinct(l, 1.0);
    forall w | w in ws
      ensures w.cell != Frame.Cell(5, 0)
    {
      var j :| 0 <= j < |ws| && ws[j] == w;
    }
  }

  /** Descending meter 5 -> 0, full: the boundary position is one below
      row 0, and the `u8` subtraction panics. */
  lemma AsWrittenDescendingUnderflows()
    ensures var l := MeterLayout(Rgb(255, 0, 0), ColumnBase, Config.Span(0, 0), Config.Span(5, 0), true);
      TickWritesAsWritten(l, Some(1.0)) == Err(ExtentOverflow) && TickWrites(l, Some(1.0)).Ok?
  {
    var l := MeterLayout(Rgb(255, 0, 0), ColumnBase, Config.Span(0, 0), Config.Span(5, 0), true);
    PatternShape(l, 1.0, Frame.MAX_COLUMN);
    assert Pattern(l, 1.0, Frame.MAX_COLUMN)[6].0 == -1;
    TickWritesPanics(l, Some(1.0));
  }

  /** A 30-key meter running from column 29 down to column 0, at 85%: the
      25 lit keys are columns 29 to 5, and the half-lit boundary key is
      column 4, on the keyboard; the tick as written leaves it unlit
      because 25 is not below the keyboard width. */
  lemma AsWrittenLongMeterDropsBoundary()
    ensures var l := MeterLayout(Rgb(255, 0, 0), RowBase, Config.Span(0, 0), Config.Span(29, 0), true);
      var asWritten := TickWritesAsWritten(l, Some(0.85));
      var corrected := TickWrites(l, Some(0.85));
      asWritten.Ok? && |asWritten.value| == 25 && (forall w <- asWritten.value :: w.cell != Frame.Cell(0, 4))
      && corrected.Ok? && |corrected.value| == 26 && corrected.value[25].cell == Frame.Cell(0, 4)
  {
    var l := MeterLayout(Rgb(255, 0, 0), RowBase, Config.Span(0, 0), Config.Span(29, 0), true);
    assert NumFilled(30, 0.85) == 25;
    PatternShape(l, 0.85, Frame.MAX_COLUMN);
    PatternShape(l, 0.85, 30);
    PatternFitsMeter(l, 0.85);
    assert Bases(l.base) == [0];
    assert PlaceAll(RowBase, [0], Pattern(l, 0.85, Frame.MAX_COLUMN)) == Place(RowBase, 0, Pattern(l, 0.85, Frame.MAX_COLUMN)) by {
      assert [0][..0] == [];
    }
    assert PlaceAll(RowBase, [0], Pattern(l, 0.85, 30)) == Place(RowBase, 0, Pattern(l, 0.85, 30)) by {
      assert [0][..0] == [];
    }
  }

  /** What `update` stores from datagram `d` for a property with query `q`,
      stored maximum `stored` and flag `autoRaise`: no level while no race
      is on, otherwise the property's ratio clamped to [0, 1]; and the
      stored maximum after the query. A failed query fails the update. */
  function UpdateOutcome(q: Property.RateQuery, stored: Option<real>, autoRaise: bool, d: Datagram.Horizon4Datagram)
    : (r: Result<(Option<real>, Option<real>), Property.PropertyError>)
    ensures d.sled.isRaceOn == 0 <==> r == Ok((None, stored))
    ensures d.sled.isRaceOn != 0 ==> (r.Ok? <==> Property.RateOutcome(q, stored, autoRaise, d).Ok?)
    ensures r.Ok? && r.value.0.Some? ==> 0.0 <= r.value.0.value <= 1.0
    ensures r.Ok? ==> (r.value.0.Some? <==> d.sled.isRaceOn != 0)
  {
    if d.sled.isRaceOn == 0 then Ok((None, stored))
    else match Property.RateOutcome(q, stored, autoRaise, d)
      case Err(e) => Err(e)
      case Ok(o) => Ok((Some(Property.Clamp01(o.0)), o.1))
  }

  /** An update never lowers the stored maximum, never sets or clears it,
      and without auto-raise never changes it. */
  lemma UpdateKeepsMaximum(q: Property.RateQuery, stored: Option<real>, autoRaise: bool, d: Datagram.Horizon4Datagram)
    requires UpdateOutcome(q, stored, autoRaise, d).Ok?
    ensures var m := UpdateOutcome(q, stored, autoRaise, d).value.1;
      (m.Some? <==> stored.Some?) && (stored.Some? ==> m.value >= stored.value)
      && (!autoRaise ==> m == stored)
  {
  }

  // ---------------------------------------------------------------------
  // The running instance

  /** `MeterEffectInstance`: the effect and the level stored by the latest
      update. */
  class MeterEffectInstance {
    const effect: MeterEffect
    var current: Option<real>

    predicate Valid()
      reads this
    {
      current.Some? ==> 0.0 <= current.value <= 1.0
    }

    /** `EffectImpl::start`: no level yet. */
    constructor (effect: MeterEffect)
      ensures this.effect == effect && current == None && Valid()
    {
      this.effect := effect;
      current := None;
    }

    /** `update`: the level and the stored maximum `UpdateOutcome` gives;
        a failed query is a panic that leaves both as they were. */
    method Update(d: Datagram.Horizon4Datagram) returns (r: Result<(), Panic>)
      modifies this, effect.property
      ensures r.Ok? ==> Valid()
      ensures match UpdateOutcome(effect.property.query, old(effect.property.maxValue), effect.property.autoRaise, d)
        case Ok(o) => r == Ok(()) && current == o.0 && effect.property.maxValue == o.1
        case Err(e) => r == Err(QueryFailed(e)) && current == old(current)
                       && effect.property.maxValue == old(effect.property.maxValue)
    {
      if d.sled.isRaceOn != 0 {
        var q := effect.property.Query(d);
        if q.Err? {
          return Err(QueryFailed(q.error));
        }
        current := Some(Property.Clamp01(q.value));
      } else {
        current := None;
      }
      r := Ok(());
    }

    /** `tick`: draw the bar for every base coordinate into the frame. */
    method Tick(state: Frame.ChromaState) returns (r: Result<(), Panic>)
      requires Valid()
      modifies state
      ensures match TickWrites(effect.layout, current)
        case Ok(ws) => r == Ok(()) && state.cells == Frame.Apply(old(state.cells), ws)
        case Err(e) => r == Err(e) && state.cells == old(state.cells)
    {
      if current.None? {
        return Ok(());
      }
      var pct := current.value;
      var l := effect.layout;
      if HeightOverflows(l.meter) {
        return Err(HeightOverflow);
      }
      PatternFitsMeter(l, pct);
      ghost var pat := Pattern(l, pct, Height(l.meter));
      var bs := Bases(l.base);
      ghost var start := state.cells;
      for k := 0 to |bs|
        invariant state.cells == Frame.Apply(start, PlaceAll(l.orientation, bs[..k], pat))
      {
        DrawBase(state, l, pct, bs[k]);
        Frame.ApplyConcat(start, PlaceAll(l.orientation, bs[..k], pat), Place(l.orientation, bs[k], pat));
        assert bs[..k + 1][..k] == bs[..k];
      }
      assert bs[..|bs|] == bs;
      r := Ok(());
    }
  }

  /** The body of the base loop: the filled keys, then the guarded
      boundary key. */
  method DrawBase(state: Frame.ChromaState, l: MeterLayout, pct: real, base: uint8)
    requires 0.0 <= pct <= 1.0
    modifies state
    ensures state.cells == Frame.Apply(old(state.cells), Place(l.orientation, base, Pattern(l, pct, Height(l.meter))))
  {
    var m := l.meter;
    var height := Height(m);
    var numFilled := NumFilled(height, pct);
    ghost var pat := Pattern(l, pct, height);
    PatternFitsMeter(l, pct);
    PatternShape(l, pct, height);
    ghost var start := state.cells;
    assert Place(l.orientation, base, pat[..0]) == [];
    if l.fill {
      for p := 0 to numFilled
        invariant state.cells == Frame.Apply(start, Place(l.orientation, base, pat[..p]))
      {
        var cell := CellAt(l.orientation, base, Extent(m, p) as uint8);
        state.SetPosition(cell.row, cell.column, l.color);
        PlaceSnoc(start, l.orientation, base, pat, p);
      }
    }
    if numFilled < height {
      var cell := CellAt(l.orientation, base, Extent(m, numFilled) as uint8);
      var color := if l.fill then Scale(l.color, Frac(height, pct)) else l.color;
      state.SetPosition(cell.row, cell.column, color);
      PlaceSnoc(start, l.orientation, base, pat, |pat| - 1);
    }
    assert pat[..|pat|] == pat;
  }

  /** Drawing pattern entry `p` at `base` extends the drawn prefix by one
      write. */
  lemma PlaceSnoc(start: map<Frame.Cell, Rgb>, o: Orientation, base: uint8, pat: seq<(int, Rgb)>, p: nat)
    requires Fits(pat) && p < |pat|
    ensures Frame.Apply(start, Place(o, base, pat[..p + 1]))
         == Frame.Apply(start, Place(o, base, pat[..p]))[CellAt(o, base, pat[p].0) := pat[p].1]
  {
    var w := Frame.Write(CellAt(o, base, pat[p].0), pat[p].1);
    assert Place(o, base, pat[..p + 1]) == Place(o, base, pat[..p]) + [w];
  }
}
