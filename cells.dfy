/**
 * The per-cell functions of the dashboard: the rank-change indicator
 * (名次變動), the membership flag (是否在內), the rank colour band of the
 * 市值排名 column and the emphasis of the 是否在內 column.
 */
module Cells {
  import opened Wrappers

  // ---------------------------------------------------------------------
  // Rank change (format_change)
  // ---------------------------------------------------------------------

  /** A rendered rank change: no change, up by `steps` places, down by `steps` places. */
  datatype Change = Flat | Up(steps: nat) | Down(steps: nat)

  /** The signed number of places a change stands for (up is positive). */
  function SignedSteps(c: Change): int
  {
    match c
    case Flat => 0
    case Up(n) => n
    case Down(n) => -(n as int)
  }

  /** Up and Down always carry a positive magnitude; zero is shown as Flat. */
  predicate Normal(c: Change)
  {
    c.Up? || c.Down? ==> c.steps > 0
  }

  /**
   * 變動數 = 昨日排名 − 市值排名. NaN on either side makes the difference NaN,
   * which is modelled as None.
   */
  function Delta(previous: Option<int>, current: Option<int>): (d: Option<int>)
    ensures d.Some? <==> previous.Some? && current.Some?
    ensures d.Some? ==> current.value + d.value == previous.value
  {
    if previous.Some? && current.Some? then Some(previous.value - current.value) else None
  }

  /**
   * format_change: NaN or 0 gives the neutral marker, a positive delta "up",
   * a negative one "down" by its absolute value. The result is the unique
   * normal change whose signed value is the delta.
   */
  function FormatChange(delta: Option<int>): (c: Change)
    ensures Normal(c)
    ensures delta.None? ==> c == Flat
    ensures delta.Some? ==> SignedSteps(c) == delta.value
  {
    if delta.None? || delta.value == 0 then Flat
    else if delta.value > 0 then Up(delta.value)
    else Down(-delta.value)
  }

  /** A normal change is determined by its signed value. */
  lemma NormalChangeUnique(a: Change, b: Change)
    requires Normal(a) && Normal(b)
    ensures SignedSteps(a) == SignedSteps(b) ==> a == b
  {
  }

  /**
   * When both ranks are present, the indicator is Up exactly when the stock
   * moved toward rank 1, Down exactly when it moved away, and its magnitude
   * is the distance moved.
   */
  lemma RankMovement(previous: int, current: int)
    ensures var c := FormatChange(Delta(Some(previous), Some(current)));
      && (c.Up? <==> current < previous)
      && (c.Down? <==> previous < current)
      && (c.Flat? <==> previous == current)
      && (c.Up? ==> c.steps == previous - current)
      && (c.Down? ==> c.steps == current - previous)
  {
  }

  // ---------------------------------------------------------------------
  // The text of the 名次變動 cell
  // ---------------------------------------------------------------------

  const FlatMark: string := "\U{2796}"
  const UpMark: string := "\U{2B06}\U{FE0F} "
  const DownMark: string := "\U{2B07}\U{FE0F} "

  predicate IsDigit(c: char)
  {
    '0' <= c <= '9'
  }

  function DigitChar(d: nat): (c: char)
    requires d < 10
    ensures IsDigit(c) && c as int - '0' as int == d
  {
    (('0' as int) + d) as char
  }

  function DigitValue(c: char): (d: nat)
    requires IsDigit(c)
    ensures d < 10
  {
    c as int - '0' as int
  }

  /** Python's str(int(n)) for n >= 0: decimal digits, most significant first. */
  function Decimal(n: nat): (s: string)
    ensures |s| > 0
    ensures |s| == 1 || s[0] != '0'
    ensures forall i :: 0 <= i < |s| ==> IsDigit(s[i])
  {
    if n < 10 then [DigitChar(n)] else Decimal(n / 10) + [DigitChar(n % 10)]
  }

  /** Reads a non-empty run of decimal digits back as a number. */
  function ParseDecimal(s: string): Option<nat>
  {
    if |s| == 0 || !IsDigit(s[|s| - 1]) then None
    else if |s| == 1 then Some(DigitValue(s[0]))
    else match ParseDecimal(s[..|s| - 1])
      case None => None
      case Some(v) => Some(10 * v + DigitValue(s[|s| - 1]))
  }

  lemma {:induction false} DecimalRoundTrip(n: nat)
    ensures ParseDecimal(Decimal(n)) == Some(n)
  {
    if n >= 10 {
      var s := Decimal(n);
      assert s == Decimal(n / 10) + [DigitChar(n % 10)];
      assert s[..|s| - 1] == Decimal(n / 10);
      DecimalRoundTrip(n / 10);
    }
  }

  /** The string format_change returns: "➖", "⬆️ N" or "⬇️ N". */
  function ChangeText(c: Change): (t: string)
    ensures t == FlatMark <==> c.Flat?
    ensures c.Up? ==> |t| > 3 && t[..3] == UpMark
    ensures c.Down? ==> |t| > 3 && t[..3] == DownMark
    ensures !c.Flat? ==> forall i :: 3 <= i < |t| ==> IsDigit(t[i])
  {
    match c
    case Flat => FlatMark
    case Up(n) => UpMark + Decimal(n)
    case Down(n) => DownMark + Decimal(n)
  }

  /** Reads a 名次變動 cell back into the change it shows. */
  function ParseChange(s: string): Option<Change>
  {
    if s == FlatMark then Some(Flat)
    else if |s| > 3 && s[..3] == UpMark then
      match ParseDecimal(s[3..])
      case Some(n) => Some(Up(n))
      case None => None
    else if |s| > 3 && s[..3] == DownMark then
      match ParseDecimal(s[3..])
      case Some(n) => Some(Down(n))
      case None => None
    else None
  }

  /** The cell text is unambiguous: it can be read back into the change it renders. */
  lemma ChangeTextRoundTrip(c: Change)
    ensures ParseChange(ChangeText(c)) == Some(c)
  {
    match c
    case Flat =>
    case Up(n) =>
      var s := ChangeText(c);
      assert s[..3] == UpMark && s[3..] == Decimal(n);
      DecimalRoundTrip(n);
    case Down(n) =>
      var s := ChangeText(c);
      assert s[..3] == DownMark && s[3..] == Decimal(n);
      assert s != FlatMark && s[..3] != UpMark;
      DecimalRoundTrip(n);
  }

  /** Different changes never render as the same text. */
  lemma ChangeTextInjective(a: Change, b: Change)
    ensures ChangeText(a) == ChangeText(b) ==> a == b
  {
    ChangeTextRoundTrip(a);
    ChangeTextRoundTrip(b);
  }

  // ---------------------------------------------------------------------
  // Membership (check_status and the column-absent fallback)
  // ---------------------------------------------------------------------

  /** 'V' in the index, 'X' not in it, '?' unknown (the marker column is missing). */
  datatype Status = In | Out | Unknown

  function StatusText(s: Status): (t: string)
    ensures |t| == 1
    ensures t == "V" <==> s == In
    ensures t == "X" <==> s == Out
    ensures t == "?" <==> s == Unknown
  {
    match s
    case In => "V"
    case Out => "X"
    case Unknown => "?"
  }

  /** The affirmative token looked for in the 第 1 欄 cell. */
  const CheckMark: char := '\U{2705}'

  /** str(val) of a marker cell: the cell's text, or "nan" for a missing cell. */
  function MarkerText(marker: Option<string>): (t: string)
    ensures marker.Some? ==> t == marker.value
    ensures marker.None? ==> CheckMark !in t
  {
    match marker
    case None => "nan"
    case Some(s) => s
  }

  /** check_status: 'V' exactly when the marker text contains the check mark. */
  function CheckStatus(marker: Option<string>): (s: Status)
    ensures s != Unknown
    ensures s == In <==> CheckMark in MarkerText(marker)
  {
    if CheckMark in MarkerText(marker) then In else Out
  }

  /** A missing marker cell reads as "nan" and is therefore 'X'. */
  lemma MissingMarkerIsOut()
    ensures CheckStatus(None) == Out
  {
  }

  /** The 是否在內 cell of one row, given whether the 第 1 欄 column exists. */
  function Membership(hasMarkerColumn: bool, marker: Option<string>): (s: Status)
    ensures s == Unknown <==> !hasMarkerColumn
    ensures hasMarkerColumn ==> (s == In <==> CheckMark in MarkerText(marker))
  {
    if hasMarkerColumn then CheckStatus(marker) else Unknown
  }

  /** With the 第 1 欄 column present, the 是否在內 text is "V" exactly when the marker has the check mark, and "X" otherwise. */
  lemma StatusTextOfMarker(marker: Option<string>)
    ensures StatusText(Membership(true, marker)) == "V" <==> CheckMark in MarkerText(marker)
    ensures StatusText(Membership(true, marker)) == "X" <==> CheckMark !in MarkerText(marker)
  {
  }

  /** The status column's three texts are distinct. */
  lemma StatusTextInjective(a: Status, b: Status)
    ensures StatusText(a) == StatusText(b) ==> a == b
  {
  }

  // ---------------------------------------------------------------------
  // Styles (highlight_rank_col and style_status_col)
  // ---------------------------------------------------------------------

  /** The background of a 市值排名 cell: green, yellow, red or none. */
  datatype Band = NoBand | Green | Yellow | Red

  /** How close a band is to the edge: green 1, yellow 2, red 3, none 0. */
  function Severity(b: Band): nat
  {
    match b
    case NoBand => 0
    case Green => 1
    case Yellow => 2
    case Red => 3
  }

  /** highlight_rank_col: <= 40 green, (40, 50] yellow, (50, 60] red, otherwise none. */
  function RankBand(rank: Option<int>): (b: Band)
    ensures b == NoBand <==> rank.None? || rank.value > 60
    ensures b == Green <==> rank.Some? && rank.value <= 40
    ensures b == Yellow <==> rank.Some? && 40 < rank.value <= 50
    ensures b == Red <==> rank.Some? && 50 < rank.value <= 60
  {
    if rank.None? then NoBand
    else if rank.value <= 40 then Green
    else if 40 < rank.value <= 50 then Yellow
    else if 50 < rank.value <= 60 then Red
    else NoBand
  }

  /** Within the coloured ranks, a worse rank never gets a milder band. */
  lemma BandMonotone(a: int, b: int)
    requires a <= b <= 60
    ensures 0 < Severity(RankBand(Some(a))) <= Severity(RankBand(Some(b)))
  {
  }

  /** The text style of a 是否在內 cell: 'V' red bold, 'X' green bold, anything else plain. */
  datatype Emphasis = Plain | RedBold | GreenBold

  function StatusEmphasis(s: Status): (e: Emphasis)
    ensures e == RedBold <==> s == In
    ensures e == GreenBold <==> s == Out
    ensures e == Plain <==> s == Unknown
  {
    match s
    case In => RedBold
    case Out => GreenBold
    case Unknown => Plain
  }
}
