/**
 * The rows of the ranking sheet and the derivation of the seven displayed
 * columns from them, stated row by row.
 */
module Table {
  import opened Wrappers
  import opened Cells

  /**
   * One row of the sheet after numeric coercion: 股票代號, 股票名稱, 股價,
   * 總市值, 市值排名, 昨日排名 and 第 1 欄. A cell that did not parse as a number
   * is None. prevRank and marker are meaningful only when their column exists.
   */
  datatype Listing = Listing(
    code: string,
    name: string,
    price: Option<real>,
    marketCap: Option<real>,
    rank: Option<int>,
    prevRank: Option<int>,
    marker: Option<string>)

  /** The loaded sheet: its rows and whether the two optional columns exist. */
  datatype Sheet = Sheet(rows: seq<Listing>, hasPrevRank: bool, hasMarker: bool)

  /** One row of the displayed table: 股票代號, 股票名稱, 股價, 總市值, 市值排名, 名次變動, 是否在內. */
  datatype Entry = Entry(
    code: string,
    name: string,
    price: Option<real>,
    marketCap: Option<real>,
    rank: Option<int>,
    change: Change,
    member: Status)

  /** The previous rank load_data leaves in a row: the sheet's own, or a copy of the current rank. */
  function LoadedPrevRank(hasPrevRank: bool, r: Listing): (p: Option<int>)
    ensures hasPrevRank ==> p == r.prevRank
    ensures !hasPrevRank ==> p == r.rank
  {
    if hasPrevRank then r.prevRank else r.rank
  }

  /** The displayed row derived from one sheet row. */
  function DeriveEntry(s: Sheet, r: Listing): (e: Entry)
    ensures e.code == r.code && e.name == r.name && e.price == r.price
    ensures e.marketCap == r.marketCap && e.rank == r.rank
    ensures Normal(e.change)
    ensures r.rank.None? || (s.hasPrevRank && r.prevRank.None?) ==> e.change == Flat
    ensures !s.hasPrevRank ==> e.change == Flat
    ensures s.hasPrevRank && r.prevRank.Some? && r.rank.Some? ==>
      SignedSteps(e.change) == r.prevRank.value - r.rank.value
    ensures e.member == Unknown <==> !s.hasMarker
    ensures s.hasMarker ==> (e.member == In <==> CheckMark in MarkerText(r.marker))
  {
    Entry(r.code, r.name, r.price, r.marketCap, r.rank,
          FormatChange(Delta(LoadedPrevRank(s.hasPrevRank, r), r.rank)),
          Membership(s.hasMarker, r.marker))
  }

  /** Every row of the sheet, derived, in sheet order (before sorting). */
  function Derive(s: Sheet): (es: seq<Entry>)
    ensures |es| == |s.rows|
  {
    seq(|s.rows|, i requires 0 <= i < |s.rows| => DeriveEntry(s, s.rows[i]))
  }

  /** Deriving only adds columns: code, name, price, market cap and rank pass through. */
  lemma DerivePassesThrough(s: Sheet, i: int)
    requires 0 <= i < |s.rows|
    ensures var e, r := Derive(s)[i], s.rows[i];
      e.code == r.code && e.name == r.name && e.price == r.price &&
      e.marketCap == r.marketCap && e.rank == r.rank
  {
  }

  /** Without a 昨日排名 column every row shows the neutral marker. */
  lemma NoPreviousColumnIsFlat(s: Sheet, i: int)
    requires !s.hasPrevRank && 0 <= i < |s.rows|
    ensures Derive(s)[i].change == Flat
    ensures ChangeText(Derive(s)[i].change) == FlatMark
  {
  }

  /** A row whose rank (or previous rank) is missing shows the neutral marker. */
  lemma MissingRankIsFlat(s: Sheet, i: int)
    requires 0 <= i < |s.rows|
    requires s.rows[i].rank.None? || (s.hasPrevRank && s.rows[i].prevRank.None?)
    ensures Derive(s)[i].change == Flat
  {
  }

  /** With both ranks present, the change shown is previous rank minus current rank. */
  lemma ChangeIsRankDifference(s: Sheet, i: int)
    requires 0 <= i < |s.rows|
    requires s.hasPrevRank && s.rows[i].prevRank.Some? && s.rows[i].rank.Some?
    ensures Normal(Derive(s)[i].change)
    ensures SignedSteps(Derive(s)[i].change) == s.rows[i].prevRank.value - s.rows[i].rank.value
  {
  }

  /** 是否在內 is '?' for a row exactly when the 第 1 欄 column is missing, and otherwise follows the check mark. */
  lemma MembershipOfRow(s: Sheet, i: int)
    requires 0 <= i < |s.rows|
    ensures Derive(s)[i].member == Unknown <==> !s.hasMarker
    ensures s.hasMarker ==> (Derive(s)[i].member == In <==> CheckMark in MarkerText(s.rows[i].marker))
  {
  }

  /** A row that rose from 42 to 35 with a check mark shows "⬆️ 7" and 'V'. */
  lemma RisingMemberExample()
    ensures var e := Derive(Sheet([Listing("2330", "", None, None, Some(35), Some(42), Some("\U{2705} included"))],
                                  true, true))[0];
      e.change == Up(7) && ChangeText(e.change) == UpMark + "7" && e.member == In
  {
  }

  /** A row that stayed at 45 with an empty (NaN) marker cell shows "➖" and 'X'. */
  lemma UnchangedOutsiderExample()
    ensures var e := Derive(Sheet([Listing("2317", "", None, None, Some(45), Some(45), None)], true, true))[0];
      e.change == Flat && e.member == Out && RankBand(e.rank) == Yellow
  {
  }
}
