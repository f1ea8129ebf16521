/**
 * The dashboard's main body: the loaded DataFrame gets its previous-rank
 * column filled in, gains the 變動數, 名次變動 and 是否在內 columns in place,
 * and is then sorted by rank and cut to its first 150 rows.
 */
module Dashboard {
  import opened Wrappers
  import opened Cells
  import opened Table
  import opened Ranking

  /** The DataFrame `df`, one column per field; derived columns are empty until added. */
  class Frame {
    var rows: seq<Listing>
    var hasPrevRank: bool
    var hasMarker: bool
    var delta: seq<Option<int>>   // 變動數
    var change: seq<Change>       // 名次變動
    var member: seq<Status>       // 是否在內

    /** The frame pd.read_csv produced, already through numeric coercion. */
    constructor Read(sheet: Sheet)
      ensures rows == sheet.rows
      ensures hasPrevRank == sheet.hasPrevRank && hasMarker == sheet.hasMarker
      ensures delta == [] && change == [] && member == []
    {
      rows := sheet.rows;
      hasPrevRank := sheet.hasPrevRank;
      hasMarker := sheet.hasMarker;
      delta, change, member := [], [], [];
    }

    /** load_data: a missing 昨日排名 column becomes a copy of 市值排名. */
    method DefaultPreviousRank()
      modifies this
      ensures hasPrevRank
      ensures |rows| == |old(rows)|
      ensures forall i :: 0 <= i < |rows| ==>
        rows[i] == old(rows[i]).(prevRank := LoadedPrevRank(old(hasPrevRank), old(rows[i])))
      ensures hasMarker == old(hasMarker)
      ensures delta == old(delta) && change == old(change) && member == old(member)
    {
      if !hasPrevRank {
        var rs := rows;
        rows := seq(|rs|, i requires 0 <= i < |rs| => rs[i].(prevRank := rs[i].rank));
        hasPrevRank := true;
      }
    }

    /** Adds 變動數 (previous rank minus current rank) and 名次變動 (its rendered change), one cell per row. */
    method AddRankChange()
      requires hasPrevRank
      modifies this`delta, this`change
      ensures |delta| == |rows| && |change| == |rows|
      ensures forall i :: 0 <= i < |rows| ==> delta[i] == Delta(rows[i].prevRank, rows[i].rank)
      ensures forall i :: 0 <= i < |rows| ==> change[i] == FormatChange(delta[i])
    {
      var rs := rows;
      var d := seq(|rs|, i requires 0 <= i < |rs| => Delta(rs[i].prevRank, rs[i].rank));
      delta := d;
      change := seq(|d|, i requires 0 <= i < |d| => FormatChange(d[i]));
    }

    /** df['是否在內']: check_status of 第 1 欄 when that column exists, '?' otherwise. */
    method AddMembership()
      modifies this`member
      ensures |member| == |rows|
      ensures forall i :: 0 <= i < |rows| ==> member[i] == Membership(hasMarker, rows[i].marker)
    {
      var rs := rows;
      if hasMarker {
        member := seq(|rs|, i requires 0 <= i < |rs| => CheckStatus(rs[i].marker));
      } else {
        member := seq(|rs|, _ => Unknown);
      }
    }

    /** The seven displayed columns of every row, in frame order. */
    function Displayed(): (es: seq<Entry>)
      reads this
      requires |change| == |rows| && |member| == |rows|
      ensures |es| == |rows|
    {
      var rs, cs, ms := rows, change, member;
      seq(|rs|, i requires 0 <= i < |rs| =>
        Entry(rs[i].code, rs[i].name, rs[i].price, rs[i].marketCap, rs[i].rank, cs[i], ms[i]))
    }
  }

  /**
   * The table the page shows, or None when the loaded frame is empty (the
   * "no data yet" warning). The shown table is a top-150 table of the
   * derived rows.
   */
  method Render(sheet: Sheet) returns (table: Option<seq<Entry>>)
    ensures table.None? <==> |sheet.rows| == 0
    ensures table.Some? ==> IsTopRanked(table.value, Derive(sheet), TopCount)
  {
    var df := new Frame.Read(sheet);
    df.DefaultPreviousRank();
    if |df.rows| == 0 {
      return None;
    }
    df.AddRankChange();
    df.AddMembership();
    var all := df.Displayed();
    assert all == Derive(sheet) by {
      forall i | 0 <= i < |all| ensures all[i] == Derive(sheet)[i] {
        assert df.rows[i] == sheet.rows[i].(prevRank := LoadedPrevRank(sheet.hasPrevRank, sheet.rows[i]));
      }
    }
    SortedHeadIsTop(all, TopCount);
    table := Some(Head(SortByRank(all), TopCount));
  }

  /** Every row of a top-n table of the derived rows is the derivation of some sheet row. */
  lemma ShownRowIsDerived(sheet: Sheet, t: seq<Entry>, n: nat, x: Entry) returns (i: int)
    requires IsTopRanked(t, Derive(sheet), n) && x in t
    ensures 0 <= i < |sheet.rows| && x == DeriveEntry(sheet, sheet.rows[i])
  {
    assert x in multiset(t);
    assert x in multiset(Derive(sheet));
    i :| 0 <= i < |Derive(sheet)| && Derive(sheet)[i] == x;
  }

  /** Without a 昨日排名 column, every shown row has the neutral change marker. */
  lemma ShownFlatWithoutPreviousColumn(sheet: Sheet, t: seq<Entry>)
    requires !sheet.hasPrevRank && IsTopRanked(t, Derive(sheet), TopCount)
    ensures forall x :: x in t ==> x.change == Flat
  {
    forall x | x in t ensures x.change == Flat {
      var i := ShownRowIsDerived(sheet, t, TopCount, x);
    }
  }

  /** Every shown row's 是否在內 is '?' exactly when the 第 1 欄 column is missing. */
  lemma ShownMembership(sheet: Sheet, t: seq<Entry>)
    requires IsTopRanked(t, Derive(sheet), TopCount)
    ensures forall x :: x in t ==> (x.member == Unknown <==> !sheet.hasMarker)
  {
    forall x | x in t ensures x.member == Unknown <==> !sheet.hasMarker {
      var i := ShownRowIsDerived(sheet, t, TopCount, x);
    }
  }
}
