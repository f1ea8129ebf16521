# Taiwan market-cap ranking dashboard: the row-derivation pipeline

The dashboard (`app.py`) loads a sheet of Taiwan-listed stocks ranked by market
capitalisation and shows the top 150. This project models what it derives for
each stock, and proves properties of that model:

- **Loading.** Numeric cells that do not parse are NaN. A sheet without a
  previous-rank column (昨日排名) gets one that copies the current rank (市值排名).
- **Rank change (名次變動).** The delta `previous − current` is shown as `➖`
  when it is NaN or zero, as `⬆️ N` when it is positive, and as `⬇️ N` when it is
  negative, where N is its absolute value.
- **Membership (是否在內).** A row is `V` when the text of its marker cell (第 1 欄)
  contains `✅`, and `X` otherwise. A missing cell has the text `nan`. Every row
  is `?` when the marker column itself is missing.
- **Ordering.** Rows are sorted by rank, ascending, with NaN ranks last. The
  first 150 are kept and projected onto seven columns.
- **Styling.** Ranks up to 40 are green, 41–50 yellow, 51–60 red, and the rest
  have no colour. `V` is red bold, `X` green bold, anything else plain.

Modules: `Wrappers` (Option), `Cells` (the per-cell functions), `Table` (rows and
the per-row derivation), `Ranking` (sort by rank and head), and `Dashboard`. In
`Dashboard`, the DataFrame is a class whose methods add columns in place, as the
script does, and `Render` runs the page body up to the projected top-150 table.

NaN is `None`. Ranks are integers. Prices and market caps are `real`s that are
only passed through. A marker cell is its text (`Some(s)`) or missing (`None`).

Two facts about `app.py` shape the model:
- `app.py` has no rule that predicts additions to or removals from the index.
  Only the display banding of `highlight_rank_col` exists, and that is what the
  model has.
- `sort_values` uses pandas' default quicksort, which is not stable. So no
  property here depends on the order of rows with equal or NaN ranks
  (`IsTopRanked`).

## Model

| member | source | states |
|---|---|---|
| `Cells.Delta` | app.py:50 | the delta exists exactly when both ranks exist, and then current + delta = previous |
| `Cells.FormatChange` | app.py:51-56 | the result always has a positive magnitude when up or down; NaN gives `➖`; otherwise the signed value shown equals the delta (so 0 gives `➖`, positive gives up, negative gives down by its absolute value) |
| `Cells.NormalChangeUnique` | app.py:51-55 | a cell shown with a positive magnitude is fixed by its signed value, so the three branches cannot disagree |
| `Cells.RankMovement` | app.py:50-54 | with both ranks present: up exactly when the stock moved toward rank 1, down exactly when it moved away, flat exactly when the ranks are equal, and the magnitude is the distance moved |
| `Cells.Decimal` | app.py:53-54 | the magnitude is written as a non-empty run of decimal digits with no leading zero unless it is the single digit, as `str` writes it |
| `Cells.ChangeText` | app.py:52-54 | the neutral text `➖` is produced exactly for no change; up and down texts start with `⬆️ ` and `⬇️ ` and continue with decimal digits only |
| `Cells.DecimalRoundTrip` | app.py:53-54 | the decimal text of the magnitude reads back as the same number |
| `Cells.ChangeTextRoundTrip` | app.py:52-54 | every rendered change (`➖`, `⬆️ N`, `⬇️ N`) can be read back into the change it shows |
| `Cells.ChangeTextInjective` | app.py:52-54 | two different changes never render as the same text |
| `Cells.StatusText` | app.py:59-67 | each status cell is one character: `V` exactly for in, `X` exactly for out, `?` exactly for unknown |
| `Cells.StatusTextOfMarker` | app.py:59-65 | with the marker column present, the 是否在內 text is `V` exactly when the marker text contains `✅`, and `X` exactly when it does not |
| `Cells.MarkerText` | app.py:60 | `str(val)` of a marker cell: its own text, and for a missing cell a text (`nan`) with no `✅` |
| `Cells.CheckStatus` | app.py:59-62 | never `?`; `V` exactly when the marker's text contains `✅` |
| `Cells.MissingMarkerIsOut` | app.py:60 | a missing marker cell (text `nan`) is `X` |
| `Cells.Membership` | app.py:64-67 | `?` exactly when the marker column is missing; otherwise `V` exactly when the marker text contains `✅` |
| `Cells.StatusTextInjective` | app.py:59-67 | the texts `V`, `X`, `?` identify their statuses |
| `Cells.RankBand` | app.py:79-85 | the bands are disjoint and cover every rank: none for NaN or above 60, green at or below 40, yellow in (40, 50], red in (50, 60] |
| `Cells.BandMonotone` | app.py:82-84 | among ranks up to 60, every rank is coloured, and a worse rank never gets a milder band |
| `Cells.StatusEmphasis` | app.py:88-93 | `V` is red bold, `X` green bold, and only `?` is plain |
| `Table.LoadedPrevRank` | app.py:34-37 | the previous rank is the sheet's own when the column exists, and a copy of the current rank otherwise |
| `Table.DeriveEntry` | app.py:50-67 | code, name, price, market cap and rank pass through; the change has a positive magnitude when up or down; a NaN current or previous rank, or a missing previous-rank column, gives `➖`; with both ranks present the signed change is previous minus current; `?` exactly when the marker column is missing, and otherwise `V` exactly when the marker text contains `✅` |
| `Table.Derive` | app.py:50-67 | one derived row per sheet row |
| `Table.DerivePassesThrough` | app.py:50-74 | deriving only adds columns: code, name, price, market cap and rank pass through unchanged |
| `Table.NoPreviousColumnIsFlat` | app.py:34-56 | without a previous-rank column, every row shows `➖` |
| `Table.MissingRankIsFlat` | app.py:50-52 | a row with a NaN current or previous rank shows `➖`, never up or down |
| `Table.ChangeIsRankDifference` | app.py:50-54 | with both ranks present, the signed change shown is previous rank minus current rank |
| `Table.MembershipOfRow` | app.py:59-67 | a row is `?` exactly when the marker column is missing; otherwise it is `V` or `X` by the check mark |
| `Table.RisingMemberExample` | app.py:50-65 | rank 42 to 35 with marker `✅ included` shows `⬆️ 7` and `V` |
| `Table.UnchangedOutsiderExample` | app.py:50-84 | rank 45 to 45 with an empty marker shows `➖`, `X` and the yellow band |
| `Ranking.RankLe` | app.py:70 | the ascending order of `sort_values` with NaN last: ranked before NaN, never NaN before ranked, and ranked rows by their rank |
| `Ranking.SortByRank` | app.py:70 | the result is a permutation of the rows, ascending by rank with NaN ranks last |
| `Ranking.Head` | app.py:71 | `head(n)` keeps min(n, rows) rows, the first ones, in order |
| `Ranking.SortedHeadIsTop` | app.py:70-71 | the head of the sorted rows has min(n, rows) rows; it is sorted; it is drawn from the input, as a sub-multiset; no dropped row ranks strictly ahead of a kept one |
| `Ranking.PresentRanksFirst` | app.py:70 | in a sorted table, every row with a rank precedes every row with a NaN rank, in ascending order |
| `Ranking.DroppedRankedRowOutranksKept` | app.py:70-71 | if a ranked row was cut, every kept row has a rank no larger than its rank |
| `Dashboard.Frame.Read` | app.py:25 | the frame holds the sheet's rows and columns, with no derived columns yet |
| `Dashboard.Frame.DefaultPreviousRank` | app.py:34-37 | afterwards the previous-rank column exists; each row's previous rank is its own, or a copy of its current rank if the column was missing; nothing else changes |
| `Dashboard.Frame.AddRankChange` | app.py:50-56 | adds the delta and change columns, one cell per row, computed from that row's ranks |
| `Dashboard.Frame.AddMembership` | app.py:64-67 | adds the membership column, one cell per row, from that row's marker and whether the marker column exists |
| `Dashboard.Frame.Displayed` | app.py:74 | one seven-column row per frame row |
| `Dashboard.Render` | app.py:44-74 | no table (the warning) exactly when the loaded sheet has no rows; otherwise the table is a top-150 table of the derived rows, in the sense of `SortedHeadIsTop` |
| `Dashboard.ShownRowIsDerived` | app.py:70-74 | every shown row is the derivation of some sheet row |
| `Dashboard.ShownFlatWithoutPreviousColumn` | app.py:34-71 | without a previous-rank column, every shown row shows `➖` |
| `Dashboard.ShownMembership` | app.py:64-71 | every shown row is `?` exactly when the marker column is missing |

## Left out

- Page setup, title and date header, caption, the `st.dataframe` call and its `column_config` formatting, the last-update line (app.py:6-16, 102-122). These are UI.
- Fetching the CSV, the 60-second cache, and the `try`/`except` that shows an error and returns an empty frame (app.py:19-25, 40-42). This is I/O. The model takes the loaded sheet as input (`Frame.Read`).
- `pd.to_numeric(errors='coerce')` (app.py:28-31, 37). It is a library call. Its result is the input: each numeric cell is already `Some(value)` or `None`.
- The 股票代號, 股票名稱, 股價, 總市值 and 市值排名 columns are assumed present. Without 市值排名 and 昨日排名, the `KeyError` at app.py:35 is inside the `try` of app.py:24-39: the `except` at app.py:40-42 shows an error and returns an empty frame, and the page shows the no-data warning (app.py:46, 121-122). Without 市值排名 but with 昨日排名, the page crashes with `KeyError` at app.py:50. Without any of the other four columns, it crashes at app.py:74. None of these missing-column cases is modelled.
- Ranks are integers. If a rank cell held a fractional number, `int(val)` would truncate the delta, and a delta of 0.5 would show `⬆️ 0`. The model does not cover that case. Ranks are also unbounded `int`s: they are assumed small enough that pandas' int64 subtraction cannot wrap and float64 (used once the column holds a NaN) stores them exactly.
- Ranks are finite. `pd.to_numeric` turns a cell such as `inf` into an infinite number. When the delta is infinite (one rank infinite and the other finite, or both infinite with opposite signs), `int(val)` at app.py:53-54 raises `OverflowError` outside the `try` and the page crashes. An infinite rank paired with a NaN rank, or with an infinite rank of the same sign, gives a NaN delta and `➖`. The model does not cover non-finite ranks.
- Marker cells that pandas reads as numbers are modelled by their text. Python's `str` of such a number never contains `✅`.
- The CSS strings of `highlight_rank_col` and `style_status_col` (app.py:79-93). They are modelled as the enums `Band` and `Emphasis`.
- Order among rows with equal or NaN ranks. The quicksort of `sort_values` does not keep it. `SortByRank` picks one order (insertion). Every property stated about sorting holds for any order of those rows, and none claims stability.
- The frame is sorted and cut before the seven columns are projected (app.py:70-74). The model projects first (`Frame.Displayed`), then sorts and cuts. These agree because the projection is per row and keeps the sort key.
- The 變動數 column is computed (`Frame.AddRankChange`) but not displayed, as in the script.
