/**
 * The data aligner of `ForexPairsMonitor.download_data`: each downloaded close
 * series loses its missing values, the two are joined on date, and fewer than
 * 100 joined rows is a failure (`None`).
 *
 * A series is a sequence of observations in strictly increasing date order,
 * as the date index of a download is. Dates are day numbers.
 */
module Series {
  import opened Optional

  /** One day of a downloaded close series; `None` is a missing (NaN) close. */
  datatype Obs = Obs(date: int, close: Option<real>)

  /** One day of a series after its missing values are dropped. */
  datatype Point = Point(date: int, close: real)

  /** One row of the aligned table: the CADJPY and NZDJPY closes on one date. */
  datatype Row = Row(date: int, cad: real, nzd: real)

  /** What the download returns for the two pairs, before any cleaning. */
  datatype Download = Download(cad: seq<Obs>, nzd: seq<Obs>)

  /** The minimum number of aligned rows the analysis accepts. */
  const MinRows: nat := 100

  ghost predicate ObsIncreasing(s: seq<Obs>) {
    forall i, j :: 0 <= i < j < |s| ==> s[i].date < s[j].date
  }

  ghost predicate PointsIncreasing(s: seq<Point>) {
    forall i, j :: 0 <= i < j < |s| ==> s[i].date < s[j].date
  }

  ghost predicate RowsIncreasing(s: seq<Row>) {
    forall i, j :: 0 <= i < j < |s| ==> s[i].date < s[j].date
  }

  /** The dates on which a raw series has a close. */
  ghost function PresentDates(s: seq<Obs>): set<int> {
    set o | o in s && o.close.Some? :: o.date
  }

  /** The dates of the aligned table. */
  ghost function RowDates(s: seq<Row>): set<int> {
    set r | r in s :: r.date
  }

  /** `series.dropna()`: keeps exactly the observations that have a close, in order. */
  function DropMissing(s: seq<Obs>): (r: seq<Point>)
    ensures forall p :: p in r <==> Obs(p.date, Some(p.close)) in s
    ensures ObsIncreasing(s) ==> PointsIncreasing(r)
  {
    if s == [] then []
    else
      var rest := DropMissing(s[1..]);
      assert forall o :: o in s <==> o == s[0] || o in s[1..];
      match s[0].close
      case None => rest
      case Some(v) => [Point(s[0].date, v)] + rest
  }

  /** The close of `s` on date `d`, if `s` has one. */
  function CloseOn(s: seq<Point>, d: int): (r: Option<real>)
    ensures r.Some? ==> Point(d, r.value) in s
    ensures r.None? ==> forall p :: p in s ==> p.date != d
  {
    if s == [] then None
    else if s[0].date == d then Some(s[0].close)
    else CloseOn(s[1..], d)
  }

  /**
   * Building a two-column frame from the cleaned series and dropping rows
   * with a missing value is an inner join on date: a row survives exactly
   * when both series have a close on its date.
   */
  function Join(a: seq<Point>, b: seq<Point>): (r: seq<Row>)
    requires PointsIncreasing(b)
    ensures forall row :: row in r <==> Point(row.date, row.cad) in a && Point(row.date, row.nzd) in b
    ensures |r| <= |a|
  {
    if a == [] then []
    else
      var rest := Join(a[1..], b);
      assert forall p :: p in a <==> p == a[0] || p in a[1..];
      match CloseOn(b, a[0].date)
      case None => rest
      case Some(w) =>
        assert forall v :: Point(a[0].date, v) in b ==> v == w;
        [Row(a[0].date, a[0].close, w)] + rest
  }

  /** The join keeps the date order of its left side. */
  lemma {:induction false} JoinIncreasing(a: seq<Point>, b: seq<Point>)
    requires PointsIncreasing(a) && PointsIncreasing(b)
    ensures RowsIncreasing(Join(a, b))
  {
    if a != [] {
      var rest := Join(a[1..], b);
      JoinIncreasing(a[1..], b);
      forall row | row in rest ensures a[0].date < row.date {
        var k :| 0 <= k < |a[1..]| && a[1..][k] == Point(row.date, row.cad);
        assert a[k + 1].date == row.date;
      }
    }
  }

  /** The table `download_data` builds before its length check. */
  function Aligned(cad: seq<Obs>, nzd: seq<Obs>): (r: seq<Row>)
    requires ObsIncreasing(cad) && ObsIncreasing(nzd)
    ensures forall row :: row in r <==> Obs(row.date, Some(row.cad)) in cad && Obs(row.date, Some(row.nzd)) in nzd
    ensures RowsIncreasing(r)
    ensures |r| == |PresentDates(cad) * PresentDates(nzd)|
  {
    var rows := Join(DropMissing(cad), DropMissing(nzd));
    JoinIncreasing(DropMissing(cad), DropMissing(nzd));
    AlignedDates(cad, nzd, rows);
    DistinctDates(rows);
    rows
  }

  /** The aligned rows fall on exactly the dates where both series have a close. */
  lemma AlignedDates(cad: seq<Obs>, nzd: seq<Obs>, rows: seq<Row>)
    requires forall row :: row in rows <==> Obs(row.date, Some(row.cad)) in cad && Obs(row.date, Some(row.nzd)) in nzd
    ensures RowDates(rows) == PresentDates(cad) * PresentDates(nzd)
  {
    forall d | d in PresentDates(cad) * PresentDates(nzd)
      ensures d in RowDates(rows)
    {
      var oc :| oc in cad && oc.close.Some? && oc.date == d;
      var on :| on in nzd && on.close.Some? && on.date == d;
      assert Row(d, oc.close.value, on.close.value) in rows;
    }
    forall d | d in RowDates(rows)
      ensures d in PresentDates(cad) * PresentDates(nzd)
    {
      var row :| row in rows && row.date == d;
      assert Obs(d, Some(row.cad)) in cad;
      assert Obs(d, Some(row.nzd)) in nzd;
    }
  }

  /** Rows in strictly increasing date order carry as many dates as rows. */
  lemma {:induction false} DistinctDates(rows: seq<Row>)
    requires RowsIncreasing(rows)
    ensures |RowDates(rows)| == |rows|
  {
    if rows != [] {
      var tail := rows[1..];
      DistinctDates(tail);
      DatesOfCons(rows);
      FirstDateIsNew(rows);
    }
  }

  /** The dates of a table are its first date and the dates of the rest. */
  lemma DatesOfCons(rows: seq<Row>)
    requires rows != []
    ensures RowDates(rows) == {rows[0].date} + RowDates(rows[1..])
  {
  }

  /** In date order, the first date does not recur later. */
  lemma FirstDateIsNew(rows: seq<Row>)
    requires rows != [] && RowsIncreasing(rows)
    ensures rows[0].date !in RowDates(rows[1..])
  {
  }

  /**
   * `download_data` after the download: the aligned table when it has at
   * least `MinRows` rows, `None` otherwise or when the download failed.
   */
  function DownloadData(fetched: Option<Download>): (r: Option<seq<Row>>)
    requires fetched.Some? ==> ObsIncreasing(fetched.value.cad) && ObsIncreasing(fetched.value.nzd)
    ensures r.None? <==> fetched.None? || |Aligned(fetched.value.cad, fetched.value.nzd)| < MinRows
    ensures r.Some? ==> r.value == Aligned(fetched.value.cad, fetched.value.nzd) && |r.value| >= MinRows
  {
    match fetched
    case None => None
    case Some(dl) =>
      var rows := Aligned(dl.cad, dl.nzd);
      if |rows| < MinRows then None else Some(rows)
  }

  /**
   * What `download_data` hands on: nothing when the download failed or the
   * two series share fewer than `MinRows` dates with a close; otherwise one
   * row for each shared date, in date order, carrying both closes.
   */
  lemma DownloadKeepsCommonDates(fetched: Option<Download>)
    requires fetched.Some? ==> ObsIncreasing(fetched.value.cad) && ObsIncreasing(fetched.value.nzd)
    ensures var r := DownloadData(fetched);
      && (r.None? <==> fetched.None? || |PresentDates(fetched.value.cad) * PresentDates(fetched.value.nzd)| < MinRows)
      && (r.Some? ==> RowsIncreasing(r.value) && forall row :: row in r.value <==>
            Obs(row.date, Some(row.cad)) in fetched.value.cad && Obs(row.date, Some(row.nzd)) in fetched.value.nzd)
  {
  }
}
