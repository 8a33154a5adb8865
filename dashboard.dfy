/** The live monitor: a perpetual loop that re-reads the most recent rows
    of the `transactions` table, marks each row BLOCKED or APPROVED,
    computes the headline figures and a log table, and waits 1 second after
    a good cycle and 2 seconds after a failed one. */
module Dashboard {
  import opened Wrappers
  import opened Seqs
  import opened Api

  /** `LIMIT 200` of the monitor's query. */
  const WindowSize: nat := 200

  /** `head(15)` of the log table. */
  const TableRows: nat := 15

  /** The columns the log table would like to show, in this order. */
  const DisplayCols: seq<string> := ["timestamp", "amount", "distance_km", "hour", "frequency", "status"]

  // ---------------------------------------------------------------------
  // Reading the window
  // ---------------------------------------------------------------------

  /** `ORDER BY timestamp DESC LIMIT limit`: the `limit` most recently
      appended rows, newest first. */
  function Recent(rows: seq<StoredRow>, limit: nat): (r: seq<StoredRow>)
    ensures |r| == Min(limit, |rows|)
    ensures forall i :: 0 <= i < |r| ==> r[i] == rows[|rows| - 1 - i]
    ensures WellStamped(rows) ==> forall i, j :: 0 <= i < j < |r| ==> r[i].timestamp > r[j].timestamp
    decreases limit
  {
    if limit == 0 || rows == [] then []
    else [rows[|rows| - 1]] + Recent(rows[..|rows| - 1], limit - 1)
  }

  /** What `read_sql` returns: the table's column names and its rows. */
  datatype Frame = Frame(schema: seq<string>, rows: seq<StoredRow>)

  // ---------------------------------------------------------------------
  // Status column and headline figures
  // ---------------------------------------------------------------------

  datatype Status = Blocked | Approved

  function StatusOf(prediction: int): (s: Status)
    ensures s == Blocked <==> prediction == -1
  {
    if prediction == -1 then Blocked else Approved
  }

  function StatusLabel(s: Status): string
  {
    match s
    case Blocked => "BLOCKED"
    case Approved => "APPROVED"
  }

  /** A row of the frame after the `status` column was added. */
  datatype LiveRow = LiveRow(row: StoredRow, status: Status)

  /** `df['status'] = df['prediction'].apply(...)`. */
  function WithStatus(window: seq<StoredRow>): (rows: seq<LiveRow>)
    ensures |rows| == |window|
    ensures forall i :: 0 <= i < |rows| ==>
              rows[i].row == window[i] && (rows[i].status == Blocked <==> window[i].entry.prediction == -1)
  {
    seq(|window|, i requires 0 <= i < |window| => LiveRow(window[i], StatusOf(window[i].entry.prediction)))
  }

  predicate IsBlocked(r: LiveRow)
  {
    r.status == Blocked
  }

  /** The logged labels of a window, in order. */
  function Predictions(window: seq<StoredRow>): seq<int>
  {
    seq(|window|, i requires 0 <= i < |window| => window[i].entry.prediction)
  }

  /** The number of BLOCKED rows is the number of rows whose label is -1. */
  lemma {:induction false} BlockedCount(window: seq<StoredRow>)
    ensures |Filter(WithStatus(window), IsBlocked)| == multiset(Predictions(window))[-1]
  {
    if window == [] {
      assert Predictions(window) == [];
    } else {
      var rows := WithStatus(window);
      assert rows[1..] == WithStatus(window[1..]);
      assert Predictions(window) == [window[0].entry.prediction] + Predictions(window[1..]);
      BlockedCount(window[1..]);
    }
  }

  /** The headline figures of one cycle. */
  datatype Kpi = Kpi(total: nat, fraud: nat, rate: real)

  /** `fraud / total * 100`, or 0 for an empty window. */
  function FraudRate(fraud: nat, total: nat): (rate: real)
    ensures total == 0 ==> rate == 0.0
    ensures total > 0 ==> rate * (total as real) == (fraud as real) * 100.0
    ensures fraud <= total ==> 0.0 <= rate <= 100.0
  {
    if total > 0 then (fraud as real / total as real) * 100.0 else 0.0
  }

  /** `total_txns`, `fraud_txns` and `fraud_rate` of a window. */
  function Snapshot(window: seq<StoredRow>): (k: Kpi)
    ensures k.total == |window|
    ensures k.fraud == multiset(Predictions(window))[-1]
    ensures k.fraud <= k.total
    ensures 0.0 <= k.rate <= 100.0
    ensures k.rate == FraudRate(k.fraud, k.total)
    ensures k.total == 0 ==> k.fraud == 0 && k.rate == 0.0
  {
    var rows := WithStatus(window);
    var total := |rows|;
    var fraud := |Filter(rows, IsBlocked)|;
    BlockedCount(window);
    var rate := FraudRate(fraud, total);
    assert fraud <= total;
    assert 0.0 <= rate <= 100.0;
    Kpi(total, fraud, rate)
  }

  // ---------------------------------------------------------------------
  // Log table
  // ---------------------------------------------------------------------

  /** The columns of the frame: those of the table, then `status`. */
  function FrameColumns(schema: seq<string>): seq<string>
  {
    schema + ["status"]
  }

  /** `cols_to_show`: the display columns the frame has, in display order. */
  function ColsToShow(schema: seq<string>): (cols: seq<string>)
    ensures IsSubsequence(cols, DisplayCols)
    ensures forall c :: c in cols <==> c in DisplayCols && c in FrameColumns(schema)
    ensures "status" in cols
  {
    Filter(DisplayCols, c => c in FrameColumns(schema))
  }

  datatype Cell = Number(x: real) | Whole(n: int) | Str(s: string) | Absent

  /** The value a live row holds in a named column. */
  function CellOf(r: LiveRow, column: string): Cell
  {
    if column == "id" then Whole(r.row.id)
    else if column == "transaction_id" then Str(r.row.entry.transactionId)
    else if column == "amount" then Number(r.row.entry.amount)
    else if column == "distance_km" then Number(r.row.entry.distanceKm)
    else if column == "hour" then Whole(r.row.entry.hour)
    else if column == "frequency" then Whole(r.row.entry.frequency)
    else if column == "prediction" then Whole(r.row.entry.prediction)
    else if column == "timestamp" then Whole(r.row.timestamp)
    else if column == "status" then Str(StatusLabel(r.status))
    else Absent
  }

  /** `df[cols_to_show].head(15)`: the first rows of the window, projected on the shown columns. */
  function LogTable(rows: seq<LiveRow>, cols: seq<string>): (table: seq<seq<Cell>>)
    ensures |table| == Min(TableRows, |rows|)
    ensures forall i :: 0 <= i < |table| ==> |table[i]| == |cols|
    ensures forall i, j :: 0 <= i < |table| && 0 <= j < |cols| ==> table[i][j] == CellOf(rows[i], cols[j])
  {
    seq(Min(TableRows, |rows|), i requires 0 <= i < Min(TableRows, |rows|) =>
      seq(|cols|, j requires 0 <= j < |cols| => CellOf(rows[i], cols[j])))
  }

  // ---------------------------------------------------------------------
  // One cycle and the perpetual loop
  // ---------------------------------------------------------------------

  /** What the placeholder shows. */
  datatype Screen =
    | Blank
    | Waiting
    | Live(kpi: Kpi, shown: seq<string>, table: seq<seq<Cell>>)
    | Connecting(error: string)

  /** A cycle's screen and the seconds slept after it. */
  datatype Outcome = Outcome(screen: Screen, delay: nat)

  /** The body of the loop, given the outcome of the read. */
  function Cycle(fetched: Result<Frame, string>): (o: Outcome)
    ensures o.delay == 1 || o.delay == 2
    ensures o.delay == 2 <==> fetched.Failure?
    ensures fetched.Failure? ==> o.screen == Connecting(fetched.error)
    ensures fetched.Success? ==> (o.screen == Waiting <==> fetched.value.rows == [])
    ensures o.screen.Live? ==> fetched.Success? && o.screen.kpi.total == |fetched.value.rows| > 0
    ensures o.screen.Live? ==> o.screen.kpi == Snapshot(fetched.value.rows)
    ensures fetched.Success? && fetched.value.rows != [] ==> o.screen.Live?
    ensures o.screen.Live? ==> o.screen.shown == ColsToShow(fetched.value.schema)
    ensures o.screen.Live? ==> o.screen.table == LogTable(WithStatus(fetched.value.rows), o.screen.shown)
  {
    match fetched
    case Failure(e) => Outcome(Connecting(e), 2)
    case Success(frame) =>
      if frame.rows == [] then Outcome(Waiting, 1)
      else
        var rows := WithStatus(frame.rows);
        var cols := ColsToShow(frame.schema);
        Outcome(Live(Snapshot(frame.rows), cols, LogTable(rows, cols)), 1)
  }

  /** A cycle that reads the store shows, once there are rows, the figures of
      the 200 newest rows and a table of the 15 newest, newest first. */
  lemma CycleOnStore(schema: seq<string>, rows: seq<StoredRow>)
    ensures rows == [] ==> Cycle(Success(Frame(schema, Recent(rows, WindowSize)))).screen == Waiting
    ensures rows != [] ==>
      var screen := Cycle(Success(Frame(schema, Recent(rows, WindowSize)))).screen;
      screen.Live? &&
      screen.kpi.total == Min(WindowSize, |rows|) &&
      |screen.table| == Min(TableRows, |rows|) &&
      forall i, j :: 0 <= i < |screen.table| && 0 <= j < |screen.shown| ==>
        screen.table[i][j] == CellOf(LiveRow(rows[|rows| - 1 - i], StatusOf(rows[|rows| - 1 - i].entry.prediction)), screen.shown[j])
  {
    var window := Recent(rows, WindowSize);
    var o := Cycle(Success(Frame(schema, window)));
    if rows != [] {
      assert |window| > 0;
      var live := WithStatus(window);
      assert o.screen.table == LogTable(live, o.screen.shown);
      forall i | 0 <= i < |live|
        ensures live[i] == LiveRow(rows[|rows| - 1 - i], StatusOf(rows[|rows| - 1 - i].entry.prediction))
      {
      }
    }
  }

  /** The monitor's state after some cycles: how many ran, the seconds slept, the last screen. */
  datatype Monitor = Monitor(cycles: nat, slept: nat, screen: Screen)

  predicate Failed(fetched: Result<Frame, string>)
  {
    fetched.Failure?
  }

  function Step(m: Monitor, fetched: Result<Frame, string>): Monitor
  {
    var o := Cycle(fetched);
    Monitor(m.cycles + 1, m.slept + o.delay, o.screen)
  }

  /** The first |fetches| cycles of `while True`: no read outcome ends the
      loop; every cycle sleeps 1 second, and a failed one 1 second more. */
  method Poll(fetches: seq<Result<Frame, string>>) returns (m: Monitor)
    ensures m.cycles == |fetches|
    ensures m.slept == |fetches| + |Filter(fetches, Failed)|
    ensures m.screen == if fetches == [] then Blank else Cycle(fetches[|fetches| - 1]).screen
  {
    m := Monitor(0, 0, Blank);
    var i := 0;
    while i < |fetches|
      invariant 0 <= i <= |fetches|
      invariant m.cycles == i
      invariant m.slept == i + |Filter(fetches[..i], Failed)|
      invariant m.screen == if i == 0 then Blank else Cycle(fetches[i - 1]).screen
    {
      assert fetches[..i + 1] == fetches[..i] + [fetches[i]];
      FilterAppend(fetches[..i], [fetches[i]], Failed);
      m := Step(m, fetches[i]);
      i := i + 1;
    }
    assert fetches[..i] == fetches;
  }
}
