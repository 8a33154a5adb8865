# Aegis fraud scoring and live monitor, modelled in Dafny

This project models the real-time core of the Aegis fraud-detection
service:

- the scoring endpoint `POST /predict` (`predict_transaction` in `api.py`).
  It builds the feature vector `[amount, distance_km, hour, frequency]` and
  asks the pretrained anomaly model for a label (+1 normal, -1 anomalous).
  It appends one `TransactionLog` row to the `transactions` table and
  answers with `is_fraud` and a message. The message is "Approved", or
  the first matching reason of a fixed cascade: late night, high
  frequency, large amount, then a generic reason;
- the live monitor (`Dashboard.py`), which runs forever. Each cycle reads
  the 200 newest rows and marks each row BLOCKED or APPROVED. It computes
  the total, the number blocked and the fraud rate, and picks the display
  columns the table has. It shows the first 15 rows. It sleeps 1 second
  after a good cycle and 2 seconds after a failed read.

Files:

- `wrappers.dfy`: module `Wrappers`, with `Option` and `Result`.
- `seqs.dfy`: module `Seqs`, with `Filter` and `FilterCounts` (list comprehensions and
  boolean-mask selection), `IsSubsequence` and `Min`.
- `api.dfy`: module `Api`. It holds the request, response and row shapes,
  `Features`, the reason cascade (`Reason`, and `FirstFiring` over the
  rule list `Priority` as a reference), `Respond`, the store class
  `TransactionStore` and the endpoint `PredictTransaction`.
- `dashboard.dfy`: module `Dashboard`. It holds the windowed read
  `Recent`, the status column, the figures `Snapshot`, `ColsToShow`,
  `LogTable`, one loop body `Cycle` and the loop `Poll`.

The anomaly model is a parameter `model: seq<real> -> int`. Any function
may stand for it, so every property holds whatever the model decides. The
store is a class holding a `seq` of rows. It gives row k the id k + 1 and
timestamp k. The monitor's read is a parameter of `Cycle`, either the
frame read or the error raised. `Poll` runs the loop over any finite
sequence of such outcomes.

On an empty window the monitor shows its "Waiting for data" notice and
computes no figures (Dashboard.py:24, 60-62). `Snapshot` still gives rate
0 for an empty window, copying the `else 0` of Dashboard.py:30, which that
path never reaches; `Cycle` shows `Waiting` there. The `status` column is
added before the display columns are filtered, so `status` is always
shown, whatever the table's schema (`ColsToShow`).

## Model

| member | source | states |
|---|---|---|
| `Api.Features` | api.py:50-53 | The vector has four entries, and entry i is the request field named by training column i (`amount`, `distance_km`, `hour`, `frequency`), unchanged. |
| `Api.FirstFiring` | api.py:77-84 | Returns the first rule in list order that fires, and none exactly when no rule fires. |
| `Api.Reason` | api.py:77-84 | The reason is one of the fixed messages and is never "Approved". |
| `Api.ReasonIsFirstFiring` | api.py:77-84 | The if/elif cascade equals first-match over the priority list late night, high frequency, large amount, with the generic reason as fallback. |
| `Api.ReasonPriority` | api.py:77-82 | A specific reason is given if and only if its rule fires and no higher-priority rule fires. |
| `Api.ReasonGeneric` | api.py:83-84 | "Blocked: Anomalous Pattern" is given if and only if none of the three rules fires. |
| `Api.Respond` | api.py:56-89 | The id is echoed. `is_fraud` holds iff the label is -1, and any other label is not fraud. The message is "Approved" iff not fraud, the cascade's reason when fraud, and always one of the five fixed strings. |
| `Api.EntryOf` | api.py:61-68 | The logged row carries exactly the request's fields (they can be recovered from it) and the model's label as its prediction. |
| `Api.TransactionStore.constructor` | api.py:18-29 | In a new database the table starts empty and well stamped. |
| `Api.TransactionStore.Append` | api.py:69-70 | Appends exactly the given row with the next id and timestamp. Earlier rows are unchanged, and ids and timestamps stay in append order. |
| `Api.PredictTransaction` | api.py:47-90 | The response is `Respond` of the model's label for `Features(txn)`. Exactly one row is appended; it is `EntryOf` the request and that label. Earlier rows are untouched. If every earlier row's prediction was the model's label for its own fields, that still holds after the append. |
| `Api.SubmitTwice` | api.py:21 | The same request submitted twice gets the same answer and is logged twice, under two ids: transaction ids are not required to be unique. |
| `Seqs.Filter` | Dashboard.py:58 | The result is a subsequence of the input (original order kept), no longer than it, and holds an element iff the input holds it and it satisfies the test. |
| `Seqs.FilterCounts` | Dashboard.py:29 | Each element that satisfies the test is kept exactly as many times as the input holds it; every other element occurs 0 times. |
| `Dashboard.Recent` | Dashboard.py:21-22 | Returns min(limit, rows) rows, the newest first. Timestamps strictly decrease along the result when the table is well stamped. |
| `Dashboard.WithStatus` | Dashboard.py:26 | One status per row, BLOCKED iff that row's prediction is -1, otherwise APPROVED. |
| `Dashboard.BlockedCount` | Dashboard.py:29 | The number of BLOCKED rows equals the number of -1 labels in the window. |
| `Dashboard.FraudRate` | Dashboard.py:30 | The rate is 0 for an empty window; otherwise rate × total = fraud × 100. It lies in [0, 100] whenever fraud ≤ total. |
| `Dashboard.Snapshot` | Dashboard.py:28-30 | The total is the window size. The fraud count is the number of -1 labels, at most the total. The rate is `FraudRate` of the two, and lies between 0 and 100. |
| `Dashboard.ColsToShow` | Dashboard.py:56-58 | Exactly the display columns present in the frame, in display order. No other names appear, and `status` is always present. |
| `Dashboard.LogTable` | Dashboard.py:59 | At most 15 rows, the first ones of the window, each projected onto the shown columns in order. |
| `Dashboard.Cycle` | Dashboard.py:18-70 | A failed read shows the error and sleeps 2 seconds. A good read sleeps 1 second and shows the waiting notice iff the window is empty. A non-empty good read shows a Live screen with the window's `Snapshot`, the `ColsToShow` columns and the `LogTable` of the window on those columns. |
| `Dashboard.CycleOnStore` | Dashboard.py:21-59 | A cycle reading the store shows `Waiting` when the table is empty. Otherwise it shows a total of min(200, rows) and a table of the min(15, rows) newest rows, newest first. |
| `Dashboard.Poll` | Dashboard.py:17-70 | The loop runs one cycle per read outcome, failures included, and never stops early. The seconds slept are 1 per cycle plus 1 per failed read. The screen is the last cycle's. |

## Left out

- Model training and synthetic data (`model.py`), and the traffic generator
  (`producer.py`): randomised, library-bound or network I/O.
- The IsolationForest's internals and `joblib.load`: the model is an
  arbitrary function parameter, and loading it is assumed to have succeeded.
- Failures inside the endpoint: an exception from `model.predict` or from
  `db.commit` turns into an HTTP 500 in the framework. `PredictTransaction`
  models only the path where both succeed.
- Failures inside a monitor cycle other than the read: `Cycle` treats the
  read as the only step that can raise. A rendering error would take the
  same 2-second path.
- `datetime.utcnow`: replaced by a store-assigned counter (the number of
  earlier rows). So `ORDER BY timestamp DESC` is reverse append order, and
  ties between equal clock readings are not modelled.
- SQLAlchemy sessions, SQLite and the execution of the SQL query: the table
  is a `seq` of rows, and the query is `Recent`.
- Floating point: amounts, distances and the fraud rate are exact `real`s.
  `hour` and `frequency` enter the vector as exact reals. The `.1f` formatting
  of the rate is not modelled.
- Streamlit and Altair rendering (the KPI widgets, the scatter chart and its
  tooltip, the warning and error banners): only the values they are given
  are modelled.
- `time.sleep`: the chosen delay is recorded, and real time is not modelled.
- `while True`: `Poll` runs the first n cycles for any n. Dafny does not
  express the infinite run itself.
- Request validation by FastAPI/pydantic and serving by uvicorn: inputs
  are well typed.
- Concurrent requests (`check_same_thread=False`): requests are sequential
  calls.
