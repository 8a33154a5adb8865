/** The scoring endpoint `POST /predict`: it turns a transaction into a
    feature vector, asks the pretrained anomaly model for a label, appends
    one row to the `transactions` table and answers with a verdict and a
    human-readable reason. */
module Api {
  import opened Wrappers
  import opened Seqs

  // ---------------------------------------------------------------------
  // Record shapes
  // ---------------------------------------------------------------------

  /** The request body (`TransactionIn`). */
  datatype TransactionIn = TransactionIn(
    transactionId: string,
    amount: real,
    distanceKm: real,
    hour: int,
    frequency: int)

  /** The response body (`TransactionOut`). */
  datatype TransactionOut = TransactionOut(
    transactionId: string,
    isFraud: bool,
    message: string)

  /** A `TransactionLog` row as the endpoint builds it, before the store
      gives it an identity and a timestamp. */
  datatype LogEntry = LogEntry(
    transactionId: string,
    amount: real,
    distanceKm: real,
    hour: int,
    frequency: int,
    prediction: int)

  /** A row of the `transactions` table: `id` and `timestamp` are assigned by the store. */
  datatype StoredRow = StoredRow(id: nat, timestamp: nat, entry: LogEntry)

  // ---------------------------------------------------------------------
  // Feature vector and anomaly model
  // ---------------------------------------------------------------------

  /** The column labels of the one-row frame handed to the model, in training order. */
  const FeatureColumns: seq<string> := ["amount", "distance_km", "hour", "frequency"]

  /** The value of the request field that a column label names. */
  function FieldNamed(txn: TransactionIn, column: string): Option<real>
  {
    if column == "amount" then Some(txn.amount)
    else if column == "distance_km" then Some(txn.distanceKm)
    else if column == "hour" then Some(txn.hour as real)
    else if column == "frequency" then Some(txn.frequency as real)
    else None
  }

  /** The feature vector: position i holds, unchanged, the field that column i names. */
  function Features(txn: TransactionIn): (v: seq<real>)
    ensures |v| == |FeatureColumns|
    ensures forall i :: 0 <= i < |v| ==> FieldNamed(txn, FeatureColumns[i]) == Some(v[i])
  {
    [txn.amount, txn.distanceKm, txn.hour as real, txn.frequency as real]
  }

  /** The pretrained model, loaded once at start-up: it maps a feature
      vector to a label, +1 for normal and -1 for anomalous. Its internals
      are not modelled; any function of this type may stand for it. */
  type Scorer = seq<real> -> int

  /** A label counts as fraud exactly when it is -1. */
  predicate IsFraud(prediction: int)
  {
    prediction == -1
  }

  // ---------------------------------------------------------------------
  // Reason cascade
  // ---------------------------------------------------------------------

  const ApprovedMessage: string := "Approved"
  const GenericMessage: string := "Blocked: Anomalous Pattern"

  /** The specific reasons, each with its own trigger. */
  datatype Rule = LateNight | HighFrequency | LargeAmount

  predicate Fires(rule: Rule, txn: TransactionIn)
  {
    match rule
    case LateNight => txn.hour < 5
    case HighFrequency => txn.frequency > 10
    case LargeAmount => txn.amount > 5000.0
  }

  function Text(rule: Rule): string
  {
    match rule
    case LateNight => "Blocked: Suspicious Time (Late Night)"
    case HighFrequency => "Blocked: High Frequency Burst"
    case LargeAmount => "Blocked: Large Amount"
  }

  /** The order in which the reasons are tried. */
  const Priority: seq<Rule> := [LateNight, HighFrequency, LargeAmount]

  /** Every message the endpoint can answer with. */
  const Messages: set<string> :=
    {ApprovedMessage, Text(LateNight), Text(HighFrequency), Text(LargeAmount), GenericMessage}

  /** The index of the first rule of `rules` that fires, if any does. */
  function FirstFiring(rules: seq<Rule>, txn: TransactionIn): (hit: Option<nat>)
    ensures hit.Some? ==> hit.value < |rules| && Fires(rules[hit.value], txn)
    ensures hit.Some? ==> forall k :: 0 <= k < hit.value ==> !Fires(rules[k], txn)
    ensures hit.None? ==> forall k :: 0 <= k < |rules| ==> !Fires(rules[k], txn)
  {
    if rules == [] then None
    else if Fires(rules[0], txn) then Some(0)
    else
      match FirstFiring(rules[1..], txn)
      case None => None
      case Some(i) => Some(i + 1)
  }

  /** The reason given for a flagged transaction: an if/elif cascade over
      the raw request fields, independent of what the model weighed. */
  function Reason(txn: TransactionIn): (msg: string)
    ensures msg in Messages && msg != ApprovedMessage
  {
    if txn.hour < 5 then Text(LateNight)
    else if txn.frequency > 10 then Text(HighFrequency)
    else if txn.amount > 5000.0 then Text(LargeAmount)
    else GenericMessage
  }

  /** The cascade gives the text of the first rule in priority order that
      fires, and the generic reason when none does. */
  lemma ReasonIsFirstFiring(txn: TransactionIn)
    ensures Reason(txn) == match FirstFiring(Priority, txn)
                           case Some(i) => Text(Priority[i])
                           case None => GenericMessage
  {
    var hit := FirstFiring(Priority, txn);
    if hit.Some? {
      assert hit.value < 3;
      if hit.value == 1 {
        assert !Fires(Priority[0], txn);
      } else if hit.value == 2 {
        assert !Fires(Priority[0], txn) && !Fires(Priority[1], txn);
      }
    } else {
      assert !Fires(Priority[0], txn) && !Fires(Priority[1], txn) && !Fires(Priority[2], txn);
    }
  }

  /** A specific reason is given exactly when its rule fires and no rule
      of higher priority does. */
  lemma ReasonPriority(txn: TransactionIn, i: nat)
    requires i < |Priority|
    ensures Reason(txn) == Text(Priority[i]) <==>
            Fires(Priority[i], txn) && forall k :: 0 <= k < i ==> !Fires(Priority[k], txn)
  {
    ReasonIsFirstFiring(txn);
    var hit := FirstFiring(Priority, txn);
    if hit.Some? && hit.value != i {
      assert Text(Priority[hit.value]) != Text(Priority[i]);
    }
  }

  /** The generic reason is given exactly when no specific rule fires. */
  lemma ReasonGeneric(txn: TransactionIn)
    ensures Reason(txn) == GenericMessage <==>
            forall k :: 0 <= k < |Priority| ==> !Fires(Priority[k], txn)
  {
    ReasonIsFirstFiring(txn);
  }

  /** The response to a request whose features the model labelled `prediction`. */
  function Respond(txn: TransactionIn, prediction: int): (out: TransactionOut)
    ensures out.transactionId == txn.transactionId
    ensures out.isFraud <==> prediction == -1
    ensures out.message == ApprovedMessage <==> !out.isFraud
    ensures out.isFraud ==> out.message == Reason(txn)
    ensures out.message in Messages
  {
    var isFraud := IsFraud(prediction);
    TransactionOut(txn.transactionId, isFraud, if isFraud then Reason(txn) else ApprovedMessage)
  }

  // ---------------------------------------------------------------------
  // Transaction store
  // ---------------------------------------------------------------------

  /** The row the endpoint logs: the request's fields and the model's prediction. */
  function EntryOf(txn: TransactionIn, prediction: int): (e: LogEntry)
    ensures InputOf(e) == txn && e.prediction == prediction
  {
    LogEntry(txn.transactionId, txn.amount, txn.distanceKm, txn.hour, txn.frequency, prediction)
  }

  /** The request fields a logged row was made from. */
  function InputOf(e: LogEntry): TransactionIn
  {
    TransactionIn(e.transactionId, e.amount, e.distanceKm, e.hour, e.frequency)
  }

  /** Identities count up from 1 in append order, and the timestamp of a
      row is the number of rows appended before it. */
  predicate WellStamped(rows: seq<StoredRow>)
  {
    forall i :: 0 <= i < |rows| ==> rows[i].id == i + 1 && rows[i].timestamp == i
  }

  /** Every logged prediction is the model's label for the features of that row's own fields. */
  ghost predicate Scored(rows: seq<StoredRow>, model: Scorer)
  {
    forall i :: 0 <= i < |rows| ==> rows[i].entry.prediction == model(Features(InputOf(rows[i].entry)))
  }

  /** The `transactions` table: append-only, in commit order. */
  class TransactionStore {
    var rows: seq<StoredRow>

    ghost predicate Valid()
      reads this
    {
      WellStamped(rows)
    }

    constructor ()
      ensures Valid() && rows == []
    {
      rows := [];
    }

    /** `db.add` and `db.commit`: stores one row with a fresh identity and the current time. */
    method Append(entry: LogEntry) returns (row: StoredRow)
      requires Valid()
      modifies this
      ensures Valid()
      ensures rows == old(rows) + [row]
      ensures row.entry == entry && row.id == |old(rows)| + 1 && row.timestamp == |old(rows)|
    {
      row := StoredRow(|rows| + 1, |rows|, entry);
      rows := rows + [row];
    }
  }

  // ---------------------------------------------------------------------
  // The endpoint
  // ---------------------------------------------------------------------

  /** `predict_transaction`: score, log exactly one row, answer. */
  method PredictTransaction(store: TransactionStore, model: Scorer, txn: TransactionIn)
    returns (out: TransactionOut)
    requires store.Valid()
    modifies store
    ensures store.Valid()
    ensures out == Respond(txn, model(Features(txn)))
    ensures |store.rows| == |old(store.rows)| + 1
    ensures store.rows[..|old(store.rows)|] == old(store.rows)
    ensures store.rows[|old(store.rows)|].entry == EntryOf(txn, model(Features(txn)))
    ensures Scored(old(store.rows), model) ==> Scored(store.rows, model)
  {
    var features := Features(txn);
    var prediction := model(features);
    var isFraud := prediction == -1;

    var _ := store.Append(EntryOf(txn, prediction));

    var msg := ApprovedMessage;
    if isFraud {
      msg := Reason(txn);
    }
    out := TransactionOut(txn.transactionId, isFraud, msg);
  }

  /** Two submissions with the same transaction id are both logged: the
      endpoint does not enforce uniqueness. */
  method SubmitTwice(store: TransactionStore, model: Scorer, txn: TransactionIn)
    returns (first: TransactionOut, second: TransactionOut)
    requires store.Valid()
    modifies store
    ensures first == second
    ensures |store.rows| == |old(store.rows)| + 2
    ensures store.rows[|old(store.rows)|].entry == store.rows[|old(store.rows)| + 1].entry
    ensures store.rows[|old(store.rows)|].id != store.rows[|old(store.rows)| + 1].id
  {
    first := PredictTransaction(store, model, txn);
    second := PredictTransaction(store, model, txn);
  }

  /** Requests scored by a model that flags everything except the first
      one, showing which reason each gets. */
  method Scenarios()
  {
    var store := new TransactionStore();
    var model: Scorer := v => if |v| == 4 && v[0] == 100.0 then 1 else -1;
    var out := PredictTransaction(store, model, TransactionIn("t1", 100.0, 5.0, 14, 2));
    assert !out.isFraud && out.message == "Approved";
    assert store.rows[0].entry.prediction == 1;
    out := PredictTransaction(store, model, TransactionIn("t2", 10000.0, 5.0, 14, 2));
    assert out.message == "Blocked: Large Amount";
    out := PredictTransaction(store, model, TransactionIn("t3", 50.0, 5.0, 2, 2));
    assert out.message == "Blocked: Suspicious Time (Late Night)";
    out := PredictTransaction(store, model, TransactionIn("t4", 50.0, 5.0, 14, 20));
    assert out.message == "Blocked: High Frequency Burst";
    assert |store.rows| == 4;
  }
}
