/** The 19 columns of the row sent live with a collection, and of the row the retry job
    rebuilds from the stored record. */
module Rows {
  import opened Numbers
  import opened Deduction
  import opened Ledger
  import opened LedgerInvariant
  import opened LedgerContents
  import opened Protocol
  import opened ProtocolInvariant
  import W = WorkerSteps

  /** A column value; a time is the minute shown, counted from the epoch. */
  datatype Cell = Text(text: string) | Num(n: int) | Trace(id: MsgId) | Subscriber(m: Msisdn) | Shown(minute: int)

  const MINUTE: Time := 60000

  /** "01/02/2006 15:04" in a zone `zone` milliseconds ahead of UTC. */
  function Minute(t: Time, zone: Time): int {
    (t + zone) / MINUTE
  }

  lemma MinutesAgree(t: Time, zone: Time)
    requires zone % MINUTE == 0
    ensures Minute(t, zone) == Minute(t, 0) <==> zone == 0
  {
    var minutes := zone / MINUTE;
    assert zone == minutes * MINUTE;
    assert Minute(t, zone) == Minute(t, 0) + minutes;
  }

  /** KafkaMessageForPublishing. */
  datatype KafkaMessage = KafkaMessage(
    txn: MsgId, guid: string, at: Time, via: string, ageing: int,
    collectedLoan: real, collectedFee: real, unpaidLoan: real, unpaidFee: real,
    result: string, errorText: string, msisdn: Msisdn, category: string, channel: string, kind: string,
    collected: real, totalUnpaid: real, token: string, data: real)

  const METHOD := "Auto"
  const DATA := "Data"

  function TypeCode(kind: Kind): string {
    match kind case Full => "F" case Partial => "P"
  }

  /** SerializeKafkaMessage: category and type are filled the other way round than in the record. */
  function SerializeKafkaMessage(msg: Msg, success: bool, errorText: string, at: Time): KafkaMessage {
    var k := KafkaMessage(msg.id, msg.meta.guid, at, METHOD, msg.meta.ageing, 0.0, 0.0, 0.0, 0.0, "", "",
                          msg.msisdn, TypeCode(msg.kind), msg.meta.channel, DATA, 0.0, 0.0, msg.meta.token, 0.0);
    if success then
      var collectedLoan := (msg.total - msg.unpaid) + msg.amount;
      var left := if msg.amount >= msg.unpaidFee then 0.0 else msg.unpaidFee - msg.amount;
      k.(collected := msg.amount,
         result := "Success",
         collectedLoan := collectedLoan,
         collectedFee := msg.fee - left,
         totalUnpaid := msg.total - collectedLoan,
         unpaidLoan := msg.total - collectedLoan,
         unpaidFee := left,
         data := msg.data)
    else
      k.(result := "Fail",
         errorText := errorText,
         collectedLoan := msg.total - msg.unpaid,
         collectedFee := msg.fee - msg.unpaidFee,
         totalUnpaid := msg.unpaid,
         unpaidLoan := msg.unpaid,
         unpaidFee := msg.unpaidFee)
  }

  /** formatPayloadAsCsvBytes, before the CSV encoding; the time is the process's local one. */
  function LiveRow(k: KafkaMessage, zone: Time): seq<Cell> {
    [Trace(k.txn), Text(k.guid), Shown(Minute(k.at, zone)), Text(k.via), Num(k.ageing),
     Num(Round(k.collectedLoan)), Num(Round(k.collectedFee)), Num(Round(k.unpaidLoan)), Num(Round(k.unpaidFee)),
     Text(k.result), Text(k.errorText), Subscriber(k.msisdn), Text(k.category), Text(k.channel), Text(k.kind),
     Num(Round(k.collected)), Num(Round(k.totalUnpaid)), Text(k.token), Num(Round(k.data))]
  }

  /** kafkaPayload for a record of category "Data", the only one this service writes; a stored time
      is read back as UTC. */
  function RetryRow(c: Collection, guid: string): seq<Cell> {
    [Trace(c.txn), Text(guid), Shown(Minute(c.createdAt, 0)), Text(METHOD), Num(c.ageing),
     Num(Round(c.totalCollected)), Num(Round(c.collectedFee)), Num(Round(c.totalUnpaid)), Num(Round(c.unpaidFee)),
     Text(if c.result then "true" else "false"), Text(c.errorText), Subscriber(c.msisdn), Text(TypeCode(c.kind)),
     Text(c.channel), Text(DATA),
     Num(Round(c.collected)), Num(Round(c.unpaidLoan)), Text(c.token), Num(Round(c.data))]
  }

  predicate Active(db: Db, m: Msisdn, l: LoanId) {
    m in db.loans && db.loans[m].id == l
  }

  /** The lookups of the retry aggregation: the active loan's GUID, else the closed loan's. */
  ghost function LoanGuid(db: Db, l: LoanId): string {
    if exists m :: Active(db, m, l) then
      var m :| Active(db, m, l);
      db.loans[m].guid
    else if l in db.closed && db.closed[l] != [] then db.closed[l][0].guid
    else ""
  }

  /** Service fee the message leaves unpaid. */
  function FeeLeft(msg: Msg): real {
    Max(0.0, msg.unpaidFee - msg.amount)
  }

  function SuccessRecord(msg: Msg, now: Time): Collection {
    match msg.kind
    case Partial => PartialRecord(msg, msg.unpaid - msg.amount, now)
    case Full => FullRecord(msg, now)
  }

  /** When column k of the two rows of a success agrees: column 9 never; 2 only where both show
      the same minute; for a full collection 6
      and 8 of the retried row show the fee as settled whether or not it is; for a partial one 16
      of the live row includes the fee left. */
  predicate ColumnAgrees(msg: Msg, now: Time, zone: Time, k: nat) {
    var left := FeeLeft(msg);
    match k
    case 2 => Minute(now, zone) == Minute(now, 0)
    case 6 => msg.kind == Full ==> Round(msg.fee - left) == Round(msg.fee)
    case 8 => msg.kind == Full ==> Round(left) == 0
    case 9 => false
    case 16 => msg.kind == Partial ==> Round(msg.unpaid - msg.amount) == Round(msg.unpaid - msg.amount - left)
    case _ => true
  }

  lemma PartialColumns(msg: Msg, now: Time, zone: Time, k: nat)
    requires k < 19 && msg.kind == Partial
    ensures var live := LiveRow(SerializeKafkaMessage(msg, true, "", now), zone);
            var retry := RetryRow(SuccessRecord(msg, now), msg.meta.guid);
            |live| == |retry| == 19 && (live[k] == retry[k] <==> ColumnAgrees(msg, now, zone, k))
  {
    hide Round, Minute;
  }

  lemma FullColumns(msg: Msg, now: Time, zone: Time, k: nat)
    requires k < 19 && msg.kind == Full && msg.amount == msg.unpaid
    ensures var live := LiveRow(SerializeKafkaMessage(msg, true, "", now), zone);
            var retry := RetryRow(SuccessRecord(msg, now), msg.meta.guid);
            |live| == |retry| == 19 && (live[k] == retry[k] <==> ColumnAgrees(msg, now, zone, k))
  {
    hide Round, Minute;
  }

  lemma SuccessColumns(msg: Msg, now: Time, zone: Time, k: nat)
    requires k < 19 && (msg.kind == Full ==> msg.amount == msg.unpaid)
    ensures var live := LiveRow(SerializeKafkaMessage(msg, true, "", now), zone);
            var retry := RetryRow(SuccessRecord(msg, now), msg.meta.guid);
            |live| == |retry| == 19 && (live[k] == retry[k] <==> ColumnAgrees(msg, now, zone, k))
  {
    hide LiveRow, RetryRow, SerializeKafkaMessage, SuccessRecord, ColumnAgrees;
    match msg.kind
    case Partial => PartialColumns(msg, now, zone, k);
    case Full => FullColumns(msg, now, zone, k);
  }

  lemma RoundWholes(x: real, y: real)
    requires Whole(x) && Whole(y)
    ensures Round(x) == Round(y) <==> x == y
  {
    RoundWhole(x);
    RoundWhole(y);
  }

  /** A loan opened with a fee within its debt keeps it so: a full collection settles the fee. */
  lemma FullSettlesFee(db: Db, msg: Msg, readOk: bool, q: nat)
    requires LedgerInv(db, q) && Fits(db, msg, readOk, q)
    requires db.unpaid[msg.loanId][0].fee <= db.unpaid[msg.loanId][0].unpaid
    ensures msg.kind == Full ==> FeeLeft(msg) == 0.0
  {
  }

  /** Whole starting amounts make everything a collection computes with whole. */
  lemma AmountsAreWhole(db: Db, msg: Msg, readOk: bool, q: nat)
    requires LedgerInv(db, q) && Fits(db, msg, readOk, q)
    requires Whole(msg.fee) && WholeDoc(db.unpaid[msg.loanId][0])
    ensures var left := FeeLeft(msg); var debt := msg.unpaid - msg.amount;
            Whole(left) && Whole(msg.fee - left) && Whole(debt) && Whole(debt - left)
  {
    hide RecordInv, ClosedInv, HistoryInv;
    assert ActiveInv(db, msg.msisdn);
    assert Whole(0.0);
    WholeSum(msg.unpaid, msg.amount);
    WholeSum(msg.unpaidFee, msg.amount);
    WholeSum(msg.fee, FeeLeft(msg));
    WholeSum(msg.unpaid - msg.amount, FeeLeft(msg));
  }

  lemma WholeColumns(msg: Msg, now: Time, zone: Time, k: nat)
    requires zone % MINUTE == 0
    requires var left := FeeLeft(msg); var debt := msg.unpaid - msg.amount;
             Whole(msg.fee) && Whole(left) && Whole(msg.fee - left) && Whole(debt) && Whole(debt - left)
    ensures ColumnAgrees(msg, now, zone, k) <==>
              k != 9 && (k == 2 ==> zone == 0) && (FeeLeft(msg) == 0.0 || k !in FeeColumns(msg.kind))
  {
    hide Round, Minute;
    MinutesAgree(now, zone);
    var left := FeeLeft(msg);
    RoundWholes(msg.fee - left, msg.fee);
    RoundWholes(left, 0.0);
    RoundWhole(0.0);
    RoundWholes(msg.unpaid - msg.amount, msg.unpaid - msg.amount - left);
  }

  /** The columns in which a fee left over shows. */
  function FeeColumns(kind: Kind): set<nat> {
    match kind case Full => {6, 8} case Partial => {16}
  }

  /** Whatever the run was: when a message is posted, the record it leaves, rebuilt by the retry
      job, agrees with the row sent live in exactly the columns ColumnAgrees tells.  With whole
      starting amounts and a zone of whole minutes these are all but 9, 2 unless the process runs
      on UTC, and 16 (partial) or 6 and 8 (full) when some fee is
      left; and a full collection leaves none if the fee was within the debt at opening. */
  lemma LiveAndRetryRowsAgree(w: World, q: nat, id: MsgId, now: Time, zone: Time, k: nat)
    requires Reachable(w, q) && id in w.flights && w.flights[id].phase.Posting? && k < 19
    requires W.Enabled(w.db, w.flights[id].msg, W.Posting, W.PostDone, now)
    ensures var msg := w.flights[id].msg;
            var db := Next(w, Work(id, W.PostDone, now), q).db;
            var live := LiveRow(SerializeKafkaMessage(msg, true, "", now), zone);
            && HasVersions(w.db, msg.loanId) && |db.collections| == |w.db.collections| + 1
            && var retry := RetryRow(Last(db.collections), LoanGuid(db, msg.loanId));
            && |live| == |retry| == 19
            && (live[k] == retry[k] <==> ColumnAgrees(msg, now, zone, k))
            && var first := w.db.unpaid[msg.loanId][0];
            && (Whole(msg.fee) && WholeDoc(first) && zone % MINUTE == 0 ==>
                  (ColumnAgrees(msg, now, zone, k) <==>
                     k != 9 && (k == 2 ==> zone == 0) && (FeeLeft(msg) == 0.0 || k !in FeeColumns(msg.kind))))
            && (msg.kind == Full && first.fee <= first.unpaid ==> FeeLeft(msg) == 0.0)
  {
    hide LedgerInv, RetryRow, LiveRow, SerializeKafkaMessage, Post, LoanGuid, ColumnAgrees, FeeColumns, FeeLeft;
    var msg := w.flights[id].msg;
    var db := Next(w, Work(id, W.PostDone, now), q).db;
    var readOk := w.flights[id].readOk;
    PostingFits(w, q, id);
    assert db == Post(w.db, msg, now).value;
    PostedRecord(w.db, msg, readOk, q, now);
    assert Last(db.collections) == SuccessRecord(msg, now);
    SuccessColumns(msg, now, zone, k);
    var first := w.db.unpaid[msg.loanId][0];
    if first.fee <= first.unpaid { FullSettlesFee(w.db, msg, readOk, q); }
    if Whole(msg.fee) && WholeDoc(first) && zone % MINUTE == 0 {
      AmountsAreWhole(w.db, msg, readOk, q);
      WholeColumns(msg, now, zone, k);
    }
  }

  lemma PostingFits(w: World, q: nat, id: MsgId)
    requires Reachable(w, q) && id in w.flights && w.flights[id].phase.Posting?
    ensures LedgerInv(w.db, q) && Fits(w.db, w.flights[id].msg, w.flights[id].readOk, q)
  {
    ReachableInv(w, q);
    assert FlightInv(w, id, q);
  }

  /** The record a transaction leaves and the GUID the retry job will find for it. */
  lemma PostedRecord(db: Db, msg: Msg, readOk: bool, q: nat, now: Time)
    requires LedgerInv(db, q) && Fits(db, msg, readOk, q) && Post(db, msg, now).Some?
    ensures var db' := Post(db, msg, now).value;
            && db'.collections == db.collections + [SuccessRecord(msg, now)]
            && LoanGuid(db', msg.loanId) == msg.meta.guid
  {
    hide LedgerInv;
    var db' := Post(db, msg, now).value;
    OneActive(db, msg.msisdn, q);
    match msg.kind
    case Partial =>
      PartialShape(db, msg, now, readOk, q);
      assert Active(db', msg.msisdn, msg.loanId);
      forall m | Active(db', m, msg.loanId)
        ensures m == msg.msisdn
      {
        assert Active(db, m, msg.loanId);
      }
    case Full =>
      FullShape(db, msg, now, readOk, q);
      forall m
        ensures !Active(db', m, msg.loanId)
      {
        assert m in db'.loans && Active(db', m, msg.loanId) ==> Active(db, m, msg.loanId);
      }
  }

  lemma OneActive(db: Db, m: Msisdn, q: nat)
    requires LedgerInv(db, q) && m in db.loans
    ensures forall n :: Active(db, n, db.loans[m].id) ==> n == m
  {
    hide HistoryInv, RecordInv, ClosedInv, ActiveInv;
  }

  /** Failure rows: the retry row shows no collected fee and nets the fee off the debt, so three
      columns differ unless the amounts happen to make them equal. */
  lemma FailureColumns(msg: Msg, errorText: string, now: Time, zone: Time, k: nat)
    requires k < 19
    ensures var live := LiveRow(SerializeKafkaMessage(msg, false, errorText, now), zone);
            var retry := RetryRow(FailureRecord(msg, errorText, now), msg.meta.guid);
            && |live| == |retry| == 19
            && (live[k] == retry[k] <==>
                 match k
                 case 2 => Minute(now, zone) == Minute(now, 0)
                 case 6 => Round(msg.fee - msg.unpaidFee) == 0
                 case 9 => false
                 case 16 => Round(msg.unpaid) == Round(msg.unpaid - msg.unpaidFee)
                 case _ => true)
  {
  }

  // ----- what the rows show -----

  /** The columns that do not depend on the outcome. */
  predicate Heads(row: seq<Cell>, msg: Msg, zone: Time, now: Time) {
    && |row| == 19
    && row[0] == Trace(msg.id) && row[1] == Text(msg.meta.guid)
    && row[2].Shown? && 60000 * row[2].minute <= now + zone < 60000 * (row[2].minute + 1)
    && row[3] == Text("Auto") && row[4] == Num(msg.meta.ageing) && row[11] == Subscriber(msg.msisdn)
    && row[12] == Text(if msg.kind == Full then "F" else "P")
    && row[13] == Text(msg.meta.channel) && row[14] == Text("Data") && row[17] == Text(msg.meta.token)
  }

  /** Columns 5 to 8, 15, 16 and 18: everything collected so far, the fee part of it, debt and fee
      left, the pesos of this collection, the balance column and the data taken. */
  predicate Amounts(row: seq<Cell>, soFar: real, feeTaken: real, debt: real, feeLeft: real,
                    pesos: real, balance: real, data: real)
    requires |row| == 19
  {
    && row[5] == Num(Round(soFar)) && row[6] == Num(Round(feeTaken))
    && row[7] == Num(Round(debt)) && row[8] == Num(Round(feeLeft))
    && row[15] == Num(Round(pesos)) && row[16] == Num(Round(balance)) && row[18] == Num(Round(data))
  }

  /** Debt left after the message, and everything collected for the loan by then. */
  function Owed(msg: Msg): real { msg.unpaid - msg.amount }
  function SoFar(msg: Msg): real { msg.total - Owed(msg) }

  lemma MinuteSpan(t: Time, zone: Time)
    ensures 60000 * Minute(t, zone) <= t + zone < 60000 * (Minute(t, zone) + 1)
  {
  }

  /** The live columns, from the fields of the message to Kafka. */
  lemma LiveHeads(k: KafkaMessage, zone: Time)
    ensures var row := LiveRow(k, zone);
            && |row| == 19 && row[0] == Trace(k.txn) && row[1] == Text(k.guid)
            && row[2].Shown? && 60000 * row[2].minute <= k.at + zone < 60000 * (row[2].minute + 1)
            && row[3] == Text(k.via) && row[4] == Num(k.ageing)
            && row[9] == Text(k.result) && row[10] == Text(k.errorText)
            && row[11] == Subscriber(k.msisdn) && row[12] == Text(k.category) && row[13] == Text(k.channel)
            && row[14] == Text(k.kind) && row[17] == Text(k.token)
  {
    hide Round, Minute;
    MinuteSpan(k.at, zone);
  }

  lemma LiveAmounts(k: KafkaMessage, zone: Time)
    ensures var row := LiveRow(k, zone);
            && |row| == 19
            && Amounts(row, k.collectedLoan, k.collectedFee, k.unpaidLoan, k.unpaidFee,
                       k.collected, k.totalUnpaid, k.data)
  {
    hide Round, Minute;
  }

  /** The fields of the message to Kafka: column 12 is the kind, column 14 the category. */
  lemma KafkaFields(msg: Msg, success: bool, text: string, now: Time)
    ensures var k := SerializeKafkaMessage(msg, success, text, now);
            && k.txn == msg.id && k.guid == msg.meta.guid && k.at == now && k.via == "Auto"
            && k.ageing == msg.meta.ageing
            && k.msisdn == msg.msisdn && k.channel == msg.meta.channel && k.token == msg.meta.token
            && k.category == (if msg.kind == Full then "F" else "P") && k.kind == "Data"
            && k.result == (if success then "Success" else "Fail") && k.errorText == (if success then "" else text)
            && k.collectedLoan == (if success then SoFar(msg) else msg.total - msg.unpaid)
            && k.collectedFee == msg.fee - (if success then FeeLeft(msg) else msg.unpaidFee)
            && k.unpaidLoan == (if success then Owed(msg) else msg.unpaid)
            && k.unpaidFee == (if success then FeeLeft(msg) else msg.unpaidFee)
            && k.collected == (if success then msg.amount else 0.0)
            && k.totalUnpaid == k.unpaidLoan && k.data == (if success then msg.data else 0.0)
  {
  }

  /** The live row says "Success" exactly for a success, with the debt left in column 16; a failure
      shows the debt and fee the message found and takes nothing. */
  lemma LiveRowContents(msg: Msg, success: bool, text: string, now: Time, zone: Time)
    ensures var row := LiveRow(SerializeKafkaMessage(msg, success, text, now), zone);
            && Heads(row, msg, zone, now)
            && row[9] == Text(if success then "Success" else "Fail")
            && row[10] == Text(if success then "" else text)
            && (success ==> Amounts(row, SoFar(msg), msg.fee - FeeLeft(msg), Owed(msg), FeeLeft(msg),
                                    msg.amount, Owed(msg), msg.data))
            && (!success ==> Amounts(row, msg.total - msg.unpaid, msg.fee - msg.unpaidFee, msg.unpaid, msg.unpaidFee,
                                     0.0, msg.unpaid, 0.0))
  {
    hide LiveRow, SerializeKafkaMessage, Amounts;
    KafkaFields(msg, success, text, now);
    LiveHeads(SerializeKafkaMessage(msg, success, text, now), zone);
    LiveAmounts(SerializeKafkaMessage(msg, success, text, now), zone);
  }

  /** The retried columns, from the fields of the record. */
  lemma RetryHeads(c: Collection, guid: string)
    ensures var row := RetryRow(c, guid);
            && |row| == 19 && row[0] == Trace(c.txn) && row[1] == Text(guid)
            && row[2].Shown? && 60000 * row[2].minute <= c.createdAt < 60000 * (row[2].minute + 1)
            && row[3] == Text("Auto") && row[4] == Num(c.ageing)
            && row[9] == Text(if c.result then "true" else "false") && row[10] == Text(c.errorText)
            && row[11] == Subscriber(c.msisdn) && row[12] == Text(if c.kind == Full then "F" else "P")
            && row[13] == Text(c.channel) && row[14] == Text("Data") && row[17] == Text(c.token)
  {
    hide Round, Minute;
    MinuteSpan(c.createdAt, 0);
  }

  lemma RetryAmounts(c: Collection, guid: string)
    ensures var row := RetryRow(c, guid);
            && |row| == 19
            && Amounts(row, c.totalCollected, c.collectedFee, c.totalUnpaid, c.unpaidFee,
                       c.collected, c.unpaidLoan, c.data)
  {
    hide Round, Minute;
  }

  /** The row rebuilt from a success record says "true", shows the fee of a full collection as
      settled, and in column 16 the debt left without its fee. */
  lemma RetriedSuccessContents(msg: Msg, now: Time)
    requires msg.kind == Full ==> msg.amount == msg.unpaid
    ensures var row := RetryRow(SuccessRecord(msg, now), msg.meta.guid);
            var left := if msg.kind == Full then 0.0 else FeeLeft(msg);
            && Heads(row, msg, 0, now) && row[9] == Text("true") && row[10] == Text("")
            && Amounts(row, SoFar(msg), msg.fee - left, Owed(msg), left, msg.amount, Owed(msg) - left, msg.data)
  {
    hide RetryRow, PartialRecord, FullRecord, Amounts;
    SuccessContents(msg, now);
    RetryHeads(SuccessRecord(msg, now), msg.meta.guid);
    RetryAmounts(SuccessRecord(msg, now), msg.meta.guid);
  }

  /** The row rebuilt from a failure record says "false", shows no fee as taken, and in column 16
      the debt without its fee. */
  lemma RetriedFailureContents(msg: Msg, text: string, now: Time)
    ensures var row := RetryRow(FailureRecord(msg, text, now), msg.meta.guid);
            && Heads(row, msg, 0, now) && row[9] == Text("false") && row[10] == Text(text)
            && Amounts(row, msg.total - msg.unpaid, 0.0, msg.unpaid, msg.unpaidFee,
                       0.0, msg.unpaid - msg.unpaidFee, 0.0)
  {
    hide RetryRow, FailureRecord, Amounts;
    FailureShown(msg, text, now);
    RetryHeads(FailureRecord(msg, text, now), msg.meta.guid);
    RetryAmounts(FailureRecord(msg, text, now), msg.meta.guid);
  }

  lemma FailureShown(msg: Msg, text: string, now: Time)
    ensures var c := FailureRecord(msg, text, now); Identifies(c, msg, now) && ShowsFailure(c, msg, text)
  {
    FailureContents(Db(map[], map[], [], map[]), msg, text, now);
  }
}
