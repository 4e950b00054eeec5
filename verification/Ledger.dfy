/** The documents of the four ledger stores, the message the two services exchange,
    and the writes the worker makes: its two Mongo transactions and the failure record. */
module Ledger {
  import opened Numbers
  import opened Deduction

  type Msisdn = nat
  type LoanId = nat
  type MsgId = nat   // the trace id, one fresh uuid per promo event
  type Time = int

  datatype Meta = Meta(guid: string, ageing: int, channel: string, token: string)

  /** PublishtoWorkerMsgFormat, as the worker decodes it. */
  datatype Msg = Msg(
    id: MsgId, msisdn: Msisdn, loanId: LoanId, kind: Kind,
    total: real, unpaid: real, amount: real, data: real,
    fee: real, unpaidFee: real, version: int, wallet: int, meta: Meta)

  datatype Loan = Loan(id: LoanId, total: real, fee: real, rate: real, unpaid: real, guid: string)

  /** One UnpaidLoans version; `open` stands for validTo == nil, `last` for lastCollectionId. */
  datatype UnpaidDoc = UnpaidDoc(version: int, loanTotal: real, unpaid: real, fee: real, open: bool, last: Option<nat>)

  datatype Collection = Collection(
    txn: MsgId, msisdn: Msisdn, loanId: LoanId, kind: Kind, result: bool, errorText: string,
    collected: real, totalCollected: real, totalUnpaid: real,
    fee: real, unpaidFee: real, collectedFee: real, unpaidLoan: real,
    data: real, ageing: int, channel: string, token: string, createdAt: Time)

  datatype ClosedDoc = ClosedDoc(guid: string, totalCollected: real, total: real)

  /** Loans keyed by MSISDN, UnpaidLoans and ClosedLoans grouped by loan in insertion order,
      Collections in insertion order with its index as _id. */
  datatype Db = Db(
    loans: map<Msisdn, Loan>,
    unpaid: map<LoanId, seq<UnpaidDoc>>,
    collections: seq<Collection>,
    closed: map<LoanId, seq<ClosedDoc>>)

  // ----- builders (serializers.go, partial_data_deduction.go, full_data_deduction.go) -----

  function CalculateUnpaidServiceFee(amount: real, unpaidFee: real): (r: real)
    ensures r == Max(0.0, unpaidFee - amount)
  {
    if amount >= unpaidFee then 0.0 else unpaidFee - amount
  }

  function SerializeCollections(msg: Msg, success: bool, errorText: string, now: Time): Collection {
    var c := Collection(
      msg.id, msg.msisdn, msg.loanId, msg.kind, success, errorText,
      0.0, 0.0, 0.0, msg.fee, 0.0, 0.0, 0.0, 0.0,
      msg.meta.ageing, msg.meta.channel, msg.meta.token, now);
    if success then
      var s := c.(collected := msg.amount, errorText := "", data := msg.data);
      match msg.kind
      case Partial =>
        var left := CalculateUnpaidServiceFee(msg.amount, msg.unpaidFee);
        s.(totalCollected := msg.amount + msg.total,
           totalUnpaid := msg.unpaid - msg.amount,
           unpaidFee := left,
           collectedFee := msg.fee - left,
           unpaidLoan := (msg.unpaid - msg.amount) - (msg.fee - (msg.fee - left)))
      case Full =>
        s.(totalCollected := msg.total, totalUnpaid := 0.0, unpaidFee := 0.0,
           collectedFee := msg.fee, unpaidLoan := 0.0)
    else
      c.(totalCollected := msg.total - msg.unpaid,
         totalUnpaid := msg.unpaid,
         unpaidFee := msg.unpaidFee,
         unpaidLoan := msg.unpaid - msg.unpaidFee)
  }

  function PartialRecord(msg: Msg, newUnpaid: real, now: Time): Collection {
    var left := if msg.amount >= msg.unpaidFee then 0.0 else msg.unpaidFee - msg.amount;
    SerializeCollections(msg, true, "", now).(
      collected := msg.amount,
      kind := Partial,
      totalCollected := (msg.total - msg.unpaid) + msg.amount,
      totalUnpaid := newUnpaid,
      unpaidFee := left,
      collectedFee := msg.fee - left,
      unpaidLoan := newUnpaid - (msg.fee - (msg.fee - left)),
      data := msg.data)
  }

  function FullRecord(msg: Msg, now: Time): Collection {
    SerializeCollections(msg, true, "", now).(
      collected := msg.amount,
      kind := Full,
      totalCollected := (msg.total - msg.unpaid) + msg.amount,
      totalUnpaid := 0.0,
      unpaidFee := 0.0)
  }

  function FailureRecord(msg: Msg, errorText: string, now: Time): Collection {
    SerializeCollections(msg, false, errorText, now)
  }

  /** The partial entry has no totalLoanAmount field. */
  function PartialUnpaidDoc(msg: Msg, rec: Collection, recId: nat): UnpaidDoc {
    UnpaidDoc(msg.version + 1, 0.0, msg.unpaid - msg.amount, msg.unpaidFee - rec.collectedFee, true, Some(recId))
  }

  function FullUnpaidDoc(msg: Msg, rec: Collection, recId: nat): UnpaidDoc {
    UnpaidDoc(msg.version + 1, msg.total, 0.0, msg.unpaidFee - rec.collectedFee, false, Some(recId))
  }

  function ClosedEntry(msg: Msg): ClosedDoc {
    ClosedDoc(msg.meta.guid, msg.total, msg.total)
  }

  // ----- single-document writes of the repositories -----

  function UpdateLoanDocument(db: Db, id: LoanId, unpaid: real): Db {
    db.(loans := map m | m in db.loans :: if db.loans[m].id == id then db.loans[m].(unpaid := unpaid) else db.loans[m])
  }

  function DeleteActiveLoan(db: Db, id: LoanId): Db {
    db.(loans := map m | m in db.loans && db.loans[m].id != id :: db.loans[m])
  }

  predicate HasVersions(db: Db, id: LoanId) {
    id in db.unpaid && db.unpaid[id] != []
  }

  /** The services read the amounts of a version into int32 fields, which a fraction does not fit. */
  predicate WholeDoc(doc: UnpaidDoc) {
    Whole(doc.unpaid) && Whole(doc.fee) && Whole(doc.loanTotal)
  }

  /** UpdatePreviousValidToField finds and decodes the newest version. */
  predicate CanSupersede(db: Db, id: LoanId) {
    HasVersions(db, id) && WholeDoc(Last(db.unpaid[id]))
  }

  /** The worker's loan document has int32 fields for the total and the fee. */
  predicate Readable(loan: Loan) {
    Whole(loan.total) && Whole(loan.fee)
  }

  function Last<T>(s: seq<T>): T
    requires s != []
  {
    s[|s| - 1]
  }

  function UpdatePreviousValidTo(db: Db, id: LoanId): Db
    requires HasVersions(db, id)
  {
    var docs := db.unpaid[id];
    db.(unpaid := db.unpaid[id := docs[|docs| - 1 := Last(docs).(open := false)]])
  }

  function CreateUnpaidLoanEntry(db: Db, id: LoanId, doc: UnpaidDoc): Db {
    db.(unpaid := db.unpaid[id := (if id in db.unpaid then db.unpaid[id] else []) + [doc]])
  }

  function CreateCollection(db: Db, c: Collection): Db {
    db.(collections := db.collections + [c])
  }

  function CreateClosedLoansEntry(db: Db, id: LoanId, doc: ClosedDoc): Db {
    db.(closed := db.closed[id := (if id in db.closed then db.closed[id] else []) + [doc]])
  }

  // ----- the two transactions, all or nothing -----

  /** performPartialDataTransaction after fetchLoanAndCompute; None when a read finds no document
      or one it cannot decode. */
  function PostPartial(db: Db, msg: Msg, now: Time): Option<Db> {
    if msg.msisdn !in db.loans || !Readable(db.loans[msg.msisdn]) || !CanSupersede(db, db.loans[msg.msisdn].id)
    then None
    else
      var loan := db.loans[msg.msisdn];
      var newUnpaid := msg.unpaid - msg.amount;
      var rec := PartialRecord(msg, newUnpaid, now);
      var db1 := UpdateLoanDocument(db, loan.id, newUnpaid);
      var db2 := UpdatePreviousValidTo(db1, loan.id);
      var db3 := CreateCollection(db2, rec);
      Some(CreateUnpaidLoanEntry(db3, msg.loanId, PartialUnpaidDoc(msg, rec, |db.collections|)))
  }

  /** performFullDataTransaction. */
  function PostFull(db: Db, msg: Msg, now: Time): Option<Db> {
    if !CanSupersede(db, msg.loanId) then None
    else
      var rec := FullRecord(msg, now);
      var db1 := CreateClosedLoansEntry(db, msg.loanId, ClosedEntry(msg));
      var db2 := CreateCollection(db1, rec);
      var db3 := UpdatePreviousValidTo(db2, msg.loanId);
      var db4 := CreateUnpaidLoanEntry(db3, msg.loanId, FullUnpaidDoc(msg, rec, |db.collections|));
      Some(DeleteActiveLoan(db4, msg.loanId))
  }

  function Post(db: Db, msg: Msg, now: Time): Option<Db> {
    match msg.kind
    case Partial => PostPartial(db, msg, now)
    case Full => PostFull(db, msg, now)
  }

  /** The loan-availment service opens a loan (SerializeLoans, SerializeUnpaidLoans), or the
      migration leaves one behind: an older loan may owe less than its total and may lack the
      totalUnpaidLoan field, which then reads as 0. */
  function Open(db: Db, m: Msisdn, loan: Loan, first: UnpaidDoc): Db {
    db.(loans := db.loans[m := loan], unpaid := db.unpaid[loan.id := [first]])
  }
}
