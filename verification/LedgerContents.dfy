/** What the worker writes, field by field, told by the message and the stores it found. */
module LedgerContents {
  import opened Numbers
  import opened Deduction
  import opened Ledger
  import opened LedgerInvariant
  import opened LedgerWrites

  /** What every record of a message shows. */
  predicate Identifies(c: Collection, msg: Msg, now: Time) {
    && c.txn == msg.id && c.msisdn == msg.msisdn && c.loanId == msg.loanId && c.kind == msg.kind
    && c.fee == msg.fee && c.createdAt == now
    && c.ageing == msg.meta.ageing && c.channel == msg.meta.channel && c.token == msg.meta.token
  }

  /** A success record: what was taken, everything collected and owed since, and the fee-first split
      of the debt; a full collection counts the fee as settled. */
  predicate ShowsSuccess(c: Collection, msg: Msg) {
    var owed := msg.unpaid - msg.amount;
    var feeLeft := if msg.kind == Full then 0.0 else Max(0.0, msg.unpaidFee - msg.amount);
    && c.result && c.errorText == "" && c.collected == msg.amount && c.data == msg.data
    && c.totalUnpaid == (if msg.kind == Full then 0.0 else owed) && c.totalCollected == msg.total - owed
    && c.unpaidFee == feeLeft && c.collectedFee == msg.fee - feeLeft
    && c.unpaidLoan == c.totalUnpaid - feeLeft
  }

  /** A failure record: nothing taken, debt and fee as the message found them. */
  predicate ShowsFailure(c: Collection, msg: Msg, text: string) {
    && !c.result && c.errorText == text && c.collected == 0.0 && c.data == 0.0
    && c.totalUnpaid == msg.unpaid && c.totalCollected == msg.total - msg.unpaid
    && c.unpaidFee == msg.unpaidFee && c.collectedFee == 0.0 && c.unpaidLoan == msg.unpaid - msg.unpaidFee
  }

  lemma FailureContents(db: Db, msg: Msg, text: string, now: Time)
    ensures var db' := CreateCollection(db, FailureRecord(msg, text, now));
            && |db'.collections| == |db.collections| + 1 && db'.collections[..|db.collections|] == db.collections
            && db'.loans == db.loans && db'.unpaid == db.unpaid && db'.closed == db.closed
            && Identifies(Last(db'.collections), msg, now) && ShowsFailure(Last(db'.collections), msg, text)
  {
  }

  /** The serializer on its own: for a partial collection it adds the pesos to the loan's total
      instead of to what was collected before; the handler overwrites that. */
  lemma SerializerAlone(msg: Msg, now: Time)
    ensures var c := SerializeCollections(msg, true, "ignored", now);
            && Identifies(c, msg, now) && c.result && c.errorText == ""
            && c.collected == msg.amount && c.data == msg.data
            && (msg.kind == Full ==>
                  c.totalCollected == msg.total && c.totalUnpaid == c.unpaidFee == c.unpaidLoan == 0.0
                  && c.collectedFee == msg.fee)
            && (msg.kind == Partial ==>
                  && c.totalCollected - msg.amount == msg.total && c.totalUnpaid + msg.amount == msg.unpaid
                  && c.unpaidFee == Max(0.0, msg.unpaidFee - msg.amount)
                  && c.collectedFee + c.unpaidFee == msg.fee && c.unpaidLoan + c.unpaidFee == c.totalUnpaid)
  {
  }

  lemma SuccessContents(msg: Msg, now: Time)
    ensures msg.kind == Partial ==>
              var c := PartialRecord(msg, msg.unpaid - msg.amount, now); Identifies(c, msg, now) && ShowsSuccess(c, msg)
    ensures msg.kind == Full ==> var c := FullRecord(msg, now); Identifies(c, msg, now) && ShowsSuccess(c, msg)
  {
  }

  /** The closing transaction of a current message, in full: the loan gone, one closed document with
      its GUID and total, and a last version that is not open, owes nothing and stores the message's
      unpaid fee less the whole fee: 0 exactly if the message carried the whole fee. */
  lemma FullContents(db: Db, msg: Msg, now: Time, readOk: bool, q: nat)
    requires LedgerInv(db, q) && Fits(db, msg, readOk, q) && msg.kind == Full && Post(db, msg, now).Some?
    ensures var db' := Post(db, msg, now).value;
            && msg.loanId in db.unpaid && msg.loanId in db'.unpaid && db'.unpaid[msg.loanId] != []
            && var v := Last(db'.unpaid[msg.loanId]);
            && |db'.unpaid[msg.loanId]| == |db.unpaid[msg.loanId]| + 1
            && v.version == msg.version + 1 && v.loanTotal == msg.total && v.unpaid == 0.0 && !v.open
            && v.fee == msg.unpaidFee - msg.fee && v.last == Some(|db.collections|)
            && (v.fee == 0.0 <==> msg.unpaidFee == msg.fee)
            && |db'.collections| == |db.collections| + 1
            && Identifies(Last(db'.collections), msg, now) && ShowsSuccess(Last(db'.collections), msg)
            && db'.loans == db.loans - {msg.msisdn}
            && msg.loanId !in db.closed && msg.loanId in db'.closed
            && |db'.closed[msg.loanId]| == 1
            && var closed := db'.closed[msg.loanId][0];
            closed.guid == msg.meta.guid && closed.total == msg.total && closed.totalCollected == msg.total
  {
    hide LedgerInv, Identifies, ShowsSuccess;
    FullShape(db, msg, now, readOk, q);
    SuccessContents(msg, now);
    NotYetClosed(db, msg, readOk, q);
    var rec := FullRecord(msg, now);
    RecordsAccount(msg, now);
    ExtendScope(db, PostFull(db, msg, now).value, msg.loanId, FullUnpaidDoc(msg, rec, |db.collections|), rec);
  }

  lemma NotYetClosed(db: Db, msg: Msg, readOk: bool, q: nat)
    requires LedgerInv(db, q) && Fits(db, msg, readOk, q)
    ensures msg.loanId !in db.closed
  {
    hide HistoryInv, RecordInv, ClosedInv;
    assert ActiveInv(db, msg.msisdn);
  }

  /** A partial transaction of a current message, in full: the loan's balance, and an open version
      that owes what is left, has no total and stores the unpaid fee less the cumulative fee. */
  lemma PartialContents(db: Db, msg: Msg, now: Time, readOk: bool, q: nat)
    requires LedgerInv(db, q) && Fits(db, msg, readOk, q) && msg.kind == Partial && Post(db, msg, now).Some?
    ensures var db' := Post(db, msg, now).value;
            && msg.loanId in db.unpaid && msg.loanId in db'.unpaid && db'.unpaid[msg.loanId] != []
            && var v := Last(db'.unpaid[msg.loanId]);
            && |db'.unpaid[msg.loanId]| == |db.unpaid[msg.loanId]| + 1
            && v.version == msg.version + 1 && v.loanTotal == 0.0 && v.unpaid == msg.unpaid - msg.amount && v.open
            && v.fee == msg.unpaidFee - (msg.fee - Max(0.0, msg.unpaidFee - msg.amount))
            && v.last == Some(|db.collections|)
            && |db'.collections| == |db.collections| + 1
            && Identifies(Last(db'.collections), msg, now) && ShowsSuccess(Last(db'.collections), msg)
            && db'.closed == db.closed
            && db'.loans.Keys == db.loans.Keys
            && (forall m :: m in db.loans && m != msg.msisdn ==> db'.loans[m] == db.loans[m])
            && db'.loans[msg.msisdn] == db.loans[msg.msisdn].(unpaid := msg.unpaid - msg.amount)
  {
    hide LedgerInv, Identifies, ShowsSuccess;
    PartialShape(db, msg, now, readOk, q);
    SuccessContents(msg, now);
    var rec := PartialRecord(msg, msg.unpaid - msg.amount, now);
    RecordsAccount(msg, now);
    ExtendScope(db, PostPartial(db, msg, now).value, msg.loanId, PartialUnpaidDoc(msg, rec, |db.collections|), rec);
  }
}
