/** What the ledger stores keep: conservation, the version chain, the fee waterfall and
    the link between versions and Collections records, across every write of the worker. */
module LedgerInvariant {
  import opened Numbers
  import opened Deduction
  import opened Ledger

  // ----- sums over the Collections store -----

  predicate Pays(c: Collection, l: LoanId) {
    c.result && c.loanId == l
  }

  /** Pesos collected for a loan. */
  ghost function Collected(cs: seq<Collection>, l: LoanId): real {
    if cs == [] then 0.0
    else Collected(cs[..|cs| - 1], l) + (if Pays(Last(cs), l) then Last(cs).collected else 0.0)
  }

  /** Number of success records of a loan. */
  ghost function Posts(cs: seq<Collection>, l: LoanId): nat {
    if cs == [] then 0 else Posts(cs[..|cs| - 1], l) + (if Pays(Last(cs), l) then 1 else 0)
  }

  /** Number of success records one message has left. */
  ghost function PostsOf(cs: seq<Collection>, id: MsgId): nat {
    if cs == [] then 0 else PostsOf(cs[..|cs| - 1], id) + (if Last(cs).result && Last(cs).txn == id then 1 else 0)
  }

  lemma Append(cs: seq<Collection>, c: Collection, l: LoanId, id: MsgId)
    ensures Collected(cs + [c], l) == Collected(cs, l) + (if Pays(c, l) then c.collected else 0.0)
    ensures Posts(cs + [c], l) == Posts(cs, l) + (if Pays(c, l) then 1 else 0)
    ensures PostsOf(cs + [c], id) == PostsOf(cs, id) + (if c.result && c.txn == id then 1 else 0)
    ensures forall i :: 0 <= i <= |cs| ==> (cs + [c])[..i] == cs[..i]
    ensures (cs + [c])[..|cs| + 1] == cs + [c]
  {
  }

  // ----- the invariant -----

  /** The service fee still owed when payments go to the fee first. */
  function TrueFee(first: UnpaidDoc, doc: UnpaidDoc): real {
    Max(0.0, first.fee - (first.unpaid - doc.unpaid))
  }

  /** A later version points at the success record that produced it. */
  predicate Backed(cs: seq<Collection>, l: LoanId, doc: UnpaidDoc) {
    && doc.last.Some? && doc.last.value < |cs|
    && Pays(cs[doc.last.value], l)
    && cs[doc.last.value].totalUnpaid == doc.unpaid
  }

  ghost predicate HistoryInv(db: Db, l: LoanId)
    requires l in db.unpaid
  {
    var docs := db.unpaid[l];
    && docs != []
    && (forall k :: 0 <= k < |docs| - 1 ==> !docs[k].open)
    && (forall k :: 1 <= k < |docs| ==> Backed(db.collections, l, docs[k]))
    && (forall k :: 0 <= k < |docs| ==> docs[k].unpaid >= 0.0 && docs[k].fee <= TrueFee(docs[0], docs[k]))
    && Last(docs).unpaid == docs[0].unpaid - Collected(db.collections, l)
    && |docs| - 1 == Posts(db.collections, l)
  }

  /** Closing the newest version and adding another: earlier ones keep everything but the newest's
      openness, and if only the newest could be open, only the new one can be now. */
  lemma SupersededVersions(db: Db, l: LoanId, doc: UnpaidDoc)
    requires HasVersions(db, l)
    ensures var docs := db.unpaid[l];
            var docs' := CreateUnpaidLoanEntry(UpdatePreviousValidTo(db, l), l, doc).unpaid[l];
            && |docs'| == |docs| + 1 && Last(docs') == doc
            && (forall k :: 0 <= k < |docs| ==> docs'[k] == docs[k].(open := docs[k].open && k < |docs| - 1))
            && ((forall k :: 0 <= k < |docs| - 1 ==> !docs[k].open) ==>
                  forall k :: 0 <= k < |docs'| && docs'[k].open ==> k == |docs|)
  {
  }

  ghost predicate ActiveInv(db: Db, m: Msisdn)
    requires m in db.loans
  {
    var loan := db.loans[m];
    && HasVersions(db, loan.id) && loan.id !in db.closed
    && var docs := db.unpaid[loan.id];
    && Last(docs).open
    && (loan.unpaid == Last(docs).unpaid || (loan.unpaid == 0.0 && |docs| == 1))
    && loan.total == docs[0].loanTotal
    && 0.0 <= loan.fee && docs[0].fee <= loan.fee && loan.rate >= 0.0
    && (Whole(loan.fee) && WholeDoc(docs[0]) ==> WholeDoc(Last(docs)))
  }

  ghost predicate ClosedInv(db: Db, l: LoanId)
    requires l in db.closed
  {
    && HasVersions(db, l) && |db.closed[l]| == 1
    && var docs := db.unpaid[l];
    && !Last(docs).open && Last(docs).unpaid == 0.0
    && db.closed[l][0].total == docs[0].loanTotal
    && db.closed[l][0].totalCollected == docs[0].loanTotal
  }

  /** `q` whole pesos are a lower bound of every partial collection. */
  ghost predicate RecordInv(db: Db, i: nat, q: nat)
    requires i < |db.collections|
  {
    var c := db.collections[i];
    && HasVersions(db, c.loanId)
    && var first := db.unpaid[c.loanId][0];
    && c.totalUnpaid == first.unpaid - Collected(db.collections[..i + 1], c.loanId)
    && c.totalCollected == first.loanTotal - c.totalUnpaid
    && c.totalUnpaid == c.unpaidLoan + c.unpaidFee
    && (c.result ==> c.collectedFee + c.unpaidFee == c.fee && c.collected >= 0.0)
    && (c.result && c.kind == Partial ==> c.collected >= q as real && c.totalUnpaid > 0.0)
    && (c.result && c.kind == Full ==> c.totalUnpaid == 0.0)
  }

  ghost predicate LedgerInv(db: Db, q: nat) {
    && (forall m :: m in db.loans ==> ActiveInv(db, m))
    && (forall m, n :: m in db.loans && n in db.loans && m != n ==> db.loans[m].id != db.loans[n].id)
    && (forall l :: l in db.closed ==> ClosedInv(db, l))
    && (forall l :: l in db.unpaid ==> HistoryInv(db, l))
    && (forall i :: 0 <= i < |db.collections| ==> RecordInv(db, i, q))
  }

  /** A message the ledger can be posted with: what the producer read is still what is stored.
      `readOk` tells whether the producer's read of the open UnpaidLoans version succeeded;
      after a failed read the message carries the zero document. */
  ghost predicate Fits(db: Db, msg: Msg, readOk: bool, q: nat) {
    && msg.msisdn in db.loans
    && var loan := db.loans[msg.msisdn];
    && loan.id == msg.loanId && loan.total == msg.total && loan.fee == msg.fee && loan.unpaid == msg.unpaid
    && Whole(loan.total) && loan.guid == msg.meta.guid
    && HasVersions(db, msg.loanId)
    && var open := Last(db.unpaid[msg.loanId]);
    && open.unpaid == msg.unpaid
    && msg.version == (if readOk then open.version else 0)
    && msg.unpaidFee == (if readOk then open.fee else 0.0)
    && (msg.kind == Full ==> msg.amount == msg.unpaid)
    && (msg.kind == Partial ==> q as real <= msg.amount < msg.unpaid && Whole(msg.amount))
  }

  lemma {:induction false} CollectedNonNegative(db: Db, q: nat, l: LoanId, n: nat)
    requires LedgerInv(db, q) && n <= |db.collections|
    ensures Collected(db.collections[..n], l) >= 0.0
  {
    if n > 0 {
      var cs := db.collections;
      CollectedNonNegative(db, q, l, n - 1);
      assert cs[..n] == cs[..n - 1] + [cs[n - 1]];
      Append(cs[..n - 1], cs[n - 1], l, 0);
      assert RecordInv(db, n - 1, q);
    }
  }

  // ----- preservation -----

  /** What both transactions do to the history of their loan. */
  ghost predicate Extends(db: Db, db': Db, l: LoanId, doc: UnpaidDoc, rec: Collection) {
    && HasVersions(db, l)
    && var docs := db.unpaid[l];
    && db'.collections == db.collections + [rec]
    && db'.unpaid == db.unpaid[l := docs[|docs| - 1 := Last(docs).(open := false)] + [doc]]
  }

  /** The new version and its record, whatever the kind of collection. */
  lemma PostKeepsHistories(db: Db, db': Db, msg: Msg, doc: UnpaidDoc, rec: Collection, readOk: bool, q: nat)
    requires LedgerInv(db, q) && Fits(db, msg, readOk, q) && Accounts(rec, msg)
    requires Extends(db, db', msg.loanId, doc, rec)
    requires doc.last == Some(|db.collections|) && doc.unpaid == rec.totalUnpaid
    requires doc.fee <= TrueFee(db.unpaid[rec.loanId][0], doc)
    ensures forall l :: l in db'.unpaid ==> HistoryInv(db', l)
    ensures forall i :: 0 <= i < |db'.collections| ==> RecordInv(db', i, q)
  {
    NewVersionBounds(db, msg, readOk, q);
    ExtendKeepsHistories(db, db', doc, rec, q);
  }

  /** The step shared by both kinds of collection. */
  lemma ExtendKeepsHistories(db: Db, db': Db, doc: UnpaidDoc, rec: Collection, q: nat)
    requires LedgerInv(db, q)
    requires Extends(db, db', rec.loanId, doc, rec) && rec.result
    requires doc.last == Some(|db.collections|) && doc.unpaid == rec.totalUnpaid
    requires rec.totalUnpaid == Last(db.unpaid[rec.loanId]).unpaid - rec.collected
    requires rec.totalCollected == db.unpaid[rec.loanId][0].loanTotal - rec.totalUnpaid
    requires rec.totalUnpaid == rec.unpaidLoan + rec.unpaidFee && rec.collectedFee + rec.unpaidFee == rec.fee
    requires rec.collected >= 0.0
    requires rec.kind == Partial ==> rec.collected >= q as real && rec.totalUnpaid > 0.0
    requires rec.kind == Full ==> rec.totalUnpaid == 0.0
    requires doc.unpaid >= 0.0 && doc.fee <= TrueFee(db.unpaid[rec.loanId][0], doc)
    ensures forall l :: l in db'.unpaid ==> HistoryInv(db', l)
    ensures forall i :: 0 <= i < |db'.collections| ==> RecordInv(db', i, q)
  {
    hide RecordInv, ActiveInv, ClosedInv, HistoryInv;
    forall l | l in db'.unpaid
      ensures HistoryInv(db', l)
    {
      assert HistoryInv(db, l);
      HistoryKept(db, db', doc, rec, l);
    }
    forall i | 0 <= i < |db'.collections|
      ensures RecordInv(db', i, q)
    {
      RecordsKept(db, db', doc, rec, q, i);
    }
  }

  lemma HistoryKept(db: Db, db': Db, doc: UnpaidDoc, rec: Collection, l: LoanId)
    requires Extends(db, db', rec.loanId, doc, rec) && rec.result && l in db.unpaid && HistoryInv(db, l)
    requires doc.last == Some(|db.collections|) && doc.unpaid == rec.totalUnpaid
    requires rec.totalUnpaid == Last(db.unpaid[rec.loanId]).unpaid - rec.collected
    requires doc.unpaid >= 0.0 && doc.fee <= TrueFee(db.unpaid[rec.loanId][0], doc)
    ensures HistoryInv(db', l)
  {
  }

  lemma RecordsKept(db: Db, db': Db, doc: UnpaidDoc, rec: Collection, q: nat, i: nat)
    requires LedgerInv(db, q)
    requires Extends(db, db', rec.loanId, doc, rec) && rec.result && i < |db'.collections|
    requires rec.totalUnpaid == Last(db.unpaid[rec.loanId]).unpaid - rec.collected
    requires rec.totalCollected == db.unpaid[rec.loanId][0].loanTotal - rec.totalUnpaid
    requires rec.totalUnpaid == rec.unpaidLoan + rec.unpaidFee && rec.collectedFee + rec.unpaidFee == rec.fee
    requires rec.collected >= 0.0
    requires rec.kind == Partial ==> rec.collected >= q as real && rec.totalUnpaid > 0.0
    requires rec.kind == Full ==> rec.totalUnpaid == 0.0
    ensures RecordInv(db', i, q)
  {
    hide ActiveInv, ClosedInv, Backed;
    Append(db.collections, rec, db'.collections[i].loanId, 0);
    if i < |db.collections| {
      assert RecordInv(db, i, q);
    } else {
      assert HistoryInv(db, rec.loanId);
    }
  }

  lemma UpdateTouchesOne(db: Db, m: Msisdn, q: nat, unpaid: real)
    requires LedgerInv(db, q) && m in db.loans
    ensures UpdateLoanDocument(db, db.loans[m].id, unpaid).loans == db.loans[m := db.loans[m].(unpaid := unpaid)]
  {
  }

  /** The fee a version stores never exceeds the fee-first remainder. */
  lemma StoredFeeBound(first: UnpaidDoc, open: UnpaidDoc, amount: real, fee: real, unpaidFee: real)
    requires amount >= 0.0 && 0.0 <= fee && first.fee <= fee
    requires open.fee <= TrueFee(first, open) && open.unpaid <= first.unpaid
    requires unpaidFee == open.fee || unpaidFee == 0.0
    ensures unpaidFee - (fee - CalculateUnpaidServiceFee(amount, unpaidFee))
            <= Max(0.0, first.fee - (first.unpaid - (open.unpaid - amount)))
    ensures unpaidFee - fee <= 0.0
  {
  }

  lemma DeleteTouchesOne(db: Db, m: Msisdn, q: nat)
    requires LedgerInv(db, q) && m in db.loans
    ensures DeleteActiveLoan(db, db.loans[m].id).loans == db.loans - {m}
  {
  }

  /** A current message can be posted exactly when the worker can decode what it reads: the newest
      version, and for a partial collection the loan, whose total the producer has read before. */
  lemma CurrentCommitsIff(db: Db, msg: Msg, now: Time, readOk: bool, q: nat)
    requires LedgerInv(db, q) && Fits(db, msg, readOk, q)
    ensures Post(db, msg, now).Some? <==>
              WholeDoc(Last(db.unpaid[msg.loanId])) && (msg.kind == Partial ==> Whole(msg.fee))
  {
    hide HistoryInv, RecordInv, ClosedInv, ActiveInv;
  }

  /** PostPartial in one piece: one loan balance, one history and one record change. */
  lemma PartialShape(db: Db, msg: Msg, now: Time, readOk: bool, q: nat)
    requires LedgerInv(db, q) && Fits(db, msg, readOk, q) && PostPartial(db, msg, now).Some?
    ensures var db' := PostPartial(db, msg, now).value;
            var rec := PartialRecord(msg, msg.unpaid - msg.amount, now);
            && Extends(db, db', msg.loanId, PartialUnpaidDoc(msg, rec, |db.collections|), rec)
            && db'.loans == db.loans[msg.msisdn := db.loans[msg.msisdn].(unpaid := msg.unpaid - msg.amount)]
            && db'.closed == db.closed
  {
    hide HistoryInv, RecordInv, ClosedInv, ActiveInv;
    UpdateTouchesOne(db, msg.msisdn, q, msg.unpaid - msg.amount);
  }

  lemma FullShape(db: Db, msg: Msg, now: Time, readOk: bool, q: nat)
    requires LedgerInv(db, q) && Fits(db, msg, readOk, q) && PostFull(db, msg, now).Some?
    ensures var db' := PostFull(db, msg, now).value;
            var rec := FullRecord(msg, now);
            && Extends(db, db', msg.loanId, FullUnpaidDoc(msg, rec, |db.collections|), rec)
            && db'.loans == db.loans - {msg.msisdn}
            && db'.closed == db.closed[msg.loanId := [ClosedEntry(msg)]]
  {
    hide HistoryInv, RecordInv, ClosedInv;
    assert ActiveInv(db, msg.msisdn);
    var rec := FullRecord(msg, now);
    var db1 := CreateClosedLoansEntry(db, msg.loanId, ClosedEntry(msg));
    var db3 := UpdatePreviousValidTo(CreateCollection(db1, rec), msg.loanId);
    var db4 := CreateUnpaidLoanEntry(db3, msg.loanId, FullUnpaidDoc(msg, rec, |db.collections|));
    var docs := db.unpaid[msg.loanId];
    var none: seq<ClosedDoc> := [];
    assert none + [ClosedEntry(msg)] == [ClosedEntry(msg)];
    assert db1.closed == db.closed[msg.loanId := [ClosedEntry(msg)]];
    assert db4.unpaid == db.unpaid[msg.loanId := docs[|docs| - 1 := Last(docs).(open := false)]
                                                 + [FullUnpaidDoc(msg, rec, |db.collections|)]];
    assert DeleteActiveLoan(db4, msg.loanId).loans == db.loans - {msg.msisdn} by {
      DeleteTouchesOne(db, msg.msisdn, q);
    }
  }

  /** What both kinds of success record say, field by field. */
  ghost predicate Accounts(rec: Collection, msg: Msg) {
    && rec.result && rec.loanId == msg.loanId && rec.txn == msg.id && rec.kind == msg.kind
    && rec.collected == msg.amount
    && rec.totalUnpaid == msg.unpaid - msg.amount
    && rec.totalCollected == msg.total - rec.totalUnpaid
    && rec.totalUnpaid == rec.unpaidLoan + rec.unpaidFee
    && rec.collectedFee + rec.unpaidFee == rec.fee
  }

  lemma RecordsAccount(msg: Msg, now: Time)
    ensures msg.kind == Partial ==> Accounts(PartialRecord(msg, msg.unpaid - msg.amount, now), msg)
    ensures msg.kind == Partial ==> PartialRecord(msg, msg.unpaid - msg.amount, now).collectedFee
                                    == msg.fee - CalculateUnpaidServiceFee(msg.amount, msg.unpaidFee)
    ensures msg.kind == Full && msg.amount == msg.unpaid ==> Accounts(FullRecord(msg, now), msg)
    ensures msg.kind == Full ==> FullRecord(msg, now).collectedFee == msg.fee
  {
  }

  /** The history facts the new version needs, from the message and the open version. */
  lemma NewVersionBounds(db: Db, msg: Msg, readOk: bool, q: nat)
    requires LedgerInv(db, q) && Fits(db, msg, readOk, q)
    ensures var docs := db.unpaid[msg.loanId];
            && 0.0 <= msg.amount <= msg.unpaid
            && docs[0].loanTotal == msg.total
            && msg.unpaidFee - (msg.fee - CalculateUnpaidServiceFee(msg.amount, msg.unpaidFee))
               <= Max(0.0, docs[0].fee - (docs[0].unpaid - (msg.unpaid - msg.amount)))
            && msg.unpaidFee - msg.fee <= 0.0
  {
    var docs := db.unpaid[msg.loanId];
    assert ActiveInv(db, msg.msisdn) && HistoryInv(db, msg.loanId);
    CollectedNonNegative(db, q, msg.loanId, |db.collections|);
    assert db.collections[..|db.collections|] == db.collections;
    StoredFeeBound(docs[0], Last(docs), msg.amount, msg.fee, msg.unpaidFee);
  }

  lemma PostPartialKeeps(db: Db, msg: Msg, now: Time, readOk: bool, q: nat)
    requires LedgerInv(db, q) && Fits(db, msg, readOk, q) && msg.kind == Partial
    requires PostPartial(db, msg, now).Some?
    ensures LedgerInv(PostPartial(db, msg, now).value, q)
  {
    hide HistoryInv, RecordInv;
    PartialShape(db, msg, now, readOk, q);
    NewVersionBounds(db, msg, readOk, q);
    var db' := PostPartial(db, msg, now).value;
    var rec := PartialRecord(msg, msg.unpaid - msg.amount, now);
    var doc := PartialUnpaidDoc(msg, rec, |db.collections|);
    RecordsAccount(msg, now);
    PostKeepsHistories(db, db', msg, doc, rec, readOk, q);
    forall m | m in db'.loans
      ensures ActiveInv(db', m)
    {
      PartialKeepsActive(db, db', msg, rec, doc, readOk, q, m);
    }
    ClosedKept(db, db', msg.loanId, doc, rec, q);
  }

  /** The loan a partial collection was posted for. */
  lemma PostedActive(db: Db, db': Db, msg: Msg, rec: Collection, doc: UnpaidDoc, readOk: bool, q: nat)
    requires LedgerInv(db, q) && Fits(db, msg, readOk, q) && msg.kind == Partial
    requires Extends(db, db', msg.loanId, doc, rec)
    requires rec.collectedFee == msg.fee - CalculateUnpaidServiceFee(msg.amount, msg.unpaidFee)
    requires doc == PartialUnpaidDoc(msg, rec, |db.collections|)
    requires db'.loans == db.loans[msg.msisdn := db.loans[msg.msisdn].(unpaid := msg.unpaid - msg.amount)]
    requires db'.closed == db.closed
    ensures ActiveInv(db', msg.msisdn)
  {
    hide HistoryInv, RecordInv, ClosedInv;
    assert ActiveInv(db, msg.msisdn);
    var docs := db.unpaid[msg.loanId];
    assert Whole(0.0);
    if Whole(msg.fee) && WholeDoc(docs[0]) {
      StaysWhole(Last(docs), msg, rec, readOk);
    }
  }

  lemma PartialKeepsActive(db: Db, db': Db, msg: Msg, rec: Collection, doc: UnpaidDoc, readOk: bool, q: nat, m: Msisdn)
    requires LedgerInv(db, q) && Fits(db, msg, readOk, q) && msg.kind == Partial
    requires Extends(db, db', msg.loanId, doc, rec)
    requires rec.collectedFee == msg.fee - CalculateUnpaidServiceFee(msg.amount, msg.unpaidFee)
    requires doc == PartialUnpaidDoc(msg, rec, |db.collections|)
    requires db'.loans == db.loans[msg.msisdn := db.loans[msg.msisdn].(unpaid := msg.unpaid - msg.amount)]
    requires db'.closed == db.closed && m in db'.loans
    ensures ActiveInv(db', m)
  {
    hide HistoryInv, RecordInv, ClosedInv;
    if m == msg.msisdn {
      PostedActive(db, db', msg, rec, doc, readOk, q);
    } else {
      assert ActiveInv(db, m);
    }
  }

  /** Closed loans are out of reach of a message that fits. */
  lemma ClosedKept(db: Db, db': Db, l: LoanId, doc: UnpaidDoc, rec: Collection, q: nat)
    requires LedgerInv(db, q) && l !in db.closed && Extends(db, db', l, doc, rec)
    ensures forall c :: c in db.closed && c in db'.closed && db'.closed[c] == db.closed[c] ==> ClosedInv(db', c)
  {
  }

  lemma StaysWhole(open: UnpaidDoc, msg: Msg, rec: Collection, readOk: bool)
    requires WholeDoc(open) && Whole(msg.fee) && Whole(msg.amount) && msg.unpaid == open.unpaid
    requires msg.unpaidFee == (if readOk then open.fee else 0.0)
    requires rec.collectedFee == msg.fee - CalculateUnpaidServiceFee(msg.amount, msg.unpaidFee)
    ensures Whole(msg.unpaid - msg.amount) && Whole(msg.unpaidFee - rec.collectedFee)
  {
    assert Whole(0.0);
    WholeSum(msg.unpaid, msg.amount);
    WholeSum(msg.unpaidFee, msg.amount);
    WholeSum(msg.fee, CalculateUnpaidServiceFee(msg.amount, msg.unpaidFee));
    WholeSum(msg.unpaidFee, rec.collectedFee);
  }

  lemma PostFullKeeps(db: Db, msg: Msg, now: Time, readOk: bool, q: nat)
    requires LedgerInv(db, q) && Fits(db, msg, readOk, q) && msg.kind == Full
    requires PostFull(db, msg, now).Some?
    ensures LedgerInv(PostFull(db, msg, now).value, q)
  {
    hide HistoryInv, RecordInv, ActiveInv;
    FullShape(db, msg, now, readOk, q);
    NewVersionBounds(db, msg, readOk, q);
    var db' := PostFull(db, msg, now).value;
    var rec := FullRecord(msg, now);
    var doc := FullUnpaidDoc(msg, rec, |db.collections|);
    RecordsAccount(msg, now);
    PostKeepsHistories(db, db', msg, doc, rec, readOk, q);
    FullKeepsOthers(db, db', msg, doc, rec, readOk, q);
  }

  lemma FullKeepsOthers(db: Db, db': Db, msg: Msg, doc: UnpaidDoc, rec: Collection, readOk: bool, q: nat)
    requires LedgerInv(db, q) && Fits(db, msg, readOk, q)
    requires Extends(db, db', msg.loanId, doc, rec) && !doc.open && doc.unpaid == 0.0
    requires db'.loans == db.loans - {msg.msisdn}
    requires db'.closed == db.closed[msg.loanId := [ClosedEntry(msg)]]
    ensures forall m :: m in db'.loans ==> ActiveInv(db', m)
    ensures forall c :: c in db'.closed ==> ClosedInv(db', c)
  {
    hide HistoryInv, RecordInv;
    assert ActiveInv(db, msg.msisdn);
    forall m | m in db'.loans
      ensures ActiveInv(db', m)
    {
      assert ActiveInv(db, m);
    }
    ClosedKept(db, db', msg.loanId, doc, rec, q);
  }
}
