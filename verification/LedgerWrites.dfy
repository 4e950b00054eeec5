/** The writes around the transactions (failure records, the producer's repairs, new loans),
    what any write leaves alone, the version chain, and why one post per message is needed. */
module LedgerWrites {
  import opened Numbers
  import opened Ledger
  import opened LedgerInvariant

  // ----- the other writes keep the ledger -----

  lemma FailureKeeps(db: Db, msg: Msg, readOk: bool, text: string, now: Time, q: nat)
    requires LedgerInv(db, q) && Fits(db, msg, readOk, q)
    ensures LedgerInv(CreateCollection(db, FailureRecord(msg, text, now)), q)
  {
    hide HistoryInv, RecordInv, ActiveInv, ClosedInv;
    var rec := FailureRecord(msg, text, now);
    var db' := CreateCollection(db, rec);
    FailureKeepsHistories(db, rec, q);
    forall i | 0 <= i < |db'.collections|
      ensures RecordInv(db', i, q)
    {
      FailureKeepsRecord(db, msg, readOk, text, now, q, i);
    }
    BalancesKept(db, db');
  }

  lemma FailureKeepsHistories(db: Db, rec: Collection, q: nat)
    requires LedgerInv(db, q) && !rec.result
    ensures forall l :: l in db.unpaid ==> HistoryInv(CreateCollection(db, rec), l)
  {
  }

  lemma OldRecordKept(db: Db, rec: Collection, q: nat, i: nat)
    requires i < |db.collections| && RecordInv(db, i, q)
    ensures RecordInv(CreateCollection(db, rec), i, q)
  {
    Append(db.collections, rec, db.collections[i].loanId, 0);
  }

  lemma FailureIsRecorded(db: Db, msg: Msg, readOk: bool, text: string, now: Time, q: nat)
    requires LedgerInv(db, q) && Fits(db, msg, readOk, q)
    ensures RecordInv(CreateCollection(db, FailureRecord(msg, text, now)), |db.collections|, q)
  {
    hide ClosedInv;
    var rec := FailureRecord(msg, text, now);
    Append(db.collections, rec, msg.loanId, 0);
    assert ActiveInv(db, msg.msisdn) && HistoryInv(db, msg.loanId);
  }

  lemma FailureKeepsRecord(db: Db, msg: Msg, readOk: bool, text: string, now: Time, q: nat, i: nat)
    requires LedgerInv(db, q) && Fits(db, msg, readOk, q) && i <= |db.collections|
    ensures RecordInv(CreateCollection(db, FailureRecord(msg, text, now)), i, q)
  {
    hide HistoryInv, ActiveInv, ClosedInv, RecordInv;
    if i < |db.collections| {
      OldRecordKept(db, FailureRecord(msg, text, now), q, i);
    } else {
      FailureIsRecorded(db, msg, readOk, text, now, q);
    }
  }

  /** Active and closed loans only see the documents of their own loan. */
  lemma BalancesKept(db: Db, db': Db)
    requires db'.loans == db.loans && db'.unpaid == db.unpaid && db'.closed == db.closed
    ensures forall m :: m in db.loans && ActiveInv(db, m) ==> ActiveInv(db', m)
    ensures forall l :: l in db.closed && ClosedInv(db, l) ==> ClosedInv(db', l)
  {
  }

  /** The producer writes an active loan: a balance repaired from the open version, or the
      rate given to an old loan. */
  function SetLoan(db: Db, m: Msisdn, loan: Loan): Db {
    db.(loans := db.loans[m := loan])
  }

  ghost predicate Repaired(db: Db, m: Msisdn, loan: Loan)
    requires m in db.loans && HasVersions(db, db.loans[m].id)
  {
    var was := db.loans[m];
    && loan.id == was.id && loan.total == was.total && loan.fee == was.fee
    && loan.rate >= 0.0
    && (loan.unpaid == was.unpaid || loan.unpaid == Last(db.unpaid[was.id]).unpaid)
  }

  /** Histories, closures and records do not look at the loan documents. */
  lemma BooksAside(db: Db, loans: map<Msisdn, Loan>, q: nat)
    ensures var db' := db.(loans := loans);
            && (forall l :: l in db.unpaid && HistoryInv(db, l) ==> HistoryInv(db', l))
            && (forall l :: l in db.closed && ClosedInv(db, l) ==> ClosedInv(db', l))
            && (forall i :: 0 <= i < |db.collections| && RecordInv(db, i, q) ==> RecordInv(db', i, q))
  {
  }

  lemma RepairedActive(db: Db, m: Msisdn, loan: Loan, q: nat, n: Msisdn)
    requires LedgerInv(db, q) && m in db.loans && HasVersions(db, db.loans[m].id) && Repaired(db, m, loan)
    requires n in db.loans
    ensures ActiveInv(SetLoan(db, m, loan), n)
  {
    hide HistoryInv, ClosedInv, RecordInv;
    assert ActiveInv(db, n);
  }

  lemma RepairKeeps(db: Db, m: Msisdn, loan: Loan, q: nat)
    requires LedgerInv(db, q) && m in db.loans && HasVersions(db, db.loans[m].id) && Repaired(db, m, loan)
    ensures LedgerInv(SetLoan(db, m, loan), q)
  {
    hide ActiveInv, HistoryInv, ClosedInv, RecordInv;
    var db' := SetLoan(db, m, loan);
    BooksAside(db, db'.loans, q);
    forall n | n in db'.loans
      ensures ActiveInv(db', n)
    {
      RepairedActive(db, m, loan, q, n);
    }
  }

  /** What SerializeLoans / SerializeUnpaidLoans produce, and what a migrated loan looks like. */
  ghost predicate Opening(loan: Loan, first: UnpaidDoc) {
    && first.open && first.version >= 1
    && first.loanTotal == loan.total && first.unpaid >= 0.0
    && (loan.unpaid == first.unpaid || loan.unpaid == 0.0)
    && 0.0 <= loan.fee && first.fee <= loan.fee && loan.rate >= 0.0
  }

  function SerializeLoans(id: LoanId, total: real, fee: real, rate: real, guid: string): Loan {
    Loan(id, total, fee, rate, total, guid)
  }

  function SerializeUnpaidLoans(total: real, fee: real): UnpaidDoc {
    UnpaidDoc(1, total, total, fee, true, None)
  }

  /** A new loan starts with what was lent still owed, the whole fee unpaid and version 1. */
  lemma NewLoanOpens(id: LoanId, total: real, fee: real, rate: real, guid: string)
    requires 0.0 <= fee && 0.0 <= total && rate >= 0.0
    ensures Opening(SerializeLoans(id, total, fee, rate, guid), SerializeUnpaidLoans(total, fee))
  {
  }

  ghost predicate Fresh(db: Db, m: Msisdn, l: LoanId) {
    && m !in db.loans && l !in db.unpaid && l !in db.closed
  }

  lemma OpenKeeps(db: Db, m: Msisdn, loan: Loan, first: UnpaidDoc, q: nat)
    requires LedgerInv(db, q) && Fresh(db, m, loan.id) && Opening(loan, first)
    ensures LedgerInv(Open(db, m, loan, first), q)
  {
    hide RecordInv, ActiveInv, ClosedInv;
    var db' := Open(db, m, loan, first);
    NothingCollected(db, loan.id, q, |db.collections|);
    assert db.collections[..|db.collections|] == db.collections;
    assert HistoryInv(db', loan.id);
    OpenKeepsHistories(db, m, loan, first, q);
    OpenKeepsLoans(db, m, loan, first, q);
  }

  lemma OpenKeepsHistories(db: Db, m: Msisdn, loan: Loan, first: UnpaidDoc, q: nat)
    requires LedgerInv(db, q) && Fresh(db, m, loan.id)
    ensures var db' := Open(db, m, loan, first);
            && (forall l :: l in db'.unpaid && l != loan.id ==> HistoryInv(db', l))
            && (forall i :: 0 <= i < |db'.collections| ==> RecordInv(db', i, q))
  {
    var db' := Open(db, m, loan, first);
    forall l | l in db'.unpaid && l != loan.id
      ensures HistoryInv(db', l)
    {
      assert HistoryInv(db, l);
    }
    forall i | 0 <= i < |db'.collections|
      ensures RecordInv(db', i, q)
    {
      assert RecordInv(db, i, q);
    }
  }

  lemma OpenKeepsLoans(db: Db, m: Msisdn, loan: Loan, first: UnpaidDoc, q: nat)
    requires LedgerInv(db, q) && Fresh(db, m, loan.id) && Opening(loan, first)
    ensures var db' := Open(db, m, loan, first);
            && (forall n :: n in db'.loans ==> ActiveInv(db', n))
            && (forall n, o :: n in db'.loans && o in db'.loans && n != o ==> db'.loans[n].id != db'.loans[o].id)
            && (forall l :: l in db'.closed ==> ClosedInv(db', l))
  {
    hide HistoryInv, RecordInv;
    var db' := Open(db, m, loan, first);
    forall n | n in db.loans
      ensures ActiveInv(db', n) && db.loans[n].id != loan.id
    {
      assert ActiveInv(db, n);
    }
    forall l | l in db'.closed
      ensures ClosedInv(db', l)
    {
      assert ClosedInv(db, l);
    }
  }

  lemma {:induction false} NothingCollected(db: Db, l: LoanId, q: nat, n: nat)
    requires LedgerInv(db, q) && l !in db.unpaid && n <= |db.collections|
    ensures Collected(db.collections[..n], l) == 0.0 && Posts(db.collections[..n], l) == 0
  {
    if n > 0 {
      var cs := db.collections;
      NothingCollected(db, l, q, n - 1);
      assert cs[..n] == cs[..n - 1] + [cs[n - 1]];
      Append(cs[..n - 1], cs[n - 1], l, 0);
      assert RecordInv(db, n - 1, q);
    }
  }

  // ----- posting, either kind -----

  lemma PostKeeps(db: Db, msg: Msg, now: Time, readOk: bool, q: nat)
    requires LedgerInv(db, q) && Fits(db, msg, readOk, q)
    requires Post(db, msg, now).Some?
    ensures LedgerInv(Post(db, msg, now).value, q)
  {
    hide LedgerInv;
    match msg.kind
    case Partial => PostPartialKeeps(db, msg, now, readOk, q);
    case Full => PostFullKeeps(db, msg, now, readOk, q);
  }

  /** What posting a message changes, and for whom. */
  lemma PostScope(db: Db, msg: Msg, now: Time, readOk: bool, q: nat)
    requires LedgerInv(db, q) && Fits(db, msg, readOk, q)
    requires Post(db, msg, now).Some?
    ensures var db' := Post(db, msg, now).value;
            && (forall m :: m in db.loans && m != msg.msisdn ==> m in db'.loans && db'.loans[m] == db.loans[m])
            && (forall m :: m in db'.loans ==> m in db.loans)
            && db'.unpaid.Keys == db.unpaid.Keys
            && (forall l :: l in db.unpaid && l != msg.loanId ==> db'.unpaid[l] == db.unpaid[l])
            && |db'.unpaid[msg.loanId]| == |db.unpaid[msg.loanId]| + 1
            && (forall k :: 0 <= k < |db.unpaid[msg.loanId]| ==>
                  db'.unpaid[msg.loanId][k].version == db.unpaid[msg.loanId][k].version)
            && Last(db'.unpaid[msg.loanId]).version == msg.version + 1
            && |db'.collections| == |db.collections| + 1
            && db'.collections == db.collections + [Last(db'.collections)]
            && Accounts(Last(db'.collections), msg)
  {
    hide LedgerInv;
    RecordsAccount(msg, now);
    var db' := Post(db, msg, now).value;
    match msg.kind
    case Partial =>
      PartialShape(db, msg, now, readOk, q);
      var rec := PartialRecord(msg, msg.unpaid - msg.amount, now);
      ExtendScope(db, db', msg.loanId, PartialUnpaidDoc(msg, rec, |db.collections|), rec);
    case Full =>
      FullShape(db, msg, now, readOk, q);
      var rec := FullRecord(msg, now);
      ExtendScope(db, db', msg.loanId, FullUnpaidDoc(msg, rec, |db.collections|), rec);
  }

  lemma ExtendScope(db: Db, db': Db, l: LoanId, doc: UnpaidDoc, rec: Collection)
    requires Extends(db, db', l, doc, rec)
    ensures Last(db'.collections) == rec && db'.collections == db.collections + [rec]
    ensures db'.unpaid.Keys == db.unpaid.Keys
    ensures forall o :: o in db.unpaid && o != l ==> db'.unpaid[o] == db.unpaid[o]
    ensures Last(db'.unpaid[l]) == doc && |db'.unpaid[l]| == |db.unpaid[l]| + 1
    ensures forall k :: 0 <= k < |db.unpaid[l]| ==> db'.unpaid[l][k].version == db.unpaid[l][k].version
    ensures db'.unpaid[l][0].unpaid == db.unpaid[l][0].unpaid
  {
  }

  /** A message of another subscriber still fits afterwards. */
  lemma PostKeepsFits(db: Db, msg: Msg, now: Time, readOk: bool, other: Msg, otherOk: bool, q: nat)
    requires LedgerInv(db, q) && Fits(db, msg, readOk, q)
    requires Fits(db, other, otherOk, q) && other.msisdn != msg.msisdn
    requires Post(db, msg, now).Some?
    ensures Fits(Post(db, msg, now).value, other, otherOk, q)
  {
    PostScope(db, msg, now, readOk, q);
    assert db.loans[other.msisdn].id != db.loans[msg.msisdn].id;
  }

  // ----- the version chain -----

  ghost predicate Consecutive(docs: seq<UnpaidDoc>) {
    forall k :: 0 <= k < |docs| ==> docs[k].version == docs[0].version + k
  }

  /** `stale` are the loans that were posted with a message built from a failed read. */
  ghost predicate VersionInv(db: Db, stale: set<LoanId>) {
    forall l :: l in db.unpaid ==>
      db.unpaid[l] != [] && db.unpaid[l][0].version >= 1 && (Consecutive(db.unpaid[l]) <==> l !in stale)
  }

  /** One post extends the chain exactly when the producer's read succeeded. */
  lemma PostVersion(db: Db, msg: Msg, now: Time, readOk: bool, q: nat, stale: set<LoanId>)
    requires LedgerInv(db, q) && Fits(db, msg, readOk, q) && VersionInv(db, stale)
    requires Post(db, msg, now).Some?
    ensures VersionInv(Post(db, msg, now).value, if readOk then stale else stale + {msg.loanId})
  {
    hide LedgerInv;
    PostScope(db, msg, now, readOk, q);
    VersionStep(db, Post(db, msg, now).value, msg.loanId, readOk, stale);
  }

  lemma VersionStep(db: Db, db': Db, l: LoanId, readOk: bool, stale: set<LoanId>)
    requires VersionInv(db, stale) && HasVersions(db, l) && db'.unpaid.Keys == db.unpaid.Keys
    requires forall o :: o in db.unpaid && o != l ==> db'.unpaid[o] == db.unpaid[o]
    requires |db'.unpaid[l]| == |db.unpaid[l]| + 1
    requires forall k :: 0 <= k < |db.unpaid[l]| ==> db'.unpaid[l][k].version == db.unpaid[l][k].version
    requires Last(db'.unpaid[l]).version == (if readOk then Last(db.unpaid[l]).version + 1 else 1)
    ensures VersionInv(db', if readOk then stale else stale + {l})
  {
  }

  // ----- why a message must be posted once -----

  /** The transaction has no guard of its own: once posted, the same message can be posted again
      exactly if its fee is whole, and doing so breaks the ledger whenever it takes something. */
  lemma SecondPostBreaksLedger(db: Db, msg: Msg, now: Time, later: Time, readOk: bool, q: nat)
    requires LedgerInv(db, q) && Fits(db, msg, readOk, q) && Post(db, msg, now).Some?
    ensures var again := Post(Post(db, msg, now).value, msg, later);
            && (again.Some? <==> Whole(msg.fee))
            && (again.Some? && msg.amount > 0.0 ==> !LedgerInv(again.value, q))
  {
    hide LedgerInv;
    PostKeeps(db, msg, now, readOk, q);
    RepostIff(db, msg, now, later, readOk, q);
    if Whole(msg.fee) && msg.amount > 0.0 {
      match msg.kind
      case Partial =>
        PartialShape(db, msg, now, readOk, q);
        ReplayedBalance(Post(db, msg, now).value, msg, later, q);
      case Full =>
        FullShape(db, msg, now, readOk, q);
        ReplayedClosure(Post(db, msg, now).value, msg, later, q);
    }
  }

  lemma RepostIff(db: Db, msg: Msg, now: Time, later: Time, readOk: bool, q: nat)
    requires LedgerInv(db, q) && Fits(db, msg, readOk, q) && Post(db, msg, now).Some?
    ensures Post(Post(db, msg, now).value, msg, later).Some? <==> Whole(msg.fee)
  {
    hide LedgerInv, PostPartial, PostFull, Fits;
    match msg.kind
    case Partial => RepostPartial(db, msg, now, later, readOk, q);
    case Full => RepostFullIff(db, msg, now, later, readOk, q);
  }

  lemma RepostPartial(db: Db, msg: Msg, now: Time, later: Time, readOk: bool, q: nat)
    requires LedgerInv(db, q) && Fits(db, msg, readOk, q) && msg.kind.Partial? && PostPartial(db, msg, now).Some?
    ensures Whole(msg.fee) && PostPartial(PostPartial(db, msg, now).value, msg, later).Some?
  {
    hide LedgerInv;
    var rec := PartialRecord(msg, msg.unpaid - msg.amount, now);
    assert Whole(0.0);
    RecordsAccount(msg, now);
    PartialShape(db, msg, now, readOk, q);
    StaysWhole(Last(db.unpaid[msg.loanId]), msg, rec, readOk);
    ExtendScope(db, PostPartial(db, msg, now).value, msg.loanId, PartialUnpaidDoc(msg, rec, |db.collections|), rec);
  }

  lemma RepostFullIff(db: Db, msg: Msg, now: Time, later: Time, readOk: bool, q: nat)
    requires LedgerInv(db, q) && Fits(db, msg, readOk, q) && msg.kind.Full? && PostFull(db, msg, now).Some?
    ensures PostFull(PostFull(db, msg, now).value, msg, later).Some? <==> Whole(msg.fee)
  {
    hide LedgerInv;
    var rec := FullRecord(msg, now);
    assert Whole(0.0);
    RecordsAccount(msg, now);
    FullShape(db, msg, now, readOk, q);
    ExtendScope(db, PostFull(db, msg, now).value, msg.loanId, FullUnpaidDoc(msg, rec, |db.collections|), rec);
    if Whole(msg.fee) { WholeSum(msg.unpaidFee, msg.fee); }
    if Whole(msg.unpaidFee - msg.fee) { WholeSum(msg.unpaidFee, msg.unpaidFee - msg.fee); }
  }

  lemma ReplayedClosure(db1: Db, msg: Msg, later: Time, q: nat)
    requires LedgerInv(db1, q) && msg.loanId in db1.closed && PostFull(db1, msg, later).Some?
    ensures !LedgerInv(PostFull(db1, msg, later).value, q)
  {
    hide HistoryInv, RecordInv, ActiveInv;
    assert ClosedInv(db1, msg.loanId);
    var db2 := PostFull(db1, msg, later).value;
    assert |db2.closed[msg.loanId]| == 2;
    assert !ClosedInv(db2, msg.loanId);
  }

  lemma ReplayedBalance(db1: Db, msg: Msg, later: Time, q: nat)
    requires LedgerInv(db1, q) && msg.amount > 0.0
    requires msg.msisdn in db1.loans && db1.loans[msg.msisdn].id == msg.loanId && HasVersions(db1, msg.loanId)
    requires Last(db1.unpaid[msg.loanId]).unpaid == msg.unpaid - msg.amount && PostPartial(db1, msg, later).Some?
    ensures !LedgerInv(PostPartial(db1, msg, later).value, q)
  {
    hide LedgerInv;
    var l := msg.loanId;
    var db2 := PostPartial(db1, msg, later).value;
    var rec := PartialRecord(msg, msg.unpaid - msg.amount, later);
    var doc := PartialUnpaidDoc(msg, rec, |db1.collections|);
    UpdateTouchesOne(db1, msg.msisdn, q, msg.unpaid - msg.amount);
    ExtendScope(db1, db2, l, doc, rec);
    BalanceMismatch(db1, db2, l, rec, q);
  }

  lemma BalanceMismatch(db1: Db, db2: Db, l: LoanId, rec: Collection, q: nat)
    requires LedgerInv(db1, q) && l in db1.unpaid && l in db2.unpaid
    requires db2.collections == db1.collections + [rec] && Pays(rec, l) && rec.collected > 0.0
    requires db1.unpaid[l] != [] && db2.unpaid[l] != []
    requires db2.unpaid[l][0].unpaid == db1.unpaid[l][0].unpaid
    requires Last(db2.unpaid[l]).unpaid == Last(db1.unpaid[l]).unpaid
    ensures !LedgerInv(db2, q)
  {
  }
}
