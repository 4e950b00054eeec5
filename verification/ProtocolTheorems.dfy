/** What holds in every reachable state of the repayment protocol, in the terms of the stores. */
module ProtocolTheorems {
  import opened Numbers
  import opened Deduction
  import opened Ledger
  import opened LedgerInvariant
  import opened LedgerWrites
  import opened Protocol
  import opened ProtocolInvariant
  import W = WorkerSteps

  /** Conservation, active loans: exactly the newest version is open, it shows the opening debt
      less everything collected, and the loan document shows the same balance (a migrated
      loan may show 0 until its first repair). */
  lemma ActiveLoansBalance(w: World, q: nat, m: Msisdn)
    requires Reachable(w, q) && m in w.db.loans
    ensures var loan := w.db.loans[m];
            && HasVersions(w.db, loan.id) && loan.id !in w.db.closed
            && var docs := w.db.unpaid[loan.id];
            && (forall k :: 0 <= k < |docs| ==> (docs[k].open <==> k == |docs| - 1))
            && Last(docs).unpaid == docs[0].unpaid - Collected(w.db.collections, loan.id) >= 0.0
            && (loan.unpaid == Last(docs).unpaid || (loan.unpaid == 0.0 && Posts(w.db.collections, loan.id) == 0))
  {
    hide ControlInv, RecordInv, VersionInv, ClosedInv;
    ReachableInv(w, q);
    assert ActiveInv(w.db, m) && HistoryInv(w.db, w.db.loans[m].id);
  }

  /** Conservation, closed loans: nothing is open, the whole opening debt was collected, and
      there is one ClosedLoans document for the loan's total. */
  lemma ClosedLoansAreRepaid(w: World, q: nat, l: LoanId)
    requires Reachable(w, q) && l in w.db.closed
    ensures HasVersions(w.db, l) && |w.db.closed[l]| == 1
    ensures var docs := w.db.unpaid[l];
            && (forall k :: 0 <= k < |docs| ==> !docs[k].open)
            && Last(docs).unpaid == 0.0
            && Collected(w.db.collections, l) == docs[0].unpaid
            && w.db.closed[l][0].total == w.db.closed[l][0].totalCollected == docs[0].loanTotal
    ensures forall m :: m in w.db.loans ==> w.db.loans[m].id != l
  {
    hide ControlInv, RecordInv, VersionInv;
    ReachableInv(w, q);
    assert ClosedInv(w.db, l) && HistoryInv(w.db, l);
    forall m | m in w.db.loans
      ensures w.db.loans[m].id != l
    {
      assert ActiveInv(w.db, m);
    }
  }

  /** Every Collections record, success or failure, shows the running totals of its moment. */
  lemma RecordsShowRunningTotals(w: World, q: nat, i: nat)
    requires Reachable(w, q) && i < |w.db.collections|
    ensures var c := w.db.collections[i];
            && HasVersions(w.db, c.loanId)
            && var first := w.db.unpaid[c.loanId][0];
            && c.totalUnpaid == first.unpaid - Collected(w.db.collections[..i + 1], c.loanId)
            && c.totalCollected + c.totalUnpaid == first.loanTotal
            && c.totalUnpaid == c.unpaidLoan + c.unpaidFee
            && (c.result ==> c.collectedFee + c.unpaidFee == c.fee)
  {
    ReachableInv(w, q);
    assert RecordInv(w.db, i, q);
  }

  /** One version per success record, each pointing at the record that produced it. */
  lemma VersionsMatchRecords(w: World, q: nat, l: LoanId)
    requires Reachable(w, q) && l in w.db.unpaid
    ensures var docs := w.db.unpaid[l];
            && |docs| == 1 + Posts(w.db.collections, l)
            && (forall k :: 1 <= k < |docs| ==> Backed(w.db.collections, l, docs[k]))
  {
    ReachableInv(w, q);
    assert HistoryInv(w.db, l);
  }

  /** Over any run the version numbers of a loan are consecutive exactly when no message built
      from a failed UnpaidLoans read was posted for it. */
  lemma VersionsConsecutiveIff(w: World, q: nat, l: LoanId)
    requires Reachable(w, q) && l in w.db.unpaid
    ensures Consecutive(w.db.unpaid[l]) <==> l !in w.stale
  {
    ReachableInv(w, q);
  }

  /** A message that may still be posted is never stale: subscriber, loan, balance and, when the
      producer's read succeeded, version and fee are what the stores hold now. */
  lemma InFlightMessagesAreCurrent(w: World, q: nat, id: MsgId)
    requires Reachable(w, q) && id in w.flights && Unposted(w.flights[id].phase)
    ensures var f := w.flights[id];
            && f.msg.msisdn in w.db.loans && w.db.loans[f.msg.msisdn].id == f.msg.loanId
            && HasVersions(w.db, f.msg.loanId)
            && var open := Last(w.db.unpaid[f.msg.loanId]);
            && open.open && open.unpaid == f.msg.unpaid == w.db.loans[f.msg.msisdn].unpaid
            && (f.readOk ==> f.msg.version == open.version && f.msg.unpaidFee == open.fee)
  {
    ReachableInv(w, q);
    assert FlightInv(w, id, q);
    assert ActiveInv(w.db, w.flights[id].msg.msisdn);
  }

  // ----- the lock -----

  /** At most one in-progress entry and one live message per subscriber; a live message holds
      the entry, and the producer never works on a subscriber that has one. */
  lemma LockIsExclusive(w: World, q: nat, m: Msisdn, i: MsgId, j: MsgId)
    requires Reachable(w, q)
    ensures w.locks[m] <= 1
    ensures HeldByProducer(w.producer, m) ==> w.locks[m] == 1
    ensures i in w.flights && W.Live(w.flights[i].phase) && w.flights[i].msg.msisdn == m ==>
              && w.locks[m] == 1 && !HeldByProducer(w.producer, m)
              && (j in w.flights && W.Live(w.flights[j].phase) && w.flights[j].msg.msisdn == m ==> i == j)
  {
    ReachableInv(w, q);
    if i in w.flights { assert FlightInv(w, i, q); }
  }

  /** No event of a subscriber with a live message gets past the check. */
  lemma LiveMessageBlocksProducer(w: World, q: nat, id: MsgId, answered: bool)
    requires Reachable(w, q) && id in w.flights && W.Live(w.flights[id].phase) && w.producer.Idle?
    ensures Next(w, Check(w.flights[id].msg.msisdn, answered), q) == w
  {
    ReachableInv(w, q);
    assert FlightInv(w, id, q);
  }

  // ----- at most once -----

  /** Whatever is redelivered how often: a message leaves at most one success record, it has one
      exactly when its handler passed the transaction, and then it is not deliverable again. */
  lemma PostedAtMostOnce(w: World, q: nat, id: MsgId)
    requires Reachable(w, q)
    ensures PostsOf(w.db.collections, id) <= 1
    ensures PostsOf(w.db.collections, id) == 1 <==> id in w.flights && W.HasPosted(w.flights[id].phase)
    ensures PostsOf(w.db.collections, id) == 1 ==> !w.flights[id].phase.Queued?
  {
    ReachableInv(w, q);
  }

  // ----- repayment ends, amounts stay whole -----

  ghost function PartialPosts(cs: seq<Collection>, l: LoanId): nat {
    if cs == [] then 0
    else PartialPosts(cs[..|cs| - 1], l) + (if Pays(Last(cs), l) && Last(cs).kind == Partial then 1 else 0)
  }

  lemma {:induction false} PartialsCost(db: Db, q: nat, l: LoanId, n: nat)
    requires LedgerInv(db, q) && n <= |db.collections|
    ensures (PartialPosts(db.collections[..n], l) * q) as real <= Collected(db.collections[..n], l)
  {
    hide ActiveInv, HistoryInv, ClosedInv;
    if n > 0 {
      var cs := db.collections;
      PartialsCost(db, q, l, n - 1);
      assert cs[..n][..n - 1] == cs[..n - 1];
      assert RecordInv(db, n - 1, q);
    }
  }

  /** With a minimum of at least q >= 1 whole pesos a loan sees at most opening debt / q partial
      collections, and each of them left something to collect. */
  lemma RepaymentEnds(w: World, q: nat, l: LoanId)
    requires Reachable(w, q) && l in w.db.unpaid && q >= 1
    ensures w.db.unpaid[l] != []
    ensures PartialPosts(w.db.collections, l) <= w.db.unpaid[l][0].unpaid.Floor / q
    ensures forall i :: 0 <= i < |w.db.collections| ==>
              Pays(w.db.collections[i], l) && w.db.collections[i].kind == Partial ==>
                w.db.collections[i].totalUnpaid > 0.0
  {
    hide ControlInv, VersionInv, ActiveInv, ClosedInv;
    ReachableInv(w, q);
    var cs := w.db.collections;
    PartialsCost(w.db, q, l, |cs|);
    assert cs[..|cs|] == cs;
    assert HistoryInv(w.db, l);
    QuotientBound(PartialPosts(cs, l), q, w.db.unpaid[l][0].unpaid);
    forall i | 0 <= i < |cs|
      ensures Pays(cs[i], l) && cs[i].kind == Partial ==> cs[i].totalUnpaid > 0.0
    {
      assert RecordInv(w.db, i, q);
    }
  }

  lemma QuotientBound(n: nat, q: nat, x: real)
    requires q >= 1 && (n * q) as real <= x
    ensures n <= x.Floor / q
  {
    DivisionBound(n, n * q, q, x.Floor);
  }

  lemma DivisionBound(n: nat, product: nat, q: nat, k: nat)
    requires q >= 1 && product == n * q && product <= k
    ensures n <= k / q
  {
    BelowOne(n - k / q, q, product - k / q * q);
  }

  lemma BelowOne(t: int, q: nat, product: int)
    requires product == t * q && product < q
    ensures t <= 0
  {
  }

  /** Whole opening amounts stay whole, so the int32 fields of the open version can be read. */
  lemma OpenVersionIsReadable(w: World, q: nat, m: Msisdn)
    requires Reachable(w, q) && m in w.db.loans
    requires HasVersions(w.db, w.db.loans[m].id)
    requires Whole(w.db.loans[m].fee) && WholeDoc(w.db.unpaid[w.db.loans[m].id][0])
    ensures ReadOpen(w.db, w.db.loans[m].id, true) == Some(Last(w.db.unpaid[w.db.loans[m].id]))
  {
    ReachableInv(w, q);
    assert ActiveInv(w.db, m) && HistoryInv(w.db, w.db.loans[m].id);
    FindOpenIsLast(w.db.unpaid[w.db.loans[m].id]);
  }

  // ----- the service fee -----

  /** The stored fee never exceeds the fee-first remainder of what was owed at opening. */
  lemma StoredFeeNeverTooHigh(w: World, q: nat, l: LoanId, k: nat)
    requires Reachable(w, q) && l in w.db.unpaid && k < |w.db.unpaid[l]|
    ensures w.db.unpaid[l][k].fee <= TrueFee(w.db.unpaid[l][0], w.db.unpaid[l][k])
  {
    ReachableInv(w, q);
    assert HistoryInv(w.db, l);
  }

  /** The partial transaction subtracts the cumulative collected fee, so the version it writes
      is right exactly when the message still carries the whole fee as unpaid: always for the
      first collection of a new loan, never after some of the fee was paid. */
  lemma StoredFeeRightIff(db: Db, msg: Msg, now: Time, readOk: bool, q: nat)
    requires LedgerInv(db, q) && Fits(db, msg, readOk, q) && msg.kind == Partial
    requires PostPartial(db, msg, now).Some?
    ensures var docs := PostPartial(db, msg, now).value.unpaid[msg.loanId];
            Last(docs).fee == TrueFee(docs[0], Last(docs)) <==> msg.unpaidFee == msg.fee
  {
    hide LedgerInv;
    PartialShape(db, msg, now, readOk, q);
    var rec := PartialRecord(msg, msg.unpaid - msg.amount, now);
    RecordsAccount(msg, now);
    ExtendScope(db, PostPartial(db, msg, now).value, msg.loanId, PartialUnpaidDoc(msg, rec, |db.collections|), rec);
    var first := db.unpaid[msg.loanId][0];
    FeeFacts(db, msg, readOk, q);
    FeeArithmetic(first.fee - (first.unpaid - msg.unpaid), msg.unpaidFee, msg.fee, msg.amount);
  }

  lemma FeeFacts(db: Db, msg: Msg, readOk: bool, q: nat)
    requires LedgerInv(db, q) && Fits(db, msg, readOk, q)
    ensures var first := db.unpaid[msg.loanId][0];
            && 0.0 <= msg.amount && 0.0 <= msg.fee
            && first.fee - (first.unpaid - msg.unpaid) <= msg.fee
            && (msg.unpaidFee <= Max(0.0, first.fee - (first.unpaid - msg.unpaid)) || msg.unpaidFee == 0.0)
  {
    hide RecordInv, ClosedInv;
    NewVersionBounds(db, msg, readOk, q);
    assert ActiveInv(db, msg.msisdn) && HistoryInv(db, msg.loanId);
    CollectedNonNegative(db, q, msg.loanId, |db.collections|);
    assert db.collections[..|db.collections|] == db.collections;
  }

  /** `remainder` is the signed fee-first remainder before the collection. */
  lemma FeeArithmetic(remainder: real, unpaidFee: real, fee: real, amount: real)
    requires 0.0 <= amount && 0.0 <= fee && remainder <= fee
    requires unpaidFee <= Max(0.0, remainder) || unpaidFee == 0.0
    ensures unpaidFee - (fee - CalculateUnpaidServiceFee(amount, unpaidFee)) == Max(0.0, remainder - amount)
            <==> unpaidFee == fee
  {
  }
}
