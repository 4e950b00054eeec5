/** The stored service fee over whole runs: what the second version of a loan shows. */
module FeeTheorems {
  import opened Deduction
  import opened Ledger
  import opened LedgerInvariant
  import opened LedgerWrites
  import opened Protocol
  import opened ProtocolInvariant
  import opened ProtocolTheorems

  /** The second version of a loan, written by the record `rec` of a partial collection, shows the
      fee-first remainder exactly if its message carried the loan's whole fee as unpaid: the first
      version's fee if the read of that version succeeded, 0 if it failed. */
  predicate FeeIff(first: UnpaidDoc, second: UnpaidDoc, rec: Collection) {
    rec.kind == Partial ==>
      (second.fee == TrueFee(first, second)
       <==> rec.fee == (if second.version == first.version + 1 then first.fee else 0.0))
  }

  ghost predicate SecondFee(db: Db, l: LoanId) {
    l in db.unpaid && |db.unpaid[l]| >= 2 ==>
      var docs := db.unpaid[l];
      && docs[1].last.Some? && docs[1].last.value < |db.collections|
      && FeeIff(docs[0], docs[1], db.collections[docs[1].last.value])
  }

  /** The first two versions, but for their openness, and every record are still there. */
  ghost predicate KeepsPast(db: Db, db': Db, l: LoanId) {
    && db.collections <= db'.collections
    && (l in db'.unpaid && |db'.unpaid[l]| >= 2 ==>
          && l in db.unpaid && |db.unpaid[l]| >= 2
          && forall k :: 0 <= k < 2 ==> db'.unpaid[l][k] == db.unpaid[l][k].(open := db'.unpaid[l][k].open))
  }

  lemma PastKept(db: Db, db': Db, l: LoanId)
    requires SecondFee(db, l) && KeepsPast(db, db', l)
    ensures SecondFee(db', l)
  {
  }

  // ----- one step -----

  /** The first post of a loan. */
  lemma FirstPost(db: Db, msg: Msg, now: Time, readOk: bool, q: nat, stale: set<LoanId>)
    requires LedgerInv(db, q) && VersionInv(db, stale) && Fits(db, msg, readOk, q)
    requires Post(db, msg, now).Some? && |db.unpaid[msg.loanId]| == 1
    ensures SecondFee(Post(db, msg, now).value, msg.loanId)
  {
    hide LedgerInv;
    var db' := Post(db, msg, now).value;
    match msg.kind
    case Partial =>
      StoredFeeRightIff(db, msg, now, readOk, q);
      PartialShape(db, msg, now, readOk, q);
      var rec := PartialRecord(msg, msg.unpaid - msg.amount, now);
      ExtendScope(db, db', msg.loanId, PartialUnpaidDoc(msg, rec, |db.collections|), rec);
      assert db.unpaid[msg.loanId][0].version >= 1;
    case Full =>
      FullShape(db, msg, now, readOk, q);
      var rec := FullRecord(msg, now);
      ExtendScope(db, db', msg.loanId, FullUnpaidDoc(msg, rec, |db.collections|), rec);
  }

  lemma LaterPost(db: Db, msg: Msg, now: Time, readOk: bool, q: nat, l: LoanId)
    requires LedgerInv(db, q) && Fits(db, msg, readOk, q) && Post(db, msg, now).Some?
    requires l != msg.loanId || |db.unpaid[msg.loanId]| >= 2
    ensures KeepsPast(db, Post(db, msg, now).value, l)
  {
    hide LedgerInv;
    match msg.kind
    case Partial =>
      PartialShape(db, msg, now, readOk, q);
    case Full =>
      FullShape(db, msg, now, readOk, q);
  }

  lemma WorkKeepsFee(w: World, e: Event, q: nat, l: LoanId)
    requires Inv(w, q) && Enabled(w, e, q) && e.Work? && SecondFee(w.db, l)
    ensures SecondFee(Next(w, e, q).db, l)
  {
    hide LedgerInv, VersionInv, Post, SecondFee, FailureRecord, Fits;
    var f := w.flights[e.id];
    if e.step.PostDone? {
      PostingFits(w, e, q);
      if l == f.msg.loanId && |w.db.unpaid[l]| == 1 {
        FirstPost(w.db, f.msg, e.now, f.readOk, q, w.stale);
      } else {
        LaterPost(w.db, f.msg, e.now, f.readOk, q, l);
        PastKept(w.db, Next(w, e, q).db, l);
      }
    } else {
      PastKept(w.db, Next(w, e, q).db, l);
    }
  }

  lemma PostingFits(w: World, e: Event, q: nat)
    requires Inv(w, q) && Enabled(w, e, q) && e.Work? && e.step.PostDone?
    ensures var f := w.flights[e.id];
            && Fits(w.db, f.msg, f.readOk, q) && Post(w.db, f.msg, e.now).Some?
            && f.msg.loanId in w.db.unpaid && w.db.unpaid[f.msg.loanId] != []
  {
    hide LedgerInv, Post;
    StepDiscipline(w.flights[e.id].phase, e.step);
    assert FlightInv(w, e.id, q);
  }

  lemma StepKeepsFee(w: World, e: Event, q: nat, l: LoanId)
    requires Inv(w, q) && Enabled(w, e, q) && SecondFee(w.db, l)
    ensures SecondFee(Next(w, e, q).db, l)
  {
    hide LedgerInv, VersionInv, ControlInv, CollectionRules, SecondFee;
    if e.Work? {
      WorkKeepsFee(w, e, q, l);
    } else {
      if e.Collect? {
        CollectionFits(w.db, w.producer.m, e.cfg, e.wallet, e.readOk, e.repairOk, e.id, e.meta, q);
      }
      PastKept(w.db, Next(w, e, q).db, l);
    }
  }

  lemma {:induction false} RunKeepsFee(ws: seq<World>, es: seq<Event>, q: nat, l: LoanId, n: nat)
    requires Run(ws, es, q) && n <= |es|
    ensures SecondFee(ws[n].db, l)
  {
    hide Inv, Enabled, Next, SecondFee;
    if n == 0 {
      assert SecondFee(ws[0].db, l) by { NoLoans(ws[0], l); }
    } else {
      RunKeepsFee(ws, es, q, l, n - 1);
      RunKeepsInv(ws, es, q, n - 1);
      StepKeepsFee(ws[n - 1], es[n - 1], q, l);
    }
  }

  lemma NoLoans(w: World, l: LoanId)
    requires Init(w)
    ensures SecondFee(w.db, l)
  {
  }

  // ----- the theorem -----

  /** Over any run: for a loan opened with its whole fee unpaid, the version its first partial
      collection wrote shows the fee-first remainder if the message came from a successful read;
      in general exactly if that message carried the whole fee. */
  lemma SecondVersionFeeRightIff(w: World, q: nat, l: LoanId)
    requires Reachable(w, q) && l in w.db.unpaid && |w.db.unpaid[l]| >= 2
    ensures var docs := w.db.unpaid[l];
            && docs[1].last.Some? && docs[1].last.value < |w.db.collections|
            && var rec := w.db.collections[docs[1].last.value];
            && FeeIff(docs[0], docs[1], rec)
            && (rec.kind == Partial && docs[0].fee == rec.fee && docs[1].version == docs[0].version + 1 ==>
                  docs[1].fee == TrueFee(docs[0], docs[1]))
  {
    var ws, es :| Run(ws, es, q) && w == ws[|es|];
    RunKeepsFee(ws, es, q, l, |es|);
  }
}
