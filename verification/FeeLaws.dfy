/** How every stored service fee came about, over whole runs. */
module FeeLaws {
  import opened Numbers
  import opened Deduction
  import opened Ledger
  import opened LedgerInvariant
  import opened LedgerWrites
  import opened LedgerContents
  import opened Protocol
  import opened ProtocolInvariant
  import opened FeeTheorems

  /** Unpaid fee the message behind version k carried: that of the version before it, or 0 after a
      failed read, which also breaks the numbering. */
  function Carried(docs: seq<UnpaidDoc>, k: nat): real
    requires 1 <= k < |docs|
  {
    if docs[k].version == docs[k - 1].version + 1 then docs[k - 1].fee else 0.0
  }

  /** Version k stores the carried fee less the whole fee collected so far by its record's reckoning,
      and a total only if it closed the loan. */
  ghost predicate FeeLaw(docs: seq<UnpaidDoc>, cs: seq<Collection>, k: nat)
    requires 1 <= k < |docs|
  {
    && docs[k].last.Some? && docs[k].last.value < |cs|
    && var rec := cs[docs[k].last.value];
    && rec.collectedFee == rec.fee - (if rec.kind == Full then 0.0 else Max(0.0, Carried(docs, k) - rec.collected))
    && docs[k].fee == Carried(docs, k) - rec.collectedFee
    && docs[k].loanTotal == (if rec.kind == Full then docs[0].loanTotal else 0.0)
  }

  ghost predicate Lawful(db: Db, l: LoanId) {
    l in db.unpaid ==>
      var docs := db.unpaid[l];
      && (forall k :: 0 <= k < |docs| ==> docs[k].version >= 1)
      && (forall k :: 1 <= k < |docs| ==> FeeLaw(docs, db.collections, k))
  }

  /** Versions and records already there are kept, but for their openness. */
  ghost predicate Extended(docs: seq<UnpaidDoc>, docs': seq<UnpaidDoc>, cs: seq<Collection>, cs': seq<Collection>) {
    && cs <= cs' && |docs| <= |docs'|
    && forall k :: 0 <= k < |docs| ==> docs'[k] == docs[k].(open := docs'[k].open)
  }

  lemma LawKept(docs: seq<UnpaidDoc>, docs': seq<UnpaidDoc>, cs: seq<Collection>, cs': seq<Collection>, k: nat)
    requires Extended(docs, docs', cs, cs') && 1 <= k < |docs| && FeeLaw(docs, cs, k)
    ensures FeeLaw(docs', cs', k)
  {
  }

  lemma AllKept(db: Db, db': Db, l: LoanId)
    requires Lawful(db, l) && db.collections <= db'.collections
    requires l in db'.unpaid && l in db.unpaid && db'.unpaid[l] == db.unpaid[l]
    ensures Lawful(db', l)
  {
    hide FeeLaw;
    forall k | 1 <= k < |db.unpaid[l]|
      ensures FeeLaw(db'.unpaid[l], db'.collections, k)
    {
      LawKept(db.unpaid[l], db'.unpaid[l], db.collections, db'.collections, k);
    }
  }

  /** A post adds a lawful version. */
  lemma PostKeepsLaw(db: Db, msg: Msg, now: Time, readOk: bool, q: nat)
    requires LedgerInv(db, q) && Fits(db, msg, readOk, q) && Post(db, msg, now).Some? && Lawful(db, msg.loanId)
    ensures Lawful(Post(db, msg, now).value, msg.loanId)
  {
    hide LedgerInv, Post, FeeLaw;
    var db' := Post(db, msg, now).value;
    PostExtends(db, msg, now, readOk, q);
    var docs, docs' := db.unpaid[msg.loanId], db'.unpaid[msg.loanId];
    forall k | 1 <= k < |docs'|
      ensures FeeLaw(docs', db'.collections, k)
    {
      if k < |docs| {
        LawKept(docs, docs', db.collections, db'.collections, k);
      } else {
        NewVersionIsLawful(db, msg, now, readOk, q);
      }
    }
  }

  lemma PostExtends(db: Db, msg: Msg, now: Time, readOk: bool, q: nat)
    requires LedgerInv(db, q) && Fits(db, msg, readOk, q) && Post(db, msg, now).Some? && Lawful(db, msg.loanId)
    ensures var db' := Post(db, msg, now).value;
            && msg.loanId in db'.unpaid && |db'.unpaid[msg.loanId]| == |db.unpaid[msg.loanId]| + 1
            && Extended(db.unpaid[msg.loanId], db'.unpaid[msg.loanId], db.collections, db'.collections)
            && (forall k :: 0 <= k < |db'.unpaid[msg.loanId]| ==> db'.unpaid[msg.loanId][k].version >= 1)
  {
    hide LedgerInv, FeeLaw;
    if msg.kind == Partial {
      PartialShape(db, msg, now, readOk, q);
    } else {
      FullShape(db, msg, now, readOk, q);
    }
  }

  lemma NewVersionIsLawful(db: Db, msg: Msg, now: Time, readOk: bool, q: nat)
    requires LedgerInv(db, q) && Fits(db, msg, readOk, q) && Post(db, msg, now).Some? && Lawful(db, msg.loanId)
    ensures var db' := Post(db, msg, now).value;
            && msg.loanId in db'.unpaid && |db'.unpaid[msg.loanId]| == |db.unpaid[msg.loanId]| + 1
            && FeeLaw(db'.unpaid[msg.loanId], db'.collections, |db.unpaid[msg.loanId]|)
  {
    hide LedgerInv, Post;
    PostExtends(db, msg, now, readOk, q);
    TotalAgrees(db, msg, readOk, q);
    if msg.kind == Partial {
      PartialContents(db, msg, now, readOk, q);
    } else {
      FullContents(db, msg, now, readOk, q);
    }
  }

  lemma TotalAgrees(db: Db, msg: Msg, readOk: bool, q: nat)
    requires LedgerInv(db, q) && Fits(db, msg, readOk, q)
    ensures db.unpaid[msg.loanId][0].loanTotal == msg.total
  {
    hide HistoryInv, RecordInv, ClosedInv;
    assert ActiveInv(db, msg.msisdn);
  }

  // ----- one step -----

  lemma WorkKeepsLaw(w: World, e: Event, q: nat, l: LoanId)
    requires Inv(w, q) && Enabled(w, e, q) && e.Work? && Lawful(w.db, l)
    ensures Lawful(Next(w, e, q).db, l)
  {
    hide LedgerInv, VersionInv, ControlInv, Post, Lawful, FailureRecord, Fits;
    var db' := Next(w, e, q).db;
    var f := w.flights[e.id];
    if e.step.PostDone? {
      PostingFits(w, e, q);
      if l == f.msg.loanId {
        PostKeepsLaw(w.db, f.msg, e.now, f.readOk, q);
      } else {
        PostScope(w.db, f.msg, e.now, f.readOk, q);
        OthersLawful(w.db, db', l);
      }
    } else {
      OthersLawful(w.db, db', l);
    }
  }

  lemma OthersLawful(db: Db, db': Db, l: LoanId)
    requires Lawful(db, l) && db.collections <= db'.collections
    requires l in db'.unpaid ==> l in db.unpaid && db'.unpaid[l] == db.unpaid[l]
    ensures Lawful(db', l)
  {
    if l in db'.unpaid { AllKept(db, db', l); }
  }

  lemma StepKeepsLaw(w: World, e: Event, q: nat, l: LoanId)
    requires Inv(w, q) && Enabled(w, e, q) && Lawful(w.db, l)
    ensures Lawful(Next(w, e, q).db, l)
  {
    hide LedgerInv, VersionInv, ControlInv, CollectionRules, Lawful;
    if e.Work? {
      WorkKeepsLaw(w, e, q, l);
    } else if e.OpenLoan? {
      if l == e.loan.id { assert Lawful(Next(w, e, q).db, l) by { FirstIsLawful(w, e, q); } }
      else { OthersLawful(w.db, Next(w, e, q).db, l); }
    } else {
      if e.Collect? {
        CollectionFits(w.db, w.producer.m, e.cfg, e.wallet, e.readOk, e.repairOk, e.id, e.meta, q);
      }
      OthersLawful(w.db, Next(w, e, q).db, l);
    }
  }

  lemma FirstIsLawful(w: World, e: Event, q: nat)
    requires e.OpenLoan? && Enabled(w, e, q)
    ensures Lawful(Next(w, e, q).db, e.loan.id)
  {
  }

  lemma {:induction false} RunKeepsLaw(ws: seq<World>, es: seq<Event>, q: nat, l: LoanId, n: nat)
    requires Run(ws, es, q) && n <= |es|
    ensures Lawful(ws[n].db, l)
  {
    hide Inv, Enabled, Next, FeeLaw;
    if n > 0 {
      RunKeepsLaw(ws, es, q, l, n - 1);
      RunKeepsInv(ws, es, q, n - 1);
      StepKeepsLaw(ws[n - 1], es[n - 1], q, l);
    }
  }

  // ----- the theorems -----

  /** Over any run every version a collection wrote stores the fee its message carried less the
      fee collected so far, not less what this collection took. */
  lemma EveryVersionFee(w: World, q: nat, l: LoanId, k: nat)
    requires Reachable(w, q) && l in w.db.unpaid && 1 <= k < |w.db.unpaid[l]|
    ensures FeeLaw(w.db.unpaid[l], w.db.collections, k)
  {
    var ws, es :| Run(ws, es, q) && w == ws[|es|];
    RunKeepsLaw(ws, es, q, l, |es|);
  }

  /** The last version of a closed loan shows the loan's total, and fee 0 exactly if the closing
      message carried the whole fee as unpaid. */
  lemma ClosingFee(w: World, q: nat, l: LoanId)
    requires Reachable(w, q) && l in w.db.closed && l in w.db.unpaid && |w.db.unpaid[l]| >= 2
    ensures var docs := w.db.unpaid[l]; var n := |docs| - 1;
            && docs[n].last.Some? && docs[n].last.value < |w.db.collections|
            && var rec := w.db.collections[docs[n].last.value];
            && rec.kind == Full && docs[n].loanTotal == docs[0].loanTotal
            && docs[n].fee == Carried(docs, n) - rec.fee
            && (docs[n].fee == 0.0 <==> Carried(docs, n) == rec.fee)
  {
    hide ControlInv, VersionInv, ActiveInv, Carried;
    var n := |w.db.unpaid[l]| - 1;
    EveryVersionFee(w, q, l, n);
    ReachableInv(w, q);
    assert ClosedInv(w.db, l) && HistoryInv(w.db, l);
    assert Backed(w.db.collections, l, w.db.unpaid[l][n]);
    assert RecordInv(w.db, w.db.unpaid[l][n].last.value, q);
  }
}
