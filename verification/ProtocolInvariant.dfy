/** The inductive invariant of the repayment protocol and its preservation by every step. */
module ProtocolInvariant {
  import opened Numbers
  import opened Deduction
  import opened Ledger
  import opened LedgerInvariant
  import opened LedgerWrites
  import opened Protocol
  import W = WorkerSteps

  ghost predicate ProducerInv(w: World, q: nat) {
    && (w.producer.Checked? ==> w.locks[w.producer.m] == 0)
    && (forall m :: HeldByProducer(w.producer, m) ==> w.locks[m] == 1)
    && (w.producer.Publishing? ==>
          w.producer.msg.id !in w.flights && Fits(w.db, w.producer.msg, w.producer.readOk, q))
  }

  /** A message that may still be posted fits the ledger as it is now. */
  predicate Unposted(p: W.Phase) {
    W.Live(p) && !W.HasPosted(p)
  }

  ghost predicate FlightInv(w: World, id: MsgId, q: nat)
    requires id in w.flights
  {
    var f := w.flights[id];
    && f.msg.id == id
    && (W.Live(f.phase) ==> w.locks[f.msg.msisdn] == 1 && !HeldByProducer(w.producer, f.msg.msisdn))
    && (Unposted(f.phase) ==> Fits(w.db, f.msg, f.readOk, q))
  }

  ghost predicate OneLivePerSubscriber(w: World) {
    forall i, j :: i in w.flights && j in w.flights && i != j
                   && W.Live(w.flights[i].phase) && W.Live(w.flights[j].phase)
      ==> w.flights[i].msg.msisdn != w.flights[j].msg.msisdn
  }

  /** Success records a message has left so far. */
  function Expected(w: World, id: MsgId): nat {
    if id in w.flights && W.HasPosted(w.flights[id].phase) then 1 else 0
  }

  ghost predicate PostedOnce(w: World) {
    forall id :: PostsOf(w.db.collections, id) == Expected(w, id)
  }

  /** Locks, phases and messages in flight. */
  ghost predicate ControlInv(w: World, q: nat) {
    && (forall m :: w.locks[m] <= 1)
    && ProducerInv(w, q)
    && (forall id :: id in w.flights ==> FlightInv(w, id, q))
    && OneLivePerSubscriber(w)
    && PostedOnce(w)
  }

  /** The ledger stores. */
  ghost predicate StoresInv(w: World, q: nat) {
    && LedgerInv(w.db, q)
    && VersionInv(w.db, w.stale)
    && w.stale <= w.db.unpaid.Keys
  }

  ghost predicate Inv(w: World, q: nat) {
    StoresInv(w, q) && ControlInv(w, q)
  }

  // ----- a ledger write that leaves a message fitting -----

  /** Writes outside `m` keep what messages of other subscribers rely on. */
  ghost predicate Leaves(db: Db, db': Db, m: Msisdn, l: LoanId) {
    && (forall n :: n in db.loans && n != m ==> n in db'.loans && db'.loans[n] == db.loans[n])
    && (forall k :: k in db.unpaid && k != l ==> k in db'.unpaid && db'.unpaid[k] == db.unpaid[k])
  }

  lemma FitsKept(db: Db, db': Db, m: Msisdn, l: LoanId, msg: Msg, readOk: bool, q: nat)
    requires Fits(db, msg, readOk, q) && Leaves(db, db', m, l)
    requires msg.msisdn != m && msg.loanId != l
    ensures Fits(db', msg, readOk, q)
  {
  }

  // ----- producer steps -----

  lemma FindOpenIsLast(docs: seq<UnpaidDoc>)
    requires docs != [] && Last(docs).open
    requires forall k :: 0 <= k < |docs| - 1 ==> !docs[k].open
    ensures FindOpen(docs) == Some(Last(docs))
  {
  }

  /** The message the producer builds fits the ledger it leaves. */
  lemma CollectionFits(db: Db, m: Msisdn, cfg: Config, wallet: int,
                       readOk: bool, repairOk: bool, id: MsgId, meta: Meta, q: nat)
    requires LedgerInv(db, q) && cfg.minAmount >= q as real
    ensures var (db', outcome) := CollectionRules(db, m, cfg, wallet, readOk, repairOk, id, meta);
            && LedgerInv(db', q)
            && db'.unpaid == db.unpaid && db'.collections == db.collections && db'.closed == db.closed
            && db'.loans.Keys == db.loans.Keys
            && (forall n :: n in db.loans && n != m ==> db'.loans[n] == db.loans[n])
            && !outcome.Ignore?
            && (outcome.Send? ==> Fits(db', outcome.msg, outcome.readOk, q)
                                  && outcome.msg.msisdn == m && outcome.msg.id == id)
  {
    hide LedgerInv;
    if m in db.loans && Whole(db.loans[m].total) {
      ReadOpenIsLast(db, m, readOk, q);
      var read := ReadOpen(db, db.loans[m].id, readOk);
      var loan := TotalUnpaid(db.loans[m], read, repairOk);
      if loan.Some? {
        RepairedBalance(db, m, read, repairOk, q);
        RepairKeeps(db, m, loan.value, q);
        DecidedFits(db, m, loan.value, read, cfg, wallet, id, meta, q);
      }
    }
  }

  lemma DecidedFits(db: Db, m: Msisdn, loan: Loan, read: Option<UnpaidDoc>, cfg: Config, wallet: int,
                    id: MsgId, meta: Meta, q: nat)
    requires m in db.loans && HasVersions(db, db.loans[m].id) && Repaired(db, m, loan)
    requires loan.unpaid == Last(db.unpaid[db.loans[m].id]).unpaid
    requires read.Some? ==> read.value == Last(db.unpaid[db.loans[m].id])
    requires cfg.minAmount >= q as real && Whole(loan.total)
    ensures var outcome := Decided(m, loan, read, cfg, wallet, id, meta);
            && !outcome.Ignore?
            && (outcome.Send? ==> Fits(SetLoan(db, m, loan), outcome.msg, outcome.readOk, q)
                                  && outcome.msg.msisdn == m && outcome.msg.id == id)
  {
    TakenAmount(cfg, wallet, loan, q);
  }

  lemma ReadOpenIsLast(db: Db, m: Msisdn, readOk: bool, q: nat)
    requires LedgerInv(db, q) && m in db.loans
    ensures HasVersions(db, db.loans[m].id)
    ensures var read := ReadOpen(db, db.loans[m].id, readOk);
            read.Some? ==> read.value == Last(db.unpaid[db.loans[m].id])
  {
    assert ActiveInv(db, m) && HistoryInv(db, db.loans[m].id);
    FindOpenIsLast(db.unpaid[db.loans[m].id]);
  }

  lemma RepairedBalance(db: Db, m: Msisdn, read: Option<UnpaidDoc>, repairOk: bool, q: nat)
    requires LedgerInv(db, q) && m in db.loans && HasVersions(db, db.loans[m].id)
    requires read.Some? ==> read.value == Last(db.unpaid[db.loans[m].id])
    ensures var loan := TotalUnpaid(db.loans[m], read, repairOk);
            loan.Some? ==> Repaired(db, m, loan.value)
                           && loan.value.unpaid == Last(db.unpaid[db.loans[m].id]).unpaid
  {
  }

  /** The amount of a published collection, from the deduction formula. */
  lemma TakenAmount(cfg: Config, wallet: int, loan: Loan, q: nat)
    requires loan.rate >= 0.0 && cfg.minAmount >= q as real
    ensures ConversionRate(loan, cfg).Some? ==>
              var d := Decide(cfg.maxPercent, wallet as real, cfg.minAmount, loan.unpaid, loan.rate,
                              ConversionRate(loan, cfg).value);
              && !d.Nothing?
              && (d.Take? && d.kind == Full ==> d.amount == loan.unpaid)
              && (d.Take? && d.kind == Partial ==> q as real <= d.amount < loan.unpaid && Whole(d.amount))
  {
    if loan.rate > 0.0 {
      DeductionIsOptimal(cfg.maxPercent, wallet as real, cfg.minAmount, loan.unpaid, loan.rate);
      FloorMonotone(q as real, cfg.minAmount);
    }
  }

  lemma CollectKeepsControl(w: World, e: Event, q: nat)
    requires Inv(w, q) && e.Collect? && Enabled(w, e, q)
    ensures ControlInv(Next(w, e, q), q)
  {
    hide LedgerInv;
    var w' := Next(w, e, q);
    CollectionFits(w.db, w.producer.m, e.cfg, e.wallet, e.readOk, e.repairOk, e.id, e.meta, q);
    assert HeldByProducer(w.producer, w.producer.m);
    var (db', outcome) := CollectionRules(w.db, w.producer.m, e.cfg, e.wallet, e.readOk, e.repairOk, e.id, e.meta);
    ReplanKeepsControl(w, w', q);
  }

  /** The producer changes its own plan and its own subscriber's loan, nothing else. */
  lemma ReplanKeepsControl(w: World, w': World, q: nat)
    requires ControlInv(w, q)
    requires w'.flights == w.flights && w'.locks == w.locks && w'.db.collections == w.db.collections
    requires w.producer.Holding? && (forall m :: HeldByProducer(w'.producer, m) ==> HeldByProducer(w.producer, m))
    requires !w'.producer.Checked?
    requires w'.producer.Publishing? ==> w'.producer.msg.id !in w.flights
                                         && Fits(w'.db, w'.producer.msg, w'.producer.readOk, q)
    requires w'.db.unpaid == w.db.unpaid
    requires forall n :: n in w.db.loans && n != w.producer.m ==> n in w'.db.loans && w'.db.loans[n] == w.db.loans[n]
    ensures ControlInv(w', q)
  {
  }

  lemma AdoptKeepsControl(w: World, e: Event, q: nat)
    requires ControlInv(w, q) && e.Adopt? && Enabled(w, e, q)
    ensures ControlInv(Next(w, e, q), q)
  {
  }

  lemma OpenLoanKeepsControl(w: World, e: Event, q: nat)
    requires ControlInv(w, q) && e.OpenLoan? && Enabled(w, e, q)
    ensures ControlInv(Next(w, e, q), q)
  {
  }

  /** Steps of the producer that touch at most the lock of its own subscriber. */
  lemma LockingKeepsControl(w: World, e: Event, q: nat)
    requires ControlInv(w, q) && Enabled(w, e, q)
    requires e.Check? || e.Create? || e.SkipEvent? || e.Delete?
    ensures ControlInv(Next(w, e, q), q)
  {
    hide Fits, FlightInv;
    var w' := Next(w, e, q);
    forall id | id in w'.flights
      ensures FlightInv(w', id, q)
    {
      assert FlightInv(w, id, q);
      LockingKeepsFlight(w, e, q, id);
    }
  }

  lemma LockingKeepsFlight(w: World, e: Event, q: nat, id: MsgId)
    requires ProducerInv(w, q) && Enabled(w, e, q) && id in w.flights && FlightInv(w, id, q)
    requires e.Check? || e.Create? || e.SkipEvent? || e.Delete?
    ensures FlightInv(Next(w, e, q), id, q)
  {
  }

  lemma PublishKeepsControl(w: World, e: Event, q: nat)
    requires ControlInv(w, q) && e.Publish? && Enabled(w, e, q)
    ensures ControlInv(Next(w, e, q), q)
  {
    hide Fits;
    var w' := Next(w, e, q);
    var msg := w.producer.msg;
    assert HeldByProducer(w.producer, msg.msisdn);
    forall id | id in w'.flights
      ensures FlightInv(w', id, q)
    {
      if id in w.flights { assert FlightInv(w, id, q); }
    }
    forall i | i in w.flights && W.Live(w.flights[i].phase)
      ensures w.flights[i].msg.msisdn != msg.msisdn
    {
      assert FlightInv(w, i, q);
    }
  }

  lemma ProducerKeepsStores(w: World, e: Event, q: nat)
    requires StoresInv(w, q) && !e.Work? && Enabled(w, e, q)
    ensures StoresInv(Next(w, e, q), q)
  {
    hide LedgerInv;
    var w' := Next(w, e, q);
    if e.OpenLoan? {
      OpenKeeps(w.db, e.m, e.loan, e.first, q);
      assert Consecutive([e.first]);
    } else if e.Adopt? {
      AdoptKeepsLedger(w.db, w.producer.m, e.rate, q);
    } else if e.Collect? {
      CollectionFits(w.db, w.producer.m, e.cfg, e.wallet, e.readOk, e.repairOk, e.id, e.meta, q);
    } else {
      assert w'.db == w.db && w'.stale == w.stale;
    }
  }

  lemma AdoptKeepsLedger(db: Db, m: Msisdn, rate: real, q: nat)
    requires LedgerInv(db, q) && m in db.loans && rate >= 0.0
    ensures LedgerInv(SetLoan(db, m, db.loans[m].(rate := rate)), q)
  {
    assert ActiveInv(db, m);
    RepairKeeps(db, m, db.loans[m].(rate := rate), q);
  }

  // ----- worker steps -----

  /** Phase by phase: only a live handler touches the ledger or the lock, and only Post posts. */
  lemma StepDiscipline(p: W.Phase, s: W.Step)
    requires W.NextPhase(p, s).Some?
    ensures var p' := W.NextPhase(p, s).value;
            && (W.Live(p') ==> W.Live(p))
            && (s.Released? ==> W.Live(p) && !W.Live(p'))
            && (s.PostDone? <==> !W.HasPosted(p) && W.HasPosted(p'))
            && (W.HasPosted(p) ==> W.HasPosted(p'))
            && (Unposted(p') ==> Unposted(p))
            && (s.PostDone? || s.WalletUnknown? || s.WalletRefused? || s.UsageNoBucket? ==> Unposted(p))
  {
  }

  /** What a worker step does to the ledger, given that its message fits where it matters. */
  lemma EffectKeepsLedger(db: Db, f: Flight, s: W.Step, now: Time, q: nat, stale: set<LoanId>)
    requires LedgerInv(db, q) && VersionInv(db, stale)
    requires s.PostDone? || s.WalletUnknown? || s.WalletRefused? || s.UsageNoBucket? ==> Fits(db, f.msg, f.readOk, q)
    requires s.PostDone? ==> Post(db, f.msg, now).Some?
    ensures var db' := W.LedgerEffect(db, f.msg, s, now);
            && LedgerInv(db', q)
            && VersionInv(db', if s.PostDone? && !f.readOk then stale + {f.msg.loanId} else stale)
            && db'.unpaid.Keys == db.unpaid.Keys
            && (s.PostDone? ==> f.msg.loanId in db.unpaid)
            && Leaves(db, db', f.msg.msisdn, f.msg.loanId)
            && (!s.PostDone? ==> db'.loans == db.loans && db'.unpaid == db.unpaid)
  {
    hide LedgerInv;
    if s.PostDone? {
      assert W.LedgerEffect(db, f.msg, s, now) == Post(db, f.msg, now).value;
      PostEffect(db, f, now, q, stale);
    } else {
      OtherEffect(db, f, s, now, q, stale);
    }
  }

  lemma OtherEffect(db: Db, f: Flight, s: W.Step, now: Time, q: nat, stale: set<LoanId>)
    requires LedgerInv(db, q) && VersionInv(db, stale) && !s.PostDone?
    requires s.WalletUnknown? || s.WalletRefused? || s.UsageNoBucket? ==> Fits(db, f.msg, f.readOk, q)
    ensures var db' := W.LedgerEffect(db, f.msg, s, now);
            && LedgerInv(db', q) && VersionInv(db', stale)
            && db'.loans == db.loans && db'.unpaid == db.unpaid
            && Leaves(db, db', f.msg.msisdn, f.msg.loanId)
  {
    hide LedgerInv;
    match s
    case WalletUnknown(recorded, _) => RecordEffect(db, f.msg, f.readOk, recorded, W.UNKNOWN_RESPONSE, now, q, stale);
    case WalletRefused(recorded, text, _, _) => RecordEffect(db, f.msg, f.readOk, recorded, text, now, q, stale);
    case UsageNoBucket(recorded) => RecordEffect(db, f.msg, f.readOk, recorded, W.MISSING_BUCKET, now, q, stale);
    case _ =>
  }

  lemma PostEffect(db: Db, f: Flight, now: Time, q: nat, stale: set<LoanId>)
    requires LedgerInv(db, q) && VersionInv(db, stale) && Fits(db, f.msg, f.readOk, q)
    requires Post(db, f.msg, now).Some?
    ensures var db' := Post(db, f.msg, now).value;
            && LedgerInv(db', q)
            && VersionInv(db', if f.readOk then stale else stale + {f.msg.loanId})
            && db'.unpaid.Keys == db.unpaid.Keys
            && Leaves(db, db', f.msg.msisdn, f.msg.loanId)
  {
    hide LedgerInv;
    PostKeeps(db, f.msg, now, f.readOk, q);
    PostScope(db, f.msg, now, f.readOk, q);
    PostVersion(db, f.msg, now, f.readOk, q, stale);
  }

  lemma RecordEffect(db: Db, msg: Msg, readOk: bool, recorded: bool, text: string, now: Time,
                     q: nat, stale: set<LoanId>)
    requires LedgerInv(db, q) && VersionInv(db, stale) && Fits(db, msg, readOk, q)
    ensures var db' := W.Record(db, msg, recorded, text, now);
            && LedgerInv(db', q) && VersionInv(db', stale)
            && db'.loans == db.loans && db'.unpaid == db.unpaid
            && Leaves(db, db', msg.msisdn, msg.loanId)
  {
    hide LedgerInv;
    FailureKeeps(db, msg, readOk, text, now, q);
  }

  lemma EffectCounts(db: Db, msg: Msg, s: W.Step, now: Time, id: MsgId)
    requires s.PostDone? ==> Post(db, msg, now).Some?
    ensures PostsOf(W.LedgerEffect(db, msg, s, now).collections, id)
            == PostsOf(db.collections, id) + (if s.PostDone? && msg.id == id then 1 else 0)
  {
    var none := W.LedgerEffect(db, msg, s, now).collections == db.collections;
    if s.PostDone? {
      PostAppends(db, msg, now, id);
    } else if !none {
      Append(db.collections, Last(W.LedgerEffect(db, msg, s, now).collections), 0, id);
    }
  }

  lemma PostAppends(db: Db, msg: Msg, now: Time, id: MsgId)
    requires Post(db, msg, now).Some?
    ensures PostsOf(Post(db, msg, now).value.collections, id)
            == PostsOf(db.collections, id) + (if msg.id == id then 1 else 0)
  {
  }

  lemma SubscribersHaveOwnLoans(db: Db, a: Msg, aOk: bool, b: Msg, bOk: bool, q: nat)
    requires LedgerInv(db, q) && Fits(db, a, aOk, q) && Fits(db, b, bOk, q) && a.msisdn != b.msisdn
    ensures a.loanId != b.loanId
  {
  }

  /** What a worker step is known to do to the stores. */
  ghost predicate Effect(w: World, e: Event, q: nat)
    requires e.Work? && e.id in w.flights && Enabled(w, e, q)
  {
    var f := w.flights[e.id];
    && Leaves(w.db, Next(w, e, q).db, f.msg.msisdn, f.msg.loanId)
    && (!e.step.PostDone? ==> Next(w, e, q).db.loans == w.db.loans && Next(w, e, q).db.unpaid == w.db.unpaid)
  }

  lemma WorkKeepsStores(w: World, e: Event, q: nat)
    requires StoresInv(w, q) && e.Work? && Enabled(w, e, q) && FlightInv(w, e.id, q)
    ensures StoresInv(Next(w, e, q), q) && Effect(w, e, q)
  {
    hide LedgerInv;
    var f := w.flights[e.id];
    StepDiscipline(f.phase, e.step);
    EffectKeepsLedger(w.db, f, e.step, e.now, q, w.stale);
  }

  lemma WorkKeepsFlight(w: World, e: Event, q: nat, id: MsgId)
    requires ControlInv(w, q) && e.Work? && Enabled(w, e, q) && Effect(w, e, q) && id in w.flights
    requires var f := w.flights[e.id]; var g := w.flights[id];
             e.step.PostDone? && id != e.id && Unposted(g.phase) ==> f.msg.loanId != g.msg.loanId
    ensures FlightInv(Next(w, e, q), id, q)
  {
    var f := w.flights[e.id];
    var g := w.flights[id];
    StepDiscipline(f.phase, e.step);
    assert FlightInv(w, e.id, q) && FlightInv(w, id, q);
    if id != e.id && e.step.PostDone? && Unposted(g.phase) {
      FitsKept(w.db, Next(w, e, q).db, f.msg.msisdn, f.msg.loanId, g.msg, g.readOk, q);
    }
  }

  lemma WorkKeepsProducer(w: World, e: Event, q: nat)
    requires ControlInv(w, q) && e.Work? && Enabled(w, e, q) && Effect(w, e, q)
    requires w.producer.Publishing? && e.step.PostDone? ==> w.flights[e.id].msg.loanId != w.producer.msg.loanId
    ensures ProducerInv(Next(w, e, q), q)
  {
    var f := w.flights[e.id];
    StepDiscipline(f.phase, e.step);
    assert FlightInv(w, e.id, q);
    if w.producer.Publishing? && e.step.PostDone? {
      var msg := w.producer.msg;
      assert HeldByProducer(w.producer, msg.msisdn);
      FitsKept(w.db, Next(w, e, q).db, f.msg.msisdn, f.msg.loanId, msg, w.producer.readOk, q);
    }
  }

  lemma WorkKeepsCounts(w: World, e: Event, q: nat)
    requires ControlInv(w, q) && e.Work? && Enabled(w, e, q)
    ensures PostedOnce(Next(w, e, q)) && OneLivePerSubscriber(Next(w, e, q))
    ensures forall m :: Next(w, e, q).locks[m] <= 1
  {
    var w' := Next(w, e, q);
    var f := w.flights[e.id];
    assert FlightInv(w, e.id, q);
    StepDiscipline(f.phase, e.step);
    forall id: MsgId
      ensures PostsOf(w'.db.collections, id) == Expected(w', id)
    {
      EffectCounts(w.db, f.msg, e.step, e.now, id);
    }
  }

  /** The loans a post must leave alone belong to other subscribers. */
  lemma OtherLoans(w: World, e: Event, q: nat)
    requires Inv(w, q) && e.Work? && Enabled(w, e, q) && e.step.PostDone?
    ensures forall id :: id in w.flights && id != e.id && Unposted(w.flights[id].phase)
              ==> w.flights[e.id].msg.loanId != w.flights[id].msg.loanId
    ensures w.producer.Publishing? ==> w.flights[e.id].msg.loanId != w.producer.msg.loanId
  {
    hide LedgerInv;
    var f := w.flights[e.id];
    assert FlightInv(w, e.id, q);
    forall id | id in w.flights && id != e.id && Unposted(w.flights[id].phase)
      ensures f.msg.loanId != w.flights[id].msg.loanId
    {
      assert FlightInv(w, id, q);
      SubscribersHaveOwnLoans(w.db, f.msg, f.readOk, w.flights[id].msg, w.flights[id].readOk, q);
    }
    if w.producer.Publishing? {
      assert HeldByProducer(w.producer, w.producer.msg.msisdn);
      SubscribersHaveOwnLoans(w.db, f.msg, f.readOk, w.producer.msg, w.producer.readOk, q);
    }
  }

  lemma WorkKeepsControl(w: World, e: Event, q: nat)
    requires Inv(w, q) && e.Work? && Enabled(w, e, q) && Effect(w, e, q)
    ensures ControlInv(Next(w, e, q), q)
  {
    hide LedgerInv;
    var w' := Next(w, e, q);
    if e.step.PostDone? { OtherLoans(w, e, q); }
    forall id | id in w'.flights
      ensures FlightInv(w', id, q)
    {
      WorkKeepsFlight(w, e, q, id);
    }
    WorkKeepsProducer(w, e, q);
    WorkKeepsCounts(w, e, q);
  }

  // ----- every step, every run -----

  lemma StepKeepsStores(w: World, e: Event, q: nat)
    requires Inv(w, q) && Enabled(w, e, q)
    ensures StoresInv(Next(w, e, q), q)
  {
    hide LedgerInv;
    if e.Work? {
      assert FlightInv(w, e.id, q);
      WorkKeepsStores(w, e, q);
    } else {
      ProducerKeepsStores(w, e, q);
    }
  }

  lemma StepKeepsControl(w: World, e: Event, q: nat)
    requires Inv(w, q) && Enabled(w, e, q)
    ensures ControlInv(Next(w, e, q), q)
  {
    hide LedgerInv;
    if e.OpenLoan? {
      OpenLoanKeepsControl(w, e, q);
    } else if e.Adopt? {
      AdoptKeepsControl(w, e, q);
    } else if e.Collect? {
      CollectKeepsControl(w, e, q);
    } else if e.Publish? {
      PublishKeepsControl(w, e, q);
    } else if e.Work? {
      assert FlightInv(w, e.id, q);
      WorkKeepsStores(w, e, q);
      WorkKeepsControl(w, e, q);
    } else {
      LockingKeepsControl(w, e, q);
    }
  }

  lemma EmptyLedger(q: nat)
    ensures LedgerInv(Db(map[], map[], [], map[]), q)
  {
  }

  lemma {:induction false} RunKeepsInv(ws: seq<World>, es: seq<Event>, q: nat, n: nat)
    requires Run(ws, es, q) && n <= |es|
    ensures Inv(ws[n], q)
  {
    hide LedgerInv;
    if n == 0 {
      EmptyLedger(q);
    } else {
      RunKeepsInv(ws, es, q, n - 1);
      StepKeepsStores(ws[n - 1], es[n - 1], q);
      StepKeepsControl(ws[n - 1], es[n - 1], q);
    }
  }

  lemma ReachableInv(w: World, q: nat)
    requires Reachable(w, q)
    ensures Inv(w, q)
  {
    var ws, es :| Run(ws, es, q) && w == ws[|es|];
    RunKeepsInv(ws, es, q, |es|);
  }
}
