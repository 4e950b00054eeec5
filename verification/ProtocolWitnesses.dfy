/** Collections can be carried through from every reachable state; and runs in which the version
    chain breaks and the stored fee comes out too low. */
module ProtocolWitnesses {
  import opened Numbers
  import opened Deduction
  import opened Ledger
  import opened LedgerInvariant
  import opened LedgerWrites
  import opened Protocol
  import opened ProtocolInvariant
  import opened HandlerRefinement
  import W = WorkerSteps

  /** What one event asks for. */
  datatype Promo = Promo(m: Msisdn, cfg: Config, wallet: int, readOk: bool, id: MsgId, meta: Meta)

  function Rules(db: Db, p: Promo): (Db, Outcome) {
    CollectionRules(db, p.m, p.cfg, p.wallet, p.readOk, true, p.id, p.meta)
  }

  /** The producer is free for the subscriber and the event leads to a message. */
  ghost predicate Ready(w: World, p: Promo, q: nat) {
    && w.producer.Idle? && w.locks[p.m] == 0 && p.id !in w.flights
    && p.cfg.minAmount >= q as real && Rules(w.db, p).1.Send?
  }

  function Sent(w: World, p: Promo): World
    requires Rules(w.db, p).1.Send?
  {
    var (db, outcome) := Rules(w.db, p);
    w.(db := db, locks := w.locks + multiset{p.m}, producer := Idle,
       flights := w.flights[p.id := Flight(outcome.msg, outcome.readOk, W.Queued)])
  }

  lemma SendGoesThrough(w: World, p: Promo, q: nat)
    requires Reachable(w, q) && Ready(w, p, q)
    ensures Reachable(Sent(w, p), q)
    ensures Rules(w.db, p).1.msg.id == p.id && Rules(w.db, p).1.msg.msisdn == p.m
  {
    hide Reachable, CollectionRules;
    var (db, outcome) := Rules(w.db, p);
    SentForSubscriber(w.db, p);
    var w1 := Produce(w, Checked(p.m));
    var w2 := w.(locks := w.locks + multiset{p.m}, producer := Holding(p.m));
    var w3 := w2.(db := db, producer := Publishing(outcome.msg, outcome.readOk));
    ReachableNext(w, Check(p.m, true), q);
    ReachableNext(w1, Create(true), q);
    ReachableNext(w2, Collect(p.cfg, p.wallet, p.readOk, true, p.id, p.meta), q);
    ReachableNext(w3, Publish(true), q);
  }

  lemma SentForSubscriber(db: Db, p: Promo)
    requires Rules(db, p).1.Send?
    ensures Rules(db, p).1.msg.id == p.id && Rules(db, p).1.msg.msisdn == p.m
  {
  }

  /** The world after a queued message was delivered, posted and acknowledged. */
  ghost function Collected(w: World, id: MsgId, now: Time): World
    requires id in w.flights && Post(w.db, w.flights[id].msg, now).Some?
  {
    var f := w.flights[id];
    World(Post(w.db, f.msg, now).value, w.locks - multiset{f.msg.msisdn}, w.producer,
          w.flights[id := f.(phase := W.Acked(true))],
          if f.readOk then w.stale else w.stale + {f.msg.loanId})
  }

  ghost function At(w: World, id: MsgId, p: W.Phase): World
    requires id in w.flights
  {
    w.(flights := w.flights[id := w.flights[id].(phase := p)])
  }

  lemma PostGoesThrough(w: World, id: MsgId, now: Time, q: nat)
    requires Reachable(w, q) && id in w.flights && w.flights[id].phase.Queued?
    requires Post(w.db, w.flights[id].msg, now).Some?
    ensures Reachable(Collected(w, id, now), q)
  {
    hide Reachable, Post, Fits, LedgerInv;
    var f := w.flights[id];
    DebitedAndPosted(w, id, now, q);
    var w1 := w.(db := Post(w.db, f.msg, now).value, stale := if f.readOk then w.stale else w.stale + {f.msg.loanId});
    PublishedAndReleased(w1, id, now, q);
  }

  lemma DebitedAndPosted(w: World, id: MsgId, now: Time, q: nat)
    requires Reachable(w, q) && id in w.flights && w.flights[id].phase.Queued?
    requires Post(w.db, w.flights[id].msg, now).Some?
    ensures var f := w.flights[id];
            var stale := if f.readOk then w.stale else w.stale + {f.msg.loanId};
            Reachable(At(w.(db := Post(w.db, f.msg, now).value, stale := stale), id, W.Posted), q)
  {
    hide Reachable, Post, At;
    AtOwnPhase(w, id);
    AtStep(w, id, W.Queued, W.Deliver, now, q);
    AtStep(w, id, W.Delivered, W.WalletOk, now, q);
    AtStep(w, id, W.Posting, W.PostDone, now, q);
  }

  lemma AtOwnPhase(w: World, id: MsgId)
    requires id in w.flights
    ensures At(w, id, w.flights[id].phase) == w
  {
    assert w.flights[id := w.flights[id]] == w.flights;
  }

  lemma PublishedAndReleased(w: World, id: MsgId, now: Time, q: nat)
    requires id in w.flights && Reachable(At(w, id, W.Posted), q)
    ensures Reachable(At(w.(locks := w.locks - multiset{w.flights[id].msg.msisdn}), id, W.Acked(true)), q)
  {
    hide Reachable, At, Post;
    AtStep(w, id, W.Posted, W.PublishDone, now, q);
    AtStep(w, id, W.Releasing(true), W.Released, now, q);
    AtStep(w.(locks := w.locks - multiset{w.flights[id].msg.msisdn}), id, W.Finishing(true), W.Finish, now, q);
  }

  lemma AtStep(w: World, id: MsgId, p: W.Phase, s: W.Step, now: Time, q: nat)
    requires id in w.flights && Reachable(At(w, id, p), q) && W.Enabled(w.db, w.flights[id].msg, p, s, now)
    ensures var f := w.flights[id];
            var stale := if s.PostDone? && !f.readOk then w.stale + {f.msg.loanId} else w.stale;
            var w' := World(W.LedgerEffect(w.db, f.msg, s, now), W.LockEffect(w.locks, f.msg.msisdn, s),
                            w.producer, w.flights, stale);
            Reachable(At(w', id, W.NextPhase(p, s).value), q)
  {
    hide Reachable;
    var f := w.flights[id];
    var p' := W.NextPhase(p, s).value;
    ReachableNext(At(w, id, p), Work(id, s, now), q);
    assert w.flights[id := f.(phase := p)][id := f.(phase := p')] == w.flights[id := f.(phase := p')];
  }

  /** The worker can decode the loan's newest version, and for a partial collection its fee. */
  predicate Decodable(db: Db, msg: Msg) {
    CanSupersede(db, msg.loanId) && (msg.kind == Partial ==> Whole(msg.fee))
  }

  /** A message that may still be posted can be, exactly when the worker can decode what it reads;
      otherwise the wallet is debited and no transaction ever commits. */
  lemma PostableIff(w: World, id: MsgId, now: Time, q: nat)
    requires Reachable(w, q) && id in w.flights && Unposted(w.flights[id].phase)
    ensures Post(w.db, w.flights[id].msg, now).Some? <==> Decodable(w.db, w.flights[id].msg)
  {
    hide LedgerInv, Post;
    ReachableInv(w, q);
    assert FlightInv(w, id, q);
    CurrentCommitsIff(w.db, w.flights[id].msg, now, w.flights[id].readOk, q);
  }

  /** From every reachable state: an event that finds no entry and leads to a message the worker
      can decode can be collected to the end; the ledger is then the transaction applied to what
      the producer left, and the entry is free again. */
  lemma CollectionGoesThrough(w: World, p: Promo, now: Time, q: nat) returns (w': World)
    requires Reachable(w, q) && Ready(w, p, q) && Decodable(Rules(w.db, p).0, Rules(w.db, p).1.msg)
    ensures Reachable(w', q)
    ensures var (db, outcome) := Rules(w.db, p);
            && Post(db, outcome.msg, now) == Some(w'.db)
            && w'.stale == (if outcome.readOk then w.stale else w.stale + {outcome.msg.loanId})
            && w'.locks == w.locks && w'.producer.Idle? && w'.flights.Keys == w.flights.Keys + {p.id}
  {
    hide Reachable, CollectionRules, Post;
    SendGoesThrough(w, p, q);
    PostableIff(Sent(w, p), p.id, now, q);
    PostGoesThrough(Sent(w, p), p.id, now, q);
    w' := Collected(Sent(w, p), p.id, now);
    assert w.locks + multiset{p.m} - multiset{p.m} == w.locks;
  }

  // ----- two runs -----

  const LOAN := SerializeLoans(5, 100.0, 10.0, 1.0, "guid")
  const FIRST := SerializeUnpaidLoans(100.0, 10.0)
  const META := Meta("guid", 0, "channel", "token")

  function Event4(readOk: bool, id: MsgId): Promo {
    Promo(0, Config(1.0, 1.0, None), 4, readOk, id, META)
  }

  const EMPTY := World(Db(map[], map[], [], map[]), multiset{}, Idle, map[], {})
  const OPENED := EMPTY.(db := Open(EMPTY.db, 0, LOAN, FIRST))

  lemma NothingRun()
    ensures Reachable(EMPTY, 1)
  {
    assert Run([EMPTY], [], 1) && [EMPTY][0] == EMPTY;
  }

  lemma LoanOpened()
    ensures Reachable(OPENED, 1)
  {
    NothingRun();
    NewLoanOpens(5, 100.0, 10.0, 1.0, "guid");
    ReachableNext(EMPTY, OpenLoan(0, LOAN, FIRST), 1);
  }

  /** 4 pesos collected from `balance`, with the version the producer read. */
  function FourPesos(id: MsgId, balance: real, doc: UnpaidDoc): Msg {
    BuildMsg(id, 0, Partial, 4.0, 4.0, LOAN.(unpaid := balance), doc, 4, META)
  }

  lemma RulesTakeFour(db: Db, readOk: bool, id: MsgId, balance: real)
    requires 0 in db.loans && db.loans[0] == LOAN.(unpaid := balance) && balance > 4.0
    requires Whole(100.0)
    ensures var read := ReadOpen(db, 5, readOk);
            Rules(db, Event4(readOk, id))
            == (db, Send(FourPesos(id, balance, if read.Some? then read.value else ZERO_DOC), read.Some?))
  {
    hide ReadOpen;
    FloorOf(4.0, 4);
    assert Decide(1.0, 4.0, 1.0, balance, 1.0, 1.0) == Take(Partial, 4.0, 4.0);
    assert SetLoan(db, 0, db.loans[0]) == db;
  }

  lemma PostFour(db: Db, id: MsgId, balance: real, doc: UnpaidDoc)
    requires db.loans == map[0 := LOAN.(unpaid := balance)] && CanSupersede(db, 5) && Whole(100.0) && Whole(10.0)
    ensures var after := Post(db, FourPesos(id, balance, doc), 0);
            && after.Some?
            && after.value.loans == map[0 := LOAN.(unpaid := balance - 4.0)]
            && after.value.unpaid == db.unpaid[5 :=
                 db.unpaid[5][|db.unpaid[5]| - 1 := Last(db.unpaid[5]).(open := false)]
                 + [UnpaidDoc(doc.version + 1, 0.0, balance - 4.0,
                              doc.fee - (10.0 - CalculateUnpaidServiceFee(4.0, doc.fee)), true,
                              Some(|db.collections|))]]
            && |after.value.collections| == |db.collections| + 1
  {
  }

  ghost predicate VersionRepeats(w: World, l: LoanId) {
    && l in w.db.unpaid && l in w.stale && !Consecutive(w.db.unpaid[l])
    && |w.db.unpaid[l]| == 2 && w.db.unpaid[l][0].version == w.db.unpaid[l][1].version == 1
  }

  /** Every message of the loan came from a successful read, and its newest version still shows
      less fee than is owed. */
  ghost predicate FeeTooLow(w: World, l: LoanId, owed: real, stored: real) {
    && l in w.db.unpaid && l !in w.stale && |w.db.unpaid[l]| == 3
    && TrueFee(w.db.unpaid[l][0], w.db.unpaid[l][2]) == owed && w.db.unpaid[l][2].fee == stored
  }

  /** A message built from a failed UnpaidLoans read is posted: both versions carry number 1. */
  lemma StaleReadBreaksVersions()
    ensures exists w :: Reachable(w, 1) && VersionRepeats(w, 5)
  {
    hide Reachable, CollectionRules, Post;
    LoanOpened();
    WholeNumbers();
    RulesTakeFour(OPENED.db, false, 1, 100.0);
    var w := CollectionGoesThrough(OPENED, Event4(false, 1), 0, 1);
    PostFour(OPENED.db, 1, 100.0, ZERO_DOC);
    var docs := w.db.unpaid[5];
    assert docs[0].version == 1 && docs[1].version == 1;
    assert docs[1].version != docs[0].version + 1;
    assert VersionRepeats(w, 5);
  }

  lemma FirstCollection() returns (w: World)
    ensures Reachable(w, 1) && w.producer.Idle? && w.locks[0] == 0 && 2 !in w.flights && w.stale == {}
    ensures w.db.loans == map[0 := LOAN.(unpaid := 96.0)] && |w.db.collections| == 1
    ensures w.db.unpaid == map[5 := [FIRST.(open := false), UnpaidDoc(2, 0.0, 96.0, 6.0, true, Some(0))]]
  {
    hide Reachable, CollectionRules, Post;
    LoanOpened();
    WholeNumbers();
    assert ReadOpen(OPENED.db, 5, true) == Some(FIRST);
    RulesTakeFour(OPENED.db, true, 1, 100.0);
    w := CollectionGoesThrough(OPENED, Event4(true, 1), 0, 1);
    PostFour(OPENED.db, 1, 100.0, FIRST);
    assert [FIRST][0 := FIRST.(open := false)] + [UnpaidDoc(2, 0.0, 96.0, 6.0, true, Some(0))]
        == [FIRST.(open := false), UnpaidDoc(2, 0.0, 96.0, 6.0, true, Some(0))];
  }

  lemma WholeNumbers()
    ensures Whole(0.0) && Whole(6.0) && Whole(10.0) && Whole(96.0) && Whole(100.0)
  {
    FloorOf(6.0, 6);
    FloorOf(10.0, 10);
    FloorOf(96.0, 96);
    FloorOf(100.0, 100);
  }

  /** Two partial collections of 4 pesos, both reads successful: 2 pesos of the fee are still
      owed, the store shows -2. */
  lemma SecondCollectionStoresFeeTooLow()
    ensures exists w :: Reachable(w, 1) && FeeTooLow(w, 5, 2.0, -2.0)
  {
    hide Reachable, CollectionRules, Post;
    var w1 := FirstCollection();
    var docs := w1.db.unpaid[5];
    SecondIsOpen(w1.db);
    WholeNumbers();
    RulesTakeFour(w1.db, true, 2, 96.0);
    var w := CollectionGoesThrough(w1, Event4(true, 2), 0, 1);
    PostFour(w1.db, 2, 96.0, docs[1]);
    assert FeeTooLow(w, 5, 2.0, -2.0);
  }

  lemma SecondIsOpen(db: Db)
    requires db.unpaid == map[5 := [FIRST.(open := false), UnpaidDoc(2, 0.0, 96.0, 6.0, true, Some(0))]]
    ensures ReadOpen(db, 5, true) == Some(UnpaidDoc(2, 0.0, 96.0, 6.0, true, Some(0)))
  {
    WholeNumbers();
    var docs := db.unpaid[5];
    assert docs[1..] == [docs[1]];
    assert FindOpen(docs[1..]) == Some(docs[1]);
  }

  /** A queued message no delivery can ever post: the wallet is debited for it, the transaction
      fails on decoding the version. */
  ghost predicate Unpostable(w: World, id: MsgId) {
    id in w.flights && w.flights[id].phase.Queued? && forall now :: Post(w.db, w.flights[id].msg, now).None?
  }

  /** A migrated loan of 100 pesos that owes 100.5: the producer's read fails and is ignored, the
      message goes out, and the worker can never decode the version. */
  lemma FractionalDebtIsUnpostable()
    ensures exists w :: Reachable(w, 1) && Unpostable(w, 1)
  {
    hide Reachable, CollectionRules;
    var loan := LOAN.(unpaid := 100.5);
    var first := FIRST.(unpaid := 100.5);
    var w := EMPTY.(db := Open(EMPTY.db, 0, loan, first));
    NothingRun();
    ReachableNext(EMPTY, OpenLoan(0, loan, first), 1);
    WholeNumbers();
    FloorOf(100.5, 100);
    RulesTakeFour(w.db, true, 1, 100.5);
    SendGoesThrough(w, Event4(true, 1), 1);
    assert Unpostable(Sent(w, Event4(true, 1)), 1);
  }
}
