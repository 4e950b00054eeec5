/** The repayment protocol as one step system: the single producer loop of promo-collection,
    any number of worker handlers, and loan-availment opening loans, interleaved over all
    subscribers, with every store, wallet and topic answer left open. */
module Protocol {
  import opened Numbers
  import opened Deduction
  import opened Ledger
  import opened LedgerWrites
  import W = WorkerSteps

  /** The system-level rules one event reads. */
  datatype Config = Config(maxPercent: real, minAmount: real, matrixRate: Option<real>)

  /** Where the producer stands with the event it is working on. */
  datatype Producer =
    | Idle
    | Checked(m: Msisdn)                    // no in-progress entry was found
    | Holding(m: Msisdn)                    // entry created, deferred cleanup armed
    | Publishing(msg: Msg, readOk: bool)    // payload built, not yet handed to Pub/Sub
    | Skipping(m: Msisdn)                   // below the minimum: explicit delete
    | Cleaning(m: Msisdn)                   // the deferred cleanup runs

  datatype Flight = Flight(msg: Msg, readOk: bool, phase: W.Phase)

  datatype World = World(
    db: Db, locks: multiset<Msisdn>, producer: Producer,
    flights: map<MsgId, Flight>, stale: set<LoanId>)

  datatype Event =
    | OpenLoan(m: Msisdn, loan: Loan, first: UnpaidDoc)
    | Check(m: Msisdn, answered: bool)
    | Create(ok: bool)
    | Adopt(rate: real)                     // UpdateOldLoanDocument on an old loan
    | SkipEvent                             // skip window, no loan, not whitelisted, any read error
    | Collect(cfg: Config, wallet: int, readOk: bool, repairOk: bool, id: MsgId, meta: Meta)
    | Publish(ok: bool)
    | Delete(ok: bool)
    | Work(id: MsgId, step: W.Step, now: Time)

  predicate HeldByProducer(p: Producer, m: Msisdn) {
    match p
    case Idle => false
    case Checked(_) => false
    case Holding(n) => n == m
    case Publishing(msg, _) => msg.msisdn == m
    case Skipping(n) => n == m
    case Cleaning(n) => n == m
  }

  // ----- CollectionRules -----

  datatype Outcome = Send(msg: Msg, readOk: bool) | Below | Stop | Ignore

  /** GetUnpaidLoansByLoanId: a document with validTo null. */
  function FindOpen(docs: seq<UnpaidDoc>): Option<UnpaidDoc> {
    if docs == [] then None else if docs[0].open then Some(docs[0]) else FindOpen(docs[1..])
  }

  /** The read also fails when a double does not fit the int32 fields of the document. */
  function ReadOpen(db: Db, l: LoanId, answered: bool): Option<UnpaidDoc> {
    if !answered || l !in db.unpaid then None
    else match FindOpen(db.unpaid[l])
      case Some(doc) => if WholeDoc(doc) then Some(doc) else None
      case None => None
  }

  const ZERO_DOC := UnpaidDoc(0, 0.0, 0.0, 0.0, false, None)

  /** getTotalUnpaidLoan: the balance, the loan as it is afterwards, and whether to go on. */
  function TotalUnpaid(loan: Loan, doc: Option<UnpaidDoc>, repairOk: bool): Option<Loan> {
    if loan.unpaid != 0.0 then Some(loan)
    else if doc.None? || doc.value.unpaid == 0.0 || !repairOk then None
    else Some(loan.(unpaid := doc.value.unpaid))
  }

  function BuildMsg(id: MsgId, m: Msisdn, kind: Kind, data: real, amount: real,
                    loan: Loan, doc: UnpaidDoc, wallet: int, meta: Meta): Msg {
    Msg(id, m, loan.id, kind, loan.total, loan.unpaid, amount, data, loan.fee, doc.fee, doc.version, wallet,
        meta.(guid := loan.guid))
  }

  /** getConversionRate: the loan's own rate, else the matrix entry of its product. */
  function ConversionRate(loan: Loan, cfg: Config): Option<real> {
    if loan.rate != 0.0 then Some(loan.rate) else cfg.matrixRate
  }

  function Decided(m: Msisdn, loan: Loan, read: Option<UnpaidDoc>,
                   cfg: Config, wallet: int, id: MsgId, meta: Meta): Outcome
  {
    match ConversionRate(loan, cfg)
    case None => Stop
    case Some(rate) =>
      match Decide(cfg.maxPercent, wallet as real, cfg.minAmount, loan.unpaid, loan.rate, rate)
      case Take(kind, data, amount) =>
        var doc := if read.Some? then read.value else ZERO_DOC;
        Send(BuildMsg(id, m, kind, data, amount, loan, doc, wallet, meta), read.Some?)
      case BelowMinimum => Below
      case Unsendable => Stop
      case Nothing => Ignore
  }

  function CollectionRules(db: Db, m: Msisdn, cfg: Config, wallet: int,
                           readOk: bool, repairOk: bool, id: MsgId, meta: Meta): (Db, Outcome)
  {
    if m !in db.loans || !Whole(db.loans[m].total) then (db, Stop)   // the total is read into an int32
    else
      var read := ReadOpen(db, db.loans[m].id, readOk);
      match TotalUnpaid(db.loans[m], read, repairOk)
      case None => (db, Stop)
      case Some(loan) => (SetLoan(db, m, loan), Decided(m, loan, read, cfg, wallet, id, meta))
  }

  // ----- steps -----

  ghost predicate Enabled(w: World, e: Event, q: nat) {
    match e
    case OpenLoan(m, loan, first) => Fresh(w.db, m, loan.id) && Opening(loan, first)
    case Check(_, _) => w.producer.Idle?
    case Create(_) => w.producer.Checked?
    case Adopt(rate) => w.producer.Holding? && w.producer.m in w.db.loans && rate >= 0.0
    case SkipEvent => w.producer.Holding?
    case Collect(cfg, _, _, _, id, _) => w.producer.Holding? && id !in w.flights && cfg.minAmount >= q as real
    case Publish(_) => w.producer.Publishing?
    case Delete(_) => w.producer.Skipping? || w.producer.Cleaning?
    case Work(id, step, now) =>
      id in w.flights && W.Enabled(w.db, w.flights[id].msg, w.flights[id].phase, step, now)
  }

  function Produce(w: World, p: Producer): World {
    w.(producer := p)
  }

  ghost function Next(w: World, e: Event, q: nat): World
    requires Enabled(w, e, q)
  {
    match e
    case OpenLoan(m, loan, first) => w.(db := Open(w.db, m, loan, first))
    case Check(m, answered) => if answered && w.locks[m] == 0 then Produce(w, Checked(m)) else w
    case Create(ok) =>
      if ok then w.(locks := w.locks + multiset{w.producer.m}, producer := Holding(w.producer.m)) else Produce(w, Idle)
    case Adopt(rate) =>
      w.(db := SetLoan(w.db, w.producer.m, w.db.loans[w.producer.m].(rate := rate)))
    case SkipEvent => Produce(w, Cleaning(w.producer.m))
    case Collect(cfg, wallet, readOk, repairOk, id, meta) =>
      var m := w.producer.m;
      var (db, outcome) := CollectionRules(w.db, m, cfg, wallet, readOk, repairOk, id, meta);
      w.(db := db, producer :=
         match outcome
         case Send(msg, ok) => Publishing(msg, ok)
         case Below => Skipping(m)
         case Stop => Cleaning(m)
         case Ignore => Idle)
    case Publish(ok) =>
      var msg := w.producer.msg;
      if ok then w.(producer := Idle, flights := w.flights[msg.id := Flight(msg, w.producer.readOk, W.Queued)])
      else Produce(w, Cleaning(msg.msisdn))
    case Delete(ok) =>
      w.(locks := if ok then W.DeleteEntry(w.locks, w.producer.m) else w.locks,
         producer := if ok || w.producer.Cleaning? then Idle else Cleaning(w.producer.m))
    case Work(id, step, now) =>
      var f := w.flights[id];
      World(W.LedgerEffect(w.db, f.msg, step, now),
            W.LockEffect(w.locks, f.msg.msisdn, step),
            w.producer,
            w.flights[id := f.(phase := W.NextPhase(f.phase, step).value)],
            if step.PostDone? && !f.readOk then w.stale + {f.msg.loanId} else w.stale)
  }

  ghost predicate Init(w: World) {
    w == World(Db(map[], map[], [], map[]), multiset{}, Idle, map[], {})
  }

  /** A finite run of the system from the empty stores. */
  ghost predicate Run(ws: seq<World>, es: seq<Event>, q: nat) {
    && |ws| == |es| + 1 && Init(ws[0])
    && forall i :: 0 <= i < |es| ==> Enabled(ws[i], es[i], q) && ws[i + 1] == Next(ws[i], es[i], q)
  }

  ghost predicate Reachable(w: World, q: nat) {
    exists ws, es :: Run(ws, es, q) && w == ws[|es|]
  }
}
