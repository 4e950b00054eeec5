/** Who holds an in-progress entry, over whole runs, and what is left when nobody does any more. */
module EntryAccounts {
  import opened Ledger
  import opened LedgerInvariant
  import opened LedgerWrites
  import opened Protocol
  import opened ProtocolInvariant
  import W = WorkerSteps

  /** The steps that end an event or a delivery with its entry still there: the deferred cleanup
      fails; the usage lookup, the transaction or the publishing of the row fails; the delete
      after a post or a failure record fails. */
  predicate Leaves(w: World, e: Event) {
    || (e.Delete? && !e.ok && w.producer.Cleaning?)
    || (e.Work? && e.id in w.flights
        && (e.step.UsageFailed? || e.step.PostFailed? || e.step.PublishFailed? || e.step.ReleaseFailed?))
  }

  /** The subscriber such a step concerns. */
  function Left(w: World, e: Event): Msisdn
    requires Leaves(w, e)
  {
    if e.Delete? then w.producer.m else w.flights[e.id].msg.msisdn
  }

  /** Subscribers whose entry was left behind in the first n steps. */
  ghost function Leaked(ws: seq<World>, es: seq<Event>, n: nat): set<Msisdn>
    requires |ws| > |es| >= n
  {
    if n == 0 then {}
    else Leaked(ws, es, n - 1) + (if Leaves(ws[n - 1], es[n - 1]) then {Left(ws[n - 1], es[n - 1])} else {})
  }

  ghost predicate LiveFor(w: World, m: Msisdn) {
    exists id :: id in w.flights && W.Live(w.flights[id].phase) && w.flights[id].msg.msisdn == m
  }

  /** The entry has exactly one reason to be there, or is not there. */
  ghost predicate Accounted(w: World, m: Msisdn, leaked: bool) {
    && (w.locks[m] == 1 <==> HeldByProducer(w.producer, m) || LiveFor(w, m) || leaked)
    && (leaked ==> !HeldByProducer(w.producer, m) && !LiveFor(w, m))
  }

  // ----- one step -----

  ghost predicate LeakedNow(w: World, e: Event, m: Msisdn) {
    Leaves(w, e) && Left(w, e) == m
  }

  lemma LockingKeepsAccount(w: World, e: Event, q: nat, m: Msisdn, leaked: bool)
    requires Inv(w, q) && Enabled(w, e, q) && Accounted(w, m, leaked) && (e.Check? || e.Create? || e.Delete?)
    ensures Accounted(Next(w, e, q), m, leaked || LeakedNow(w, e, m))
  {
    hide StoresInv, FlightInv, OneLivePerSubscriber, PostedOnce, LiveFor;
    SameFlights(w, Next(w, e, q), m);
    if e.Create? {
      CheckedIsFree(w, q);
    } else if HeldByProducer(w.producer, m) {
      HeldExcludesLive(w, q, m);
    }
  }

  lemma CheckedIsFree(w: World, q: nat)
    requires ControlInv(w, q) && w.producer.Checked?
    ensures w.locks[w.producer.m] == 0
  {
  }

  lemma HeldExcludesLive(w: World, q: nat, m: Msisdn)
    requires ControlInv(w, q) && HeldByProducer(w.producer, m)
    ensures w.locks[m] == 1 && !LiveFor(w, m)
  {
    hide ProducerInv, Fits, OneLivePerSubscriber, PostedOnce;
    assert w.locks[m] == 1 by { HeldIsLocked(w, q, m); }
    forall id | id in w.flights && W.Live(w.flights[id].phase)
      ensures w.flights[id].msg.msisdn != m
    {
      assert FlightInv(w, id, q);
    }
  }

  lemma HeldIsLocked(w: World, q: nat, m: Msisdn)
    requires ControlInv(w, q) && HeldByProducer(w.producer, m)
    ensures w.locks[m] == 1
  {
  }

  lemma SameFlights(w: World, w': World, m: Msisdn)
    ensures w'.flights == w.flights ==> (LiveFor(w', m) <==> LiveFor(w, m))
  {
  }

  /** The producer keeps its entry through the decision, whatever it is. */
  lemma RulesKeepAccount(w: World, e: Event, q: nat, m: Msisdn, leaked: bool)
    requires Inv(w, q) && Enabled(w, e, q) && Accounted(w, m, leaked)
    requires e.OpenLoan? || e.Adopt? || e.SkipEvent? || e.Collect?
    ensures Accounted(Next(w, e, q), m, leaked || LeakedNow(w, e, m))
  {
    hide LedgerInv, ControlInv, CollectionRules, LiveFor, Fits, Open, SetLoan, VersionInv;
    SameFlights(w, Next(w, e, q), m);
    if e.Collect? {
      CollectionFits(w.db, w.producer.m, e.cfg, e.wallet, e.readOk, e.repairOk, e.id, e.meta, q);
      var (db, outcome) := CollectionRules(w.db, w.producer.m, e.cfg, e.wallet, e.readOk, e.repairOk, e.id, e.meta);
      assert HeldByProducer(Next(w, e, q).producer, m) <==> m == w.producer.m;
    }
  }

  /** A published message takes the entry over. */
  lemma PublishKeepsAccount(w: World, e: Event, q: nat, m: Msisdn, leaked: bool)
    requires Inv(w, q) && Enabled(w, e, q) && Accounted(w, m, leaked) && e.Publish?
    ensures Accounted(Next(w, e, q), m, leaked || LeakedNow(w, e, m))
  {
    hide StoresInv, FlightInv, OneLivePerSubscriber, PostedOnce, Fits;
    var w' := Next(w, e, q);
    var id := w.producer.msg.id;
    if e.ok {
      assert w'.flights[id].phase == W.Queued && w'.flights[id].msg == w.producer.msg;
      assert forall i :: i in w.flights ==> i in w'.flights && w'.flights[i] == w.flights[i];
    }
  }

  /** A live message either stays live, releases its entry or leaves it behind. */
  lemma LiveOrDone(p: W.Phase, s: W.Step)
    requires W.NextPhase(p, s).Some?
    ensures var leaves := s.UsageFailed? || s.PostFailed? || s.PublishFailed? || s.ReleaseFailed?;
            && (W.Live(p) && !s.Released? && !leaves ==> W.Live(W.NextPhase(p, s).value))
            && (s.Released? || leaves ==> W.Live(p) && !W.Live(W.NextPhase(p, s).value))
            && (!W.Live(p) ==> !W.Live(W.NextPhase(p, s).value))
  {
  }

  lemma WorkKeepsAccount(w: World, e: Event, q: nat, m: Msisdn, leaked: bool)
    requires Inv(w, q) && Enabled(w, e, q) && Accounted(w, m, leaked) && e.Work?
    ensures Accounted(Next(w, e, q), m, leaked || LeakedNow(w, e, m))
  {
    hide StoresInv, ProducerInv, PostedOnce, Fits, W.NextPhase, W.Live, W.LedgerEffect;
    var w' := Next(w, e, q);
    var f := w.flights[e.id];
    LiveOrDone(f.phase, e.step);
    assert FlightInv(w, e.id, q);
    assert forall i :: i in w.flights && i != e.id ==> w'.flights[i] == w.flights[i];
    assert w'.flights.Keys == w.flights.Keys && w'.flights[e.id].msg == f.msg;
    if f.msg.msisdn == m && W.Live(f.phase) {
      assert forall i :: i in w.flights && i != e.id && W.Live(w.flights[i].phase) ==> w.flights[i].msg.msisdn != m;
    } else {
      LiveElsewhere(w, w', e.id, m);
    }
  }

  lemma LiveElsewhere(w: World, w': World, id: MsgId, m: Msisdn)
    requires id in w.flights && w'.flights.Keys == w.flights.Keys
    requires forall i :: i in w.flights && i != id ==> w'.flights[i] == w.flights[i]
    requires w'.flights[id].msg == w.flights[id].msg
    requires w.flights[id].msg.msisdn != m || (!W.Live(w.flights[id].phase) && !W.Live(w'.flights[id].phase))
    ensures LiveFor(w', m) <==> LiveFor(w, m)
  {
    hide W.Live;
    if LiveFor(w, m) {
      var i :| i in w.flights && W.Live(w.flights[i].phase) && w.flights[i].msg.msisdn == m;
      assert W.Live(w'.flights[i].phase) && w'.flights[i].msg.msisdn == m;
    }
  }

  lemma StepKeepsAccount(w: World, e: Event, q: nat, m: Msisdn, leaked: bool)
    requires Inv(w, q) && Enabled(w, e, q) && Accounted(w, m, leaked)
    ensures Accounted(Next(w, e, q), m, leaked || LeakedNow(w, e, m))
  {
    hide Inv, Enabled, Next, Accounted, LeakedNow;
    if e.Check? || e.Create? || e.Delete? {
      LockingKeepsAccount(w, e, q, m, leaked);
    } else if e.Publish? {
      PublishKeepsAccount(w, e, q, m, leaked);
    } else if e.Work? {
      WorkKeepsAccount(w, e, q, m, leaked);
    } else {
      RulesKeepAccount(w, e, q, m, leaked);
    }
  }

  // ----- runs -----

  /** At every moment of every run an entry is there exactly if the producer works under it, a live
      message holds it, or some earlier step left it behind; and these exclude one another. */
  lemma {:induction false} EntryHeldIff(ws: seq<World>, es: seq<Event>, q: nat, m: Msisdn, n: nat)
    requires Run(ws, es, q) && n <= |es|
    ensures var leaked := m in Leaked(ws, es, n);
            && (ws[n].locks[m] == 1 <==> HeldByProducer(ws[n].producer, m) || LiveFor(ws[n], m) || leaked)
            && (leaked ==> !HeldByProducer(ws[n].producer, m) && !LiveFor(ws[n], m))
  {
    hide Inv, Enabled, Next, LiveFor, Leaves, HeldByProducer;
    if n == 0 {
      NoEntries(ws[0], m);
    } else {
      EntryHeldIff(ws, es, q, m, n - 1);
      RunKeepsInv(ws, es, q, n - 1);
      StepKeepsAccount(ws[n - 1], es[n - 1], q, m, m in Leaked(ws, es, n - 1));
    }
  }

  lemma NoEntries(w: World, m: Msisdn)
    requires Init(w)
    ensures w.locks[m] == 0 && !HeldByProducer(w.producer, m) && !LiveFor(w, m)
  {
  }

  lemma {:induction false} LeakedGrows(ws: seq<World>, es: seq<Event>, i: nat, j: nat)
    requires |ws| > |es| && i <= j <= |es|
    ensures Leaked(ws, es, i) <= Leaked(ws, es, j)
  {
    if i < j { LeakedGrows(ws, es, i, j - 1); }
  }

  /** An entry left behind stays for ever: from then on the subscriber has no live message, and
      none of its events gets past the check. */
  lemma LeftBehindForGood(ws: seq<World>, es: seq<Event>, q: nat, m: Msisdn, i: nat, j: nat)
    requires Run(ws, es, q) && i <= j <= |es| && m in Leaked(ws, es, i)
    ensures ws[j].locks[m] == 1 && !LiveFor(ws[j], m) && !HeldByProducer(ws[j].producer, m)
    ensures ws[j].producer.Idle? ==> forall answered :: Next(ws[j], Check(m, answered), q) == ws[j]
  {
    hide Leaves, LiveFor;
    LeakedGrows(ws, es, i, j);
    EntryHeldIff(ws, es, q, m, j);
  }
}
