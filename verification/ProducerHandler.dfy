/** promo-collection's handling of one promo event as it is written, with the in-progress entry,
    its deferred cleanup and the skip windows.  It is proved to be a path of the protocol's
    producer steps, to decide on skipping as SkipCache does, to publish at most one message, and
    to try to free the entry whenever it publishes none. */
module ProducerHandler {
  import opened Numbers
  import opened Ledger
  import opened Protocol
  import SkipCache
  import W = WorkerSteps

  /** The answers one event meets, those between the creation of the entry and CollectionRules in
      `arrival`. */
  datatype Answers = Answers(
    enabled: bool, checked: bool, created: bool, arrival: SkipCache.Arrival,
    rules: Option<Config>, wallet: int, readOk: bool, repairOk: bool, id: MsgId, meta: Meta,
    published: bool, skipDelete: bool, cleanup: bool)

  /** Producer steps from one world to the next. */
  ghost function Follow(w: World, es: seq<Event>, q: nat): Option<World> {
    if es == [] then Some(w)
    else match Follow(w, es[..|es| - 1], q)
      case None => None
      case Some(at) => if Protocol.Enabled(at, es[|es| - 1], q) then Some(Next(at, es[|es| - 1], q)) else None
  }

  /** One message for the subscriber reached the topic and is in flight. */
  ghost predicate Sent(topic: seq<Msg>, topic': seq<Msg>, flights: map<MsgId, Flight>, flights': map<MsgId, Flight>,
                       m: Msisdn, id: MsgId)
  {
    exists msg, ok :: topic' == topic + [msg] && msg.msisdn == m && msg.id == id
                      && flights' == flights[id := Flight(msg, ok, W.Queued)]
  }

  function At<V>(store: map<Msisdn, V>, m: Msisdn): Option<V> {
    if m in store then Some(store[m]) else None
  }

  /** What the producer can use: rates that are not negative, and a minimum of q pesos. */
  predicate Acceptable(a: Answers, q: nat) {
    && (a.rules.Some? ==> a.rules.value.minAmount >= q as real)
    && (a.arrival.adopted.Some? ==> a.arrival.adopted.value.rate >= 0.0)
  }

  /** CollectionRules from the stores `before`: without configuration or loan nothing; else loans and
      the topic are what the protocol's rules make of them, the message out exactly if it was sent
      and the publishing succeeded. */
  predicate Ruled(m: Msisdn, a: Answers, before: Db, loans: map<Msisdn, Loan>, topic: seq<Msg>, topic': seq<Msg>) {
    if a.rules.None? || m !in before.loans then loans == before.loans && topic' == topic
    else
      var (db, o) := Protocol.CollectionRules(
        before, m, a.rules.value, a.wallet, a.readOk, a.repairOk, a.id, a.meta);
      && loans == db.loans
      && topic' == topic + (if o.Send? && a.published then [o.msg] else [])
  }

  /** The loans once an old one was given a rate. */
  function Rated(loans: map<Msisdn, Loan>, m: Msisdn, rate: Option<real>): map<Msisdn, Loan> {
    if rate.Some? && m in loans then loans[m := loans[m].(rate := rate.value)] else loans
  }

  /** What the whole event makes of loans and topic: the rate an old loan was given, and, unless it
      was skipped, CollectionRules. */
  predicate Concluded(m: Msisdn, a: Answers, before: Db, o: SkipCache.Outcome,
                      loans: map<Msisdn, Loan>, topic: seq<Msg>, topic': seq<Msg>)
  {
    var rated := before.(loans := Rated(before.loans, m, o.rate));
    if o.skip then loans == rated.loans && topic' == topic else Ruled(m, a, rated, loans, topic, topic')
  }

  /** Both halves of a loan document are there, and agree on whether it has a rate. */
  predicate Documents(loans: map<Msisdn, Loan>, windows: map<Msisdn, SkipCache.SkipLoan>) {
    loans.Keys == windows.Keys && forall m :: m in loans ==> (windows[m].rated <==> loans[m].rate != 0.0)
  }

  /** getActiveLoan reads the total into an int32: a fraction is an error as any other. */
  function Asked(loans: map<Msisdn, Loan>, m: Msisdn, a: SkipCache.Arrival): SkipCache.Arrival {
    a.(found := a.found && (m in loans ==> Whole(loans[m].total)))
  }

  class Producer {
    var loans: map<Msisdn, Loan>
    var windows: map<Msisdn, SkipCache.SkipLoan>   // the other fields of the loan documents
    const redis: SkipCache.RedisStore
    const unpaid: map<LoanId, seq<UnpaidDoc>>
    const collections: seq<Collection>
    const closed: map<LoanId, seq<ClosedDoc>>
    var inProgress: multiset<Msisdn>
    var topic: seq<Msg>

    const q: nat
    ghost const from: World
    ghost var events: seq<Event>
    ghost var at: World

    function Stores(): Db
      reads this
    {
      Db(loans, unpaid, collections, closed)
    }

    ghost predicate Valid()
      reads this
    {
      && Follow(from, events, q) == Some(at) && at.db == Stores() && at.locks == inProgress
      && Documents(loans, windows)
    }

    constructor (w: World, windows: map<Msisdn, SkipCache.SkipLoan>, redis: SkipCache.RedisStore, q: nat)
      requires Documents(w.db.loans, windows)
      ensures Valid() && events == [] && at == w && from == w && this.q == q
      ensures Stores() == w.db && inProgress == w.locks && topic == [] && this.windows == windows && this.redis == redis
    {
      this.windows, this.redis := windows, redis;
      loans, unpaid, collections, closed := w.db.loans, w.db.unpaid, w.db.collections, w.db.closed;
      inProgress, topic := w.locks, [];
      this.q, from, events, at := q, w, [], w;
    }

    ghost method Take(e: Event)
      requires Follow(from, events, q) == Some(at) && Protocol.Enabled(at, e, q)
      requires Next(at, e, q).db == Stores() && Next(at, e, q).locks == inProgress && Documents(loans, windows)
      modifies this`events, this`at
      ensures Valid() && at == Next(old(at), e, q) && events == old(events) + [e]
    {
      assert (events + [e])[..|events|] == events;
      at := Next(at, e, q);
      events := events + [e];
    }

    /** DeleteEntry of the in-progress collection, explicit or deferred. */
    method DeleteEntry(m: Msisdn, ok: bool) returns (done: bool)
      requires Valid() && (at.producer == Skipping(m) || at.producer == Cleaning(m))
      modifies this`inProgress, this`events, this`at
      ensures Valid() && done == ok
      ensures inProgress == if ok then old(inProgress) - multiset{m} else old(inProgress)
      ensures at.producer == if ok || old(at.producer).Cleaning? then Idle else Cleaning(m)
      ensures at.flights == old(at.flights)
    {
      if ok {
        inProgress := inProgress - multiset{m};
      }
      Take(Delete(ok));
      return ok;
    }

    /** CollectionRules and DataToBeDeductedCalculation: an error asks for the cleanup.  Filling in
        a missing balance rewrites the loan's education window. */
    method CollectionRules(m: Msisdn, a: Answers) returns (failed: bool, attempts: seq<bool>)
      requires Valid() && at.producer == Holding(m) && a.id !in at.flights && Acceptable(a, q)
      modifies this
      ensures Valid()
      ensures at.producer == if failed then Cleaning(m) else Idle
      ensures |topic| <= |old(topic)| + 1
      ensures topic != old(topic) ==>
                && !failed && attempts == [] && inProgress == old(inProgress)
                && Sent(old(topic), topic, old(at.flights), at.flights, m, a.id)
      ensures topic == old(topic) ==>
                && at.flights == old(at.flights)
                && (if failed then inProgress == old(inProgress) && attempts in {[], [false]}
                    else attempts == [true] && inProgress == old(inProgress) - multiset{m})
      ensures At(windows, m) == Refilled(At(old(windows), m), At(old(loans), m), At(loans, m))
      ensures windows - {m} == old(windows) - {m}
      ensures Ruled(m, a, old(Stores()), loans, old(topic), topic)
    {
      hide Follow, Protocol.CollectionRules, Sent, Documents;
      attempts := [];
      if a.rules.None? || m !in loans {
        Take(SkipEvent);
        return true, [];
      }
      var outcome := DecideCollection(m, a);
      failed, attempts := SendOrStop(m, a, outcome);
    }

    /** The producer after a decision. */
    ghost predicate Stands(m: Msisdn, a: Answers, outcome: Outcome)
      reads this
    {
      match outcome
      case Send(msg, ok) => at.producer == Publishing(msg, ok) && msg.msisdn == m && msg.id == a.id
      case Below => at.producer == Skipping(m)
      case Stop => at.producer == Cleaning(m)
      case Ignore => false
    }

    /** getTotalUnpaidLoan, getConversionRate and the case split. */
    method DecideCollection(m: Msisdn, a: Answers) returns (outcome: Outcome)
      requires Valid() && at.producer == Holding(m) && a.id !in at.flights && Acceptable(a, q)
      requires a.rules.Some? && m in loans
      modifies this`loans, this`windows, this`events, this`at
      ensures Valid() && at.flights == old(at.flights) && Stands(m, a, outcome)
      ensures At(windows, m) == Refilled(At(old(windows), m), At(old(loans), m), At(loans, m))
      ensures windows - {m} == old(windows) - {m}
      ensures (Stores(), outcome) == Protocol.CollectionRules(
                old(Stores()), m, a.rules.value, a.wallet, a.readOk, a.repairOk, a.id, a.meta)
    {
      hide Follow, Protocol.CollectionRules, Documents, Protocol.Next, Protocol.Enabled;
      CollectStep(at, m, a, q);
      var (db, o) := Protocol.CollectionRules(Stores(), m, a.rules.value, a.wallet, a.readOk, a.repairOk, a.id, a.meta);
      outcome := o;
      NeverIgnored(Stores(), m, a.rules.value, a.wallet, a.readOk, a.repairOk, a.id, a.meta);
      DocumentsHold(loans, windows, db.loans, m);
      if db.loans[m].unpaid != loans[m].unpaid {
        windows := windows[m := SkipCache.Repair(windows[m])];
      }
      loans := db.loans;
      Take(Collect(a.rules.value, a.wallet, a.readOk, a.repairOk, a.id, a.meta));
    }

    /** What follows the decision. */
    method SendOrStop(m: Msisdn, a: Answers, outcome: Outcome) returns (failed: bool, attempts: seq<bool>)
      requires Valid() && a.id !in at.flights && Stands(m, a, outcome)
      modifies this`topic, this`inProgress, this`events, this`at
      ensures Valid()
      ensures at.producer == if failed then Cleaning(m) else Idle
      ensures |topic| <= |old(topic)| + 1
      ensures topic != old(topic) ==>
                && !failed && attempts == [] && inProgress == old(inProgress)
                && Sent(old(topic), topic, old(at.flights), at.flights, m, a.id)
      ensures topic == old(topic) ==>
                && at.flights == old(at.flights)
                && (if failed then inProgress == old(inProgress) && attempts in {[], [false]}
                    else attempts == [true] && inProgress == old(inProgress) - multiset{m})
      ensures topic == old(topic) + (if outcome.Send? && a.published then [outcome.msg] else [])
    {
      hide Follow;
      failed, attempts := true, [];
      match outcome
      case Send(msg, readOk) =>
        Take(Publish(a.published));
        if a.published {
          topic := topic + [msg];
          assert topic == old(topic) + [msg];
          assert at.flights == old(at.flights)[a.id := Flight(msg, readOk, W.Queued)];
          failed := false;
        }
      case Below =>
        var done := DeleteEntry(m, a.skipDelete);
        return !done, [done];
      case Stop =>
    }

    /** Steps 2 and 3: look for an entry, create one. */
    method AcquireEntry(m: Msisdn, a: Answers) returns (locked: bool)
      requires Valid() && at.producer == Idle
      modifies this`inProgress, this`events, this`at
      ensures Valid() && locked == (a.checked && old(inProgress)[m] == 0 && a.created)
      ensures at.producer == if locked then Holding(m) else Idle
      ensures inProgress == if locked then old(inProgress) + multiset{m} else old(inProgress)
      ensures at.flights == old(at.flights)
    {
      hide Follow;
      // a failed check and an existing entry both end the event
      locked := a.checked && inProgress[m] == 0;
      Take(Check(m, a.checked));
      if locked {
        locked := a.created;
        if a.created {
          inProgress := inProgress + multiset{m};
        }
        Take(Create(a.created));
      }
    }

    /** Steps 4 to 8: an old loan may be given a rate and windows on the way. */
    method CheckSkipWindows(m: Msisdn, a: Answers) returns (skip: bool)
      requires Valid() && at.producer == Holding(m) && Acceptable(a, q)
      modifies this`loans, this`windows, this`events, this`at, redis
      ensures Valid() && at.producer == Holding(m) && at.flights == old(at.flights)
      ensures var o := SkipCache.Check(At(old(windows), m), SkipCache.Key(old(redis.keys), m),
                                      Asked(old(loans), m, a.arrival));
              && loans == Rated(old(loans), m, o.rate) && skip == o.skip
              && At(windows, m) == o.loan && SkipCache.Key(redis.keys, m) == o.cache
      ensures windows - {m} == old(windows) - {m} && redis.keys - {m} == old(redis.keys) - {m}
    {
      hide Follow, SkipCache.DirectActive, SkipCache.IsSkipPeriodActive, SkipCache.CheckCache, SkipCache.Keep;
      var loan', rate;
      skip, loan', rate := redis.CheckSkipWindows(m, At(windows, m), Asked(loans, m, a.arrival));
      if rate.Some? {
        loans, windows := loans[m := loans[m].(rate := rate.value)], windows[m := loan'.value];
        Take(Adopt(rate.value));
      }
    }

    /** Steps 4 to 9 under the entry, then the deferred cleanup. */
    method WorkUnderEntry(m: Msisdn, a: Answers) returns (attempts: seq<bool>)
      requires Valid() && at.producer == Holding(m) && a.id !in at.flights && Acceptable(a, q)
      modifies this, redis
      ensures Valid() && at.producer == Idle
      ensures topic == old(topic) ==>
                && attempts != []
                && inProgress == (if true in attempts then old(inProgress) - multiset{m} else old(inProgress))
      ensures topic != old(topic) ==>
                && attempts == [] && inProgress == old(inProgress)
                && Sent(old(topic), topic, old(at.flights), at.flights, m, a.id)
      ensures Windowed(Asked(old(loans), m, a.arrival), topic == old(topic),
                       At(old(windows), m), SkipCache.Key(old(redis.keys), m),
                       At(windows, m), SkipCache.Key(redis.keys, m))
      ensures windows - {m} == old(windows) - {m} && redis.keys - {m} == old(redis.keys) - {m}
      ensures Concluded(m, a, old(Stores()),
                        SkipCache.Check(At(old(windows), m), SkipCache.Key(old(redis.keys), m),
                                        Asked(old(loans), m, a.arrival)),
                        loans, old(topic), topic)
    {
      hide Follow, Protocol.CollectionRules, Sent, SkipCache.Check, Documents, Ruled;
      attempts := [];
      ProceedsWithLoan(At(windows, m), SkipCache.Key(redis.keys, m), Asked(loans, m, a.arrival));
      var shouldCleanup := CheckSkipWindows(m, a);
      if shouldCleanup {
        Take(SkipEvent);
      } else {
        shouldCleanup, attempts := CollectionRules(m, a);
      }
      if shouldCleanup {
        var done := DeleteEntry(m, a.cleanup);
        attempts := attempts + [done];
      }
    }

    /** CheckBusinessLevelRulesForPromoCollection.  `attempts` are the answers of the deletes it
        tried.  Without an entry of its own it changes nothing; with one it decides on skipping as
        SkipCache.Check does, and a skipped event publishes nothing; it either publishes exactly
        one message and keeps the entry, or it tries to delete the entry and has done so unless
        every attempt failed; loans, topic, windows and key are then those of the event. */
    method CheckBusinessLevelRules(m: Msisdn, a: Answers) returns (attempts: seq<bool>)
      requires Valid() && at.producer == Idle && a.id !in at.flights && Acceptable(a, q)
      modifies this, redis
      ensures Valid() && at.producer == Idle
      ensures var locked := a.enabled && a.checked && old(inProgress)[m] == 0 && a.created;
              && (!locked ==> attempts == [] && inProgress == old(inProgress) && topic == old(topic)
                              && loans == old(loans) && windows == old(windows) && redis.keys == old(redis.keys))
              && (locked && topic == old(topic) ==>
                    && attempts != []
                    && inProgress == (if true in attempts then old(inProgress) else old(inProgress) + multiset{m}))
              && (topic != old(topic) ==>
                    && locked && attempts == [] && inProgress == old(inProgress) + multiset{m}
                    && Sent(old(topic), topic, old(at.flights), at.flights, m, a.id))
              && (locked ==>
                    Windowed(Asked(old(loans), m, a.arrival), topic == old(topic),
                             At(old(windows), m), SkipCache.Key(old(redis.keys), m),
                             At(windows, m), SkipCache.Key(redis.keys, m)))
      ensures windows - {m} == old(windows) - {m} && redis.keys - {m} == old(redis.keys) - {m}
      ensures a.enabled && a.checked && old(inProgress)[m] == 0 && a.created ==>
                Concluded(m, a, old(Stores()),
                          SkipCache.Check(At(old(windows), m), SkipCache.Key(old(redis.keys), m),
                                          Asked(old(loans), m, a.arrival)),
                          loans, old(topic), topic)
    {
      hide Follow, Sent, Windowed, Documents, Concluded;
      attempts := [];
      if a.enabled {
        var locked := AcquireEntry(m, a);
        if locked {
          attempts := WorkUnderEntry(m, a);
        }
      }
    }
  }

  /** The windows after CollectionRules: rewritten with the balance, else as they were. */
  function Refilled(window: Option<SkipCache.SkipLoan>, before: Option<Loan>, after: Option<Loan>)
    : Option<SkipCache.SkipLoan>
  {
    if window.Some? && before.Some? && after.Some? && before.value.unpaid != after.value.unpaid
    then Some(SkipCache.Repair(window.value)) else window
  }

  /** What an event under its entry does with windows and key: the key is that of SkipCache.Check,
      a skipped event is silent and leaves its windows, and one that was not skipped found a loan
      and leaves its windows or the refilled ones. */
  predicate Windowed(a: SkipCache.Arrival, silent: bool,
                     window: Option<SkipCache.SkipLoan>, key: Option<SkipCache.Entry>,
                     window': Option<SkipCache.SkipLoan>, key': Option<SkipCache.Entry>)
  {
    var o := SkipCache.Check(window, key, a);
    && key' == o.cache
    && (o.skip ==> silent && window' == o.loan)
    && (!silent ==> o.loan.Some?)
    && (!o.skip ==> window' == o.loan || (o.loan.Some? && window' == Some(SkipCache.Repair(o.loan.value))))
  }

  lemma DocumentsHold(loans: map<Msisdn, Loan>, windows: map<Msisdn, SkipCache.SkipLoan>,
                      loans': map<Msisdn, Loan>, m: Msisdn)
    requires Documents(loans, windows) && m in loans && loans'.Keys == loans.Keys
    requires forall n :: n in loans ==> loans'[n].rate == loans[n].rate
    ensures m in windows && Documents(loans', windows)
    ensures Documents(loans', windows[m := SkipCache.Repair(windows[m])])
  {
  }

  /** A loan whose total does not fit an int32 gets no event past the skip check. */
  lemma UnreadableLoanIsSkipped(loans: map<Msisdn, Loan>, m: Msisdn, window: Option<SkipCache.SkipLoan>,
                                key: Option<SkipCache.Entry>, a: SkipCache.Arrival)
    requires m in loans
    ensures !Whole(loans[m].total) ==> SkipCache.Check(window, key, Asked(loans, m, a)).skip
    ensures Whole(loans[m].total) ==> Asked(loans, m, a) == a
  {
  }

  lemma ProceedsWithLoan(window: Option<SkipCache.SkipLoan>, key: Option<SkipCache.Entry>, a: SkipCache.Arrival)
    ensures !SkipCache.Check(window, key, a).skip ==> SkipCache.Check(window, key, a).loan.Some?
  {
  }

  /** The protocol's step for the decision. */
  lemma CollectStep(w: World, m: Msisdn, a: Answers, q: nat)
    requires w.producer == Holding(m) && a.id !in w.flights && Acceptable(a, q) && a.rules.Some?
    ensures var e := Collect(a.rules.value, a.wallet, a.readOk, a.repairOk, a.id, a.meta);
            var (db, outcome) := Protocol.CollectionRules(
              w.db, m, a.rules.value, a.wallet, a.readOk, a.repairOk, a.id, a.meta);
            && Protocol.Enabled(w, e, q)
            && var w' := Next(w, e, q);
            && w'.db == db && w'.locks == w.locks && w'.flights == w.flights
            && (outcome.Send? ==> w'.producer == Publishing(outcome.msg, outcome.readOk))
            && (outcome.Below? ==> w'.producer == Skipping(m))
            && (outcome.Stop? ==> w'.producer == Cleaning(m))
  {
    hide Protocol.CollectionRules;
  }

  /** The default branch of the switch is dead: a minimum never exceeds one of its arguments. */
  lemma NeverIgnored(db: Db, m: Msisdn, cfg: Config, wallet: int, readOk: bool, repairOk: bool, id: MsgId, meta: Meta)
    ensures !Protocol.CollectionRules(db, m, cfg, wallet, readOk, repairOk, id, meta).1.Ignore?
    ensures Protocol.CollectionRules(db, m, cfg, wallet, readOk, repairOk, id, meta).0
            == db.(loans := Protocol.CollectionRules(db, m, cfg, wallet, readOk, repairOk, id, meta).0.loans)
    ensures var loans := Protocol.CollectionRules(db, m, cfg, wallet, readOk, repairOk, id, meta).0.loans;
            loans.Keys == db.loans.Keys && forall n :: n in loans ==> loans[n].rate == db.loans[n].rate
    ensures var outcome := Protocol.CollectionRules(db, m, cfg, wallet, readOk, repairOk, id, meta).1;
            outcome.Send? ==> outcome.msg.msisdn == m && outcome.msg.id == id
  {
  }
}
