/** What the cached skip check decides over any run of writes, expiries, evictions and deletes. */
module SkipCacheTheorems {
  import opened Numbers
  import opened SkipCache

  // ----- the invariant -----

  /** A cached education or loan-load window that still runs is a window of the loan document. */
  predicate Backed(s: State) {
    s.cache.Some? ==>
      && (s.cache.value.edu <= s.now || (s.loan.Some? && s.cache.value.edu <= s.loan.value.edu))
      && (s.cache.value.load <= s.now || (s.loan.Some? && s.cache.value.load <= s.loan.value.load))
  }

  predicate WindowsPassed(s: State) {
    s.stage != Free ==> s.loan.Some? && s.loan.value.edu < s.now && s.loan.value.load < s.now
  }

  /** Unless it was lost, the key of a running grace period is there and outlives it. */
  predicate GraceCached(s: State) {
    s.loan.Some? && !s.lost && !s.stage.Committed? && s.now < s.loan.value.grace && s.now < s.kept ==>
      && s.cache.Some? && s.cache.value.grace == s.kept
      && (s.cache.value.expires.None? || s.kept <= s.cache.value.expires.value)
  }

  /** The cached grace period ends no earlier than the document's unless it was cut shorter. */
  predicate GraceKept(s: State) {
    && (s.stage.Committed? ==> s.loan.Some? && s.loan.value.grace <= s.now + s.stage.hours * HOUR)
    && (s.loan.Some? && !s.lost && !s.stage.Committed? && !s.shorter && s.now < s.loan.value.grace ==>
          s.loan.value.grace <= s.kept)
  }

  predicate Inv(s: State) {
    && s.now > ZERO
    && (s.loan.Some? ==> s.loan.value.education < s.now)
    && Backed(s) && WindowsPassed(s) && GraceCached(s) && GraceKept(s)
  }

  // ----- one promo event -----

  predicate Silent(cache: Option<Entry>, t: Time) {
    cache.None? || !Visible(cache.value, t) || !Running(cache.value, t)
  }

  predicate SavedFor(cache: Option<Entry>, loan: Option<SkipLoan>) {
    cache.Some? && loan.Some? && cache.value.edu == loan.value.edu && cache.value.load == loan.value.load
  }

  /** The key is left alone unless nothing of it ran any more. */
  lemma KeyOutcome(loan: Option<SkipLoan>, cache: Option<Entry>, a: Arrival)
    ensures var o := Check(loan, cache, a);
            o.cache == cache
            || (Silent(cache, a.looked) && (o.cache.None? || (o.skip && SavedFor(o.cache, o.loan))))
  {
    hide DirectActive, IsSkipPeriodActive, Visible, Running;
  }

  /** The loan keeps everything but the windows of an old one; an event that goes on is past them. */
  lemma LoanOutcome(loan: Option<SkipLoan>, cache: Option<Entry>, a: Arrival)
    ensures var o := Check(loan, cache, a);
            && (o.loan.Some? <==> loan.Some?)
            && (loan.Some? ==> o.loan.value.grace == loan.value.grace && o.loan.value.education == loan.value.education)
            && (loan.Some? && o.loan != loan ==> loan.value.edu == ZERO && loan.value.load == ZERO)
            && (!o.skip ==> o.loan.Some? && o.loan.value.edu < a.asked && o.loan.value.load < a.asked)
  {
    hide CheckCache, Keep;
  }

  /** A window that moved was over. */
  predicate WindowsMove(loan: Option<SkipLoan>, loan': Option<SkipLoan>, now: Time) {
    && (loan.Some? <==> loan'.Some?)
    && (loan.Some? ==>
          && loan'.value.grace == loan.value.grace && loan'.value.education == loan.value.education
          && (loan'.value.edu == loan.value.edu || loan.value.edu < now)
          && (loan'.value.load == loan.value.load || loan.value.load < now))
  }

  /** What an event does to the subscriber's state. */
  predicate Moves(s: State, s': State, looked: Time) {
    && s.now <= looked <= s'.now && s'.lost == s.lost && s'.shorter == s.shorter && s'.kept == s.kept
    && !s.stage.Committed? && !s'.stage.Committed?
    && WindowsMove(s.loan, s'.loan, s'.now)
    && (s'.cache == s.cache || (Silent(s.cache, looked) && (s'.cache.None? || SavedFor(s'.cache, s'.loan))))
  }

  lemma ArrivalMoves(s: State, a: Arrival, repair: bool, publishes: bool)
    requires Inv(s) && Enabled(s, Arrive(a, repair, publishes))
    ensures Moves(s, Next(s, Arrive(a, repair, publishes)), a.looked)
    ensures WindowsPassed(Next(s, Arrive(a, repair, publishes)))
  {
    hide Check, Silent, Backed, GraceCached, GraceKept;
    KeyOutcome(s.loan, s.cache, a);
    LoanOutcome(s.loan, s.cache, a);
  }

  lemma MovesKeepBacked(s: State, s': State, looked: Time)
    requires Moves(s, s', looked) && Backed(s)
    ensures Backed(s')
  {
    hide Silent;
  }

  lemma MovesKeepGraceCached(s: State, s': State, looked: Time)
    requires Moves(s, s', looked) && GraceCached(s)
    ensures GraceCached(s')
  {
  }

  lemma MovesKeepGraceKept(s: State, s': State, looked: Time)
    requires Moves(s, s', looked) && GraceKept(s)
    ensures GraceKept(s')
  {
    hide Silent, SavedFor;
  }

  /** A key written after a check that found nothing running protects no grace period. */
  lemma ArrivalKeepsInv(s: State, a: Arrival, repair: bool, publishes: bool)
    requires Inv(s) && Enabled(s, Arrive(a, repair, publishes))
    ensures Inv(Next(s, Arrive(a, repair, publishes)))
  {
    hide Next, Backed, WindowsPassed, GraceCached, GraceKept, Silent, SavedFor;
    var s' := Next(s, Arrive(a, repair, publishes));
    ArrivalMoves(s, a, repair, publishes);
    MovesKeepBacked(s, s', a.looked);
    MovesKeepGraceCached(s, s', a.looked);
    MovesKeepGraceKept(s, s', a.looked);
  }

  lemma StepKeepsInv(s: State, e: Event)
    requires Inv(s) && Enabled(s, e)
    ensures Inv(Next(s, e))
  {
    if e.Arrive? {
      ArrivalKeepsInv(s, e.a, e.repair, e.publishes);
    } else {
      OtherKeepsInv(s, e);
    }
  }

  lemma OtherKeepsInv(s: State, e: Event)
    requires Inv(s) && Enabled(s, e) && !e.Arrive?
    ensures Inv(Next(s, e))
  {
  }

  lemma {:induction false} RunKeepsInv(ss: seq<State>, es: seq<Event>, n: nat)
    requires Run(ss, es) && n <= |es|
    ensures Inv(ss[n])
  {
    if n > 0 {
      RunKeepsInv(ss, es, n - 1);
      StepKeepsInv(ss[n - 1], es[n - 1]);
    }
  }

  lemma ReachableInv(s: State)
    requires Reachable(s)
    ensures Inv(s)
  {
    var ss, es :| Run(ss, es) && s == ss[|es|];
    RunKeepsInv(ss, es, |es|);
  }

  // ----- the cached decision refines the direct one -----

  /** Redis and the loan store answered. */
  predicate Answered(a: Arrival) {
    a.got && a.deleted && a.found
  }

  /** The worker's grace period runs in the cache. */
  predicate CachedGrace(cache: Option<Entry>, t: Time) {
    && cache.Some? && t < cache.value.grace
    && (cache.value.expires.None? || t < cache.value.expires.value)
  }

  /** The loan document has a window that has not passed, the last moment included. */
  predicate InWindow(loan: SkipLoan, t: Time) {
    t <= loan.edu || t <= loan.load || t <= loan.education
  }

  /** A document with a rate or a window. */
  predicate HasTerms(loan: SkipLoan) {
    loan.rated || loan.edu != ZERO || loan.load != ZERO
  }

  /** In every reachable state a new loan is skipped exactly when the direct check says so or a
      cached grace period runs; the cached windows add nothing.  As the clock may move between
      the two checks, the direct one is bounded by its answers at both moments. */
  lemma CachedCheckRefinesDirect(s: State, a: Arrival)
    requires Reachable(s) && Ordered(s.now, a) && Answered(a)
    requires s.loan.Some? && HasTerms(s.loan.value)
    ensures var skip := Check(s.loan, s.cache, a).skip;
            var loan := s.loan.value;
            && (InWindow(loan, a.asked) || CachedGrace(s.cache, a.looked) ==> skip)
            && (skip ==> InWindow(loan, a.looked) || CachedGrace(s.cache, a.looked))
            && (a.looked == a.asked ==> (skip <==> InWindow(loan, a.asked) || CachedGrace(s.cache, a.looked)))
  {
    ReachableInv(s);
  }

  /** Whatever Redis holds, lost or wrote, no event gets past a running window of a loan document,
      old loans with the windows they have just been given. */
  lemma NothingPassesAWindow(loan: Option<SkipLoan>, cache: Option<Entry>, a: Arrival)
    ensures var o := Check(loan, cache, a);
            !o.skip ==> o.loan.Some? && o.loan.value.edu < a.asked && o.loan.value.load < a.asked
                        && (HasTerms(loan.value) ==> !InWindow(loan.value, a.asked))
  {
  }

  /** Over any run: while a collection message is out, until its transaction is over, the loan is
      past its promo education and loan load windows. */
  lemma CollectionsOnlyOutsideWindows(s: State)
    requires Reachable(s) && s.stage != Free
    ensures s.loan.Some? && s.loan.value.edu < s.now && s.loan.value.load < s.now
  {
    ReachableInv(s);
  }

  /** As long as neither the key nor its write was lost, no event gets past a grace period: that
      of the document, or the one in the cache if that was given a shorter period. */
  lemma GraceIsHonouredWithoutLoss(s: State, a: Arrival)
    requires Reachable(s) && s.stage == Free && Ordered(s.now, a) && !s.lost && s.loan.Some?
    ensures !Check(s.loan, s.cache, a).skip ==>
              s.loan.value.grace <= a.looked || (s.shorter && s.kept <= a.looked)
  {
    ReachableInv(s);
  }

  /** Past its windows a loan is skipped only by the cache: the GracePeriodTimestamp of the
      document is never looked at. */
  lemma DocumentGraceIsIgnored(s: State, a: Arrival, grace: Time)
    requires Reachable(s) && Ordered(s.now, a) && Answered(a) && a.looked == a.asked
    requires s.loan.Some? && HasTerms(s.loan.value) && !InWindow(s.loan.value, a.asked)
    ensures Check(s.loan, s.cache, a).skip <==> CachedGrace(s.cache, a.looked)
    ensures Check(Some(s.loan.value.(grace := grace)), s.cache, a).skip == Check(s.loan, s.cache, a).skip
  {
    CachedCheckRefinesDirect(s, a);
  }

  const GO := Arrival(1, 1, 1, 1, true, true, true, false, None, false, false)
  const LOAN := SkipLoan(0, 0, ZERO, ZERO, true)
  const GRACED := LOAN.(grace := 1 + 24 * HOUR)

  const LOSING: seq<Event> :=
    [Avail(0, 0, true, false, 0), Tick(1), Arrive(GO, false, true), CommitPartial(1, 24),
     CacheGrace(24, true, 1), Lose]
  const LOSING_STATES: seq<State> :=
    [State(0, None, None, Free, false, false, ZERO),
     State(0, Some(LOAN), None, Free, false, false, ZERO),
     State(1, Some(LOAN), None, Free, false, false, ZERO),
     State(1, Some(LOAN), None, Collecting, false, false, ZERO),
     State(1, Some(GRACED), None, Committed(24), false, false, ZERO),
     State(1, Some(GRACED), Some(Graced(24, 1, 1)), Free, false, false, 1 + 24 * HOUR),
     State(1, Some(GRACED), None, Free, true, false, 1 + 24 * HOUR)]

  predicate Leads(i: nat)
    requires i < 6
  {
    && Enabled(LOSING_STATES[i], LOSING[i])
    && LOSING_STATES[i + 1] == Next(LOSING_STATES[i], LOSING[i])
  }

  lemma EventGoesOn()
    ensures Leads(2)
    ensures !Check(Some(GRACED), None, GO).skip
  {
  }

  lemma LoanOpens()
    ensures Leads(0) && Leads(1)
  {
  }

  lemma GraceIsLost()
    ensures Leads(3) && Leads(4) && Leads(5)
  {
  }

  /** So losing the key lets an event through in the middle of a grace period. */
  lemma LostKeyBreaksGrace() returns (s: State, a: Arrival)
    ensures Reachable(s) && s.stage == Free && Ordered(s.now, a) && Answered(a) && s.loan.Some?
    ensures a.asked < s.loan.value.grace && !Check(s.loan, s.cache, a).skip
  {
    hide Check, Next, Enabled;
    LoanOpens();
    EventGoesOn();
    GraceIsLost();
    s, a := LOSING_STATES[6], GO;
    assert Run(LOSING_STATES, LOSING) by {
      assert forall i: nat :: i < 6 ==> Leads(i);
    }
    assert s == LOSING_STATES[|LOSING|];
  }

  // ----- the time to live -----

  /** A saved key is there as long as a window of it runs, at least a second, and is gone after. */
  lemma SavedKeyCoversItsWindows(edu: Time, load: Time, at: Time, arrival: Time, t: Time)
    requires at <= arrival <= t
    ensures var e := Saved(edu, load, at, arrival);
            && (Running(e, t) && t > ZERO ==> Visible(e, t) && (t < edu || t < load))
            && (t < arrival + SECOND && Later(edu, load) <= at ==> Visible(e, t))
            && (Visible(e, t) ==> t < Later(edu, load) + (arrival - at) || t < arrival + SECOND)
  {
  }

  /** The worker's key outlives the grace period it protects; with a period of 0 it stays for
      ever, but then nothing runs. */
  lemma GraceKeyOutlivesGrace(hours: int, at: Time, arrival: Time, t: Time)
    requires ZERO < at <= arrival <= t
    ensures var e := Graced(hours, at, arrival);
            && (t < at + hours * HOUR <==> Running(e, t))
            && (Running(e, t) ==> Visible(e, t))
            && (hours <= 0 ==> Visible(e, t) && !Running(e, t))
  {
  }
}
