/** Which loans an event gets past, told by the fields of the document, the key and the answers. */
module SkipDecisions {
  import opened Numbers
  import opened SkipCache
  import opened SkipCacheTheorems

  /** Redis answered, and the key is gone, expired, or held only periods that have ended and could
      be deleted. */
  predicate KeyLetsPass(cache: Option<Entry>, a: Arrival) {
    && a.got
    && (cache.None?
        || (cache.value.expires.Some? && cache.value.expires.value <= a.looked)
        || (cache.value.edu <= a.looked && cache.value.load <= a.looked && cache.value.grace <= a.looked && a.deleted))
  }

  /** A loan with a rate or a window is decided by its three timestamps alone and never changed,
      whatever the whitelist answers. */
  lemma LoanWithTerms(loan: SkipLoan, cache: Option<Entry>, a: Arrival)
    requires HasTerms(loan)
    ensures var o := Check(Some(loan), cache, a);
            && o.loan == Some(loan) && o.rate == None
            && (!o.skip <==> KeyLetsPass(cache, a) && a.found && !InWindow(loan, a.asked))
    ensures forall listed, given, unlisted ::
              Check(Some(loan), cache, a.(whitelisted := listed, adopted := given, unlisted := unlisted))
              == Check(Some(loan), cache, a)
  {
  }

  /** A loan without rate and windows gets past only if the subscriber is whitelisted, the adoption
      is written, the whitelist entry is deleted and the windows it was given have passed; it then
      has exactly those windows and that rate, and it has them as soon as the adoption is written. */
  lemma LoanWithoutTerms(loan: SkipLoan, cache: Option<Entry>, a: Arrival)
    requires !HasTerms(loan)
    ensures var o := Check(Some(loan), cache, a);
            var given := KeyLetsPass(cache, a) && a.found && a.whitelisted && a.adopted.Some?;
            && (given ==>
                  && o.rate == Some(a.adopted.value.rate)
                  && o.loan == Some(SkipLoan(a.adopted.value.edu, a.adopted.value.load, loan.education, loan.grace,
                                             a.adopted.value.rate != 0.0)))
            && (!given ==> o.rate == None && o.loan == Some(loan))
            && (!o.skip <==>
                  && given && a.unlisted && ZERO < a.asked
                  && a.adopted.value.edu < a.asked && a.adopted.value.load < a.asked)
  {
  }

  /** Without a loan nothing goes on; the key is deleted only when all of it has ended, and written
      only by a skipped event, with the windows of the loan and their expiry. */
  lemma KeyAfterwards(loan: Option<SkipLoan>, cache: Option<Entry>, a: Arrival)
    ensures var o := Check(loan, cache, a);
            && (loan.None? ==> o.skip && o.loan.None?)
            && (o.cache == cache
                || (o.cache.None? && KeyLetsPass(cache, a))
                || (KeyLetsPass(cache, a) && o.skip && a.saved && o.loan.Some?
                    && o.cache == Some(Saved(o.loan.value.edu, o.loan.value.load, a.saving, a.arrival))))
            && (KeyLetsPass(cache, a) && loan.Some? && HasTerms(loan.value) && a.found && a.saved
                && InWindow(loan.value, a.asked) ==>
                  o.cache == Some(Saved(loan.value.edu, loan.value.load, a.saving, a.arrival)))
  {
  }

  // ----- the two keys other services write -----

  /** The key loan-availment writes carries the load window only; it lasts until the later window
      has passed, or for ever if none is ahead. */
  lemma AvailedKey(s: State, edu: Time, load: Time, rated: bool, arrival: Time, t: Time)
    requires Enabled(s, Avail(edu, load, rated, true, arrival)) && s.now > ZERO && arrival <= t
    ensures var s' := Next(s, Avail(edu, load, rated, true, arrival));
            && s'.loan == Some(SkipLoan(edu, load, ZERO, ZERO, rated)) && s'.cache.Some? && s'.now == arrival
            && (Running(s'.cache.value, t) <==> t < load)
            && (t < load ==> Visible(s'.cache.value, t))
            && (Later(edu, load) > s.now && Later(edu, load) + (arrival - s.now) <= t ==> !Visible(s'.cache.value, t))
  {
  }

  /** After a partial collection whose key was written, no event gets past for the configured
      number of hours, whatever the windows of the loan, as long as the key is there. */
  lemma GracePeriodLasts(s: State, hours: int, arrival: Time, a: Arrival)
    requires Enabled(s, CacheGrace(hours, true, arrival)) && arrival <= a.looked
    ensures var s' := Next(s, CacheGrace(hours, true, arrival));
            a.looked < s.now + hours * HOUR ==> Check(s'.loan, s'.cache, a).skip
  {
  }

  /** The transaction of a partial collection gives the document its grace period. */
  lemma DocumentGrace(s: State, computed: Time, hours: int)
    requires Enabled(s, CommitPartial(computed, hours))
    ensures var s' := Next(s, CommitPartial(computed, hours));
            && s'.loan == Some(s.loan.value.(grace := computed + hours * 3600000000000))
            && s'.cache == s.cache && s'.stage == Committed(hours)
  {
  }

  // ----- what the other steps leave -----

  /** An event leaves the key and the loan of its check, the loan refilled if it went on and its
      balance was; a message is out exactly if it went on and published. */
  lemma EventLeaves(s: State, a: Arrival, repair: bool, publishes: bool)
    requires Enabled(s, Arrive(a, repair, publishes))
    ensures var o := Check(s.loan, s.cache, a); var s' := Next(s, Arrive(a, repair, publishes));
            && s'.now == a.arrival && s'.cache == o.cache && s'.lost == s.lost && s'.kept == s.kept
            && (o.skip ==> s'.loan == o.loan && s'.stage == Free)
            && (!o.skip ==>
                  && o.loan.Some? && (s'.stage == Collecting <==> publishes) && (s'.stage == Free <==> !publishes)
                  && s'.loan == Some(if repair then o.loan.value.(edu := o.loan.value.education) else o.loan.value))
  {
  }

  /** A loan arrives or goes; nobody's key is touched by that. */
  lemma LoansComeAndGo(s: State, loan: SkipLoan)
    ensures Enabled(s, Migrate(loan)) ==>
              var s' := Next(s, Migrate(loan));
              s' == State(s.now, Some(loan), s.cache, s.stage, false, false, ZERO)
    ensures Enabled(s, CommitFull) ==>
              Next(s, CommitFull) == State(s.now, None, s.cache, Free, s.lost, s.shorter, s.kept)
    ensures Enabled(s, Drop) ==>
              Next(s, Drop) == State(s.now, s.loan, s.cache, Free, s.lost, s.shorter, s.kept)
  {
  }

  /** The worker's key: written or lost, the clock at its arrival, the subscriber free again. */
  lemma GraceKeyWritten(s: State, hours: int, ok: bool, arrival: Time)
    requires Enabled(s, CacheGrace(hours, ok, arrival))
    ensures var s' := Next(s, CacheGrace(hours, ok, arrival));
            && s'.now == arrival && s'.stage == Free && s'.loan == s.loan
            && (ok ==> !s'.lost && s'.kept == s.now + hours * HOUR && s'.cache.Some?
                       && s'.cache.value.grace == s'.kept && (s'.shorter <==> hours < s.stage.hours))
            && (!ok ==> s'.lost && s'.cache == s.cache && s'.kept == s.kept)
  {
  }

  /** A new loan starts with no grace period of its own. */
  lemma NewLoanStarts(s: State, edu: Time, load: Time, rated: bool, cached: bool, arrival: Time)
    requires Enabled(s, Avail(edu, load, rated, cached, arrival))
    ensures var s' := Next(s, Avail(edu, load, rated, cached, arrival));
            && s'.now == arrival && s'.loan == Some(SkipLoan(edu, load, ZERO, ZERO, rated)) && s'.stage == s.stage
            && !s'.lost && !s'.shorter && s'.kept == ZERO && (!cached ==> s'.cache == s.cache)
  {
  }
}
