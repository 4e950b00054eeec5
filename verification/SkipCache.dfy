/** The Redis keys skipTimestamps:<MSISDN> in front of the loan documents' own skip windows:
    loan-availment, the producer and the worker all write them, and Redis may drop one at any
    moment.  Times are nanoseconds. */
module SkipCache {
  import opened Numbers

  type Time = int
  type Subscriber = nat

  /** Go's zero time, year 1; it is what an absent timestamp decodes to. */
  const ZERO: Time := -62135596800 * SECOND
  const SECOND: Time := 1000000000
  const HOUR: Time := 3600 * SECOND

  /** The timestamps of a loan document.  `rated`: its conversion rate is not 0.  No service
      writes educationPeriodTimestamp. */
  datatype SkipLoan = SkipLoan(edu: Time, load: Time, education: Time, grace: Time, rated: bool)

  /** SkipTimestamps as the producer decodes it, and the key's expiry (None: kept for ever). */
  datatype Entry = Entry(edu: Time, load: Time, grace: Time, expires: Option<Time>)

  predicate Visible(e: Entry, t: Time) {
    e.expires.None? || t < e.expires.value
  }

  predicate Running(e: Entry, t: Time) {
    t < e.edu || t < e.load || t < e.grace
  }

  predicate IsSkipPeriodActive(t: Time, education: Time, load: Time, grace: Time) {
    !(education < t) || !(load < t) || !(grace < t)
  }

  /** CheckIfOldOrNewLoan. */
  predicate IsNew(loan: SkipLoan) {
    loan.rated || loan.edu != ZERO || loan.load != ZERO
  }

  /** The direct check; the producer passes EducationPeriodTimestamp where the parameter is the
      grace period. */
  predicate DirectActive(loan: SkipLoan, t: Time) {
    IsSkipPeriodActive(t, loan.edu, loan.load, loan.education)
  }

  function Later(a: Time, b: Time): (r: Time)
    ensures r >= a && r >= b && (r == a || r == b)
  {
    if b > a then b else a
  }

  /** What SaveSkipTimestamps leaves in Redis: `at` is when the time to live is computed,
      `arrival` when Redis starts to count it. */
  function Saved(edu: Time, load: Time, at: Time, arrival: Time): Entry {
    var ttl := Later(edu, load) - at;
    Entry(edu, load, ZERO, Some(arrival + if ttl <= 0 then SECOND else ttl))
  }

  function SetExpiry(ttl: Time, arrival: Time): Option<Time> {
    if ttl > 0 then Some(arrival + ttl) else None
  }

  /** insertSkipTimestampsInRedis of the worker: only the grace period is set; a period of 0
      hours sets no expiry at all. */
  function Graced(hours: int, at: Time, arrival: Time): Entry {
    Entry(ZERO, ZERO, at + hours * HOUR, SetExpiry(hours * HOUR, arrival))
  }

  /** loan-availment writes the education window under another JSON name than the one the
      producer reads, so it decodes to the zero time. */
  function Availed(edu: Time, load: Time, at: Time, arrival: Time): Entry {
    Entry(ZERO, load, ZERO, SetExpiry(Later(edu, load) - at, arrival))
  }

  // ----- one promo event -----

  /** What an old loan is given: its windows and a conversion rate. */
  datatype Adoption = Adoption(edu: Time, load: Time, rate: real)

  /** Answers one event meets.  `looked`, `asked` and `saving` are the moments of the cached check,
      of the direct check and of the save, `arrival` when Redis gets the saved key. */
  datatype Arrival = Arrival(
    looked: Time, asked: Time, saving: Time, arrival: Time,
    got: bool, deleted: bool, found: bool,
    whitelisted: bool, adopted: Option<Adoption>, unlisted: bool, saved: bool)

  predicate Ordered(now: Time, a: Arrival) {
    now <= a.looked <= a.asked <= a.saving <= a.arrival
  }

  /** checkRedisForActivePeriod: whether to stop, and the key afterwards. */
  function CheckCache(cache: Option<Entry>, a: Arrival): (bool, Option<Entry>) {
    if !a.got then (true, cache)
    else if cache.None? || !Visible(cache.value, a.looked) then (false, cache)
    else if Running(cache.value, a.looked) then (true, cache)
    else if a.deleted then (false, None)
    else (true, cache)
  }

  /** `rate`: the conversion rate written to an old loan. */
  datatype Outcome = Outcome(skip: bool, loan: Option<SkipLoan>, cache: Option<Entry>, rate: Option<real>)

  function Keep(loan: SkipLoan, cache: Option<Entry>, a: Arrival): Option<Entry> {
    if a.saved then Some(Saved(loan.edu, loan.load, a.saving, a.arrival)) else cache
  }

  function Adopted(loan: SkipLoan, n: Adoption): SkipLoan {
    loan.(edu := n.edu, load := n.load, rated := n.rate != 0.0)
  }

  function OldLoan(loan: SkipLoan, cache: Option<Entry>, a: Arrival): Outcome {
    if !a.whitelisted || a.adopted.None? then Outcome(true, Some(loan), cache, None)
    else
      var loan1 := Adopted(loan, a.adopted.value);
      var rate := Some(a.adopted.value.rate);
      if !a.unlisted then Outcome(true, Some(loan1), cache, rate)
      else if IsSkipPeriodActive(a.asked, loan1.edu, loan1.load, ZERO) then
        Outcome(true, Some(loan1), Keep(loan1, cache, a), rate)
      else Outcome(false, Some(loan1), cache, rate)
  }

  function NewLoan(loan: SkipLoan, cache: Option<Entry>, a: Arrival): Outcome {
    if DirectActive(loan, a.asked) then Outcome(true, Some(loan), Keep(loan, cache, a), None)
    else Outcome(false, Some(loan), cache, None)
  }

  /** Steps 4 to 8 of CheckBusinessLevelRulesForPromoCollection. */
  function Check(loan: Option<SkipLoan>, cache: Option<Entry>, a: Arrival): Outcome {
    var (stop, cache1) := CheckCache(cache, a);
    if stop || !a.found || loan.None? then Outcome(true, loan, cache1, None)
    else if IsNew(loan.value) then NewLoan(loan.value, cache1, a)
    else OldLoan(loan.value, cache1, a)
  }

  /** getTotalUnpaidLoan's repair writes EducationPeriodTimestamp into the promo education field. */
  function Repair(loan: SkipLoan): SkipLoan {
    loan.(edu := loan.education)
  }

  // ----- the adapter and the check as they are written -----

  function Key(keys: map<Subscriber, Entry>, m: Subscriber): Option<Entry> {
    if m in keys then Some(keys[m]) else None
  }

  class RedisStore {
    var keys: map<Subscriber, Entry>

    /** SaveSkipTimestamps of an entry without grace period. */
    method SaveSkipTimestamps(m: Subscriber, edu: Time, load: Time, at: Time, arrival: Time, ok: bool)
      modifies this
      ensures Key(keys, m) == if ok then Some(Saved(edu, load, at, arrival)) else Key(old(keys), m)
      ensures keys - {m} == old(keys) - {m}
    {
      var later := edu;
      if load > edu {
        later := load;
      }
      var ttl := later - at;
      if ttl <= 0 {
        ttl := SECOND;
      }
      if ok {
        keys := keys[m := Entry(edu, load, ZERO, Some(arrival + ttl))];
      }
    }

    /** checkRedisForActivePeriod. */
    method CheckActivePeriod(m: Subscriber, a: Arrival) returns (stop: bool)
      modifies this
      ensures (stop, Key(keys, m)) == CheckCache(Key(old(keys), m), a)
      ensures keys - {m} == old(keys) - {m}
    {
      if !a.got {
        return true;
      }
      if m !in keys || !Visible(keys[m], a.looked) {
        return false;
      }
      var e := keys[m];
      if a.looked < e.edu || a.looked < e.load || a.looked < e.grace {
        return true;
      }
      if a.deleted {
        keys := keys - {m};
      }
      return !a.deleted;
    }

    /** Steps 4 to 8: whether to skip, the loan document as it is afterwards, the rate it was given. */
    method CheckSkipWindows(m: Subscriber, loan: Option<SkipLoan>, a: Arrival)
      returns (skip: bool, loan': Option<SkipLoan>, rate: Option<real>)
      modifies this
      ensures Outcome(skip, loan', Key(keys, m), rate) == Check(loan, Key(old(keys), m), a)
      ensures keys - {m} == old(keys) - {m}
    {
      skip, loan', rate := true, loan, None;
      var stop := CheckActivePeriod(m, a);
      if stop || !a.found || loan.None? {
        return;
      }
      if !IsNew(loan.value) {
        skip, loan', rate := ProcessOldLoan(m, loan.value, a);
      } else {
        skip := DirectActive(loan.value, a.asked);
        if skip {
          SaveSkipTimestamps(m, loan.value.edu, loan.value.load, a.saving, a.arrival, a.saved);
        }
      }
    }

    /** processOldLoanForPromoCollection after the whitelist lookup. */
    method ProcessOldLoan(m: Subscriber, loan: SkipLoan, a: Arrival)
      returns (skip: bool, loan': Option<SkipLoan>, rate: Option<real>)
      modifies this
      ensures Outcome(skip, loan', Key(keys, m), rate) == OldLoan(loan, Key(old(keys), m), a)
      ensures keys - {m} == old(keys) - {m}
    {
      skip, loan', rate := true, Some(loan), None;
      if a.whitelisted && a.adopted.Some? {
        var n := a.adopted.value;
        loan', rate := Some(loan.(edu := n.edu, load := n.load, rated := n.rate != 0.0)), Some(n.rate);
        if a.unlisted {
          skip := IsSkipPeriodActive(a.asked, n.edu, n.load, ZERO);
          if skip {
            SaveSkipTimestamps(m, n.edu, n.load, a.saving, a.arrival, a.saved);
          }
        }
      }
    }
  }

  // ----- runs, seen from one subscriber -----

  /** Whether a collection message of the subscriber is out, and how far its handler got. */
  datatype Stage = Free | Collecting | Committed(hours: int)   // the grace period the document got

  /** `kept` is the end of the last grace period the worker wrote to Redis, `lost` whether that
      key, or the write of it, was lost, and `shorter` whether it got a shorter period than the
      loan document, as the worker reads the configured one twice. */
  datatype State = State(
    now: Time, loan: Option<SkipLoan>, cache: Option<Entry>, stage: Stage, lost: bool, shorter: bool, kept: Time)

  datatype Event =
    | Tick(to: Time)
    | Lose                                      // eviction, flush, delete by hand
    | Avail(edu: Time, load: Time, rated: bool, cached: bool, arrival: Time)
    | Migrate(loan: SkipLoan)
    | Arrive(a: Arrival, repair: bool, publishes: bool)
    | Drop                                      // the message ends without a transaction
    | CommitPartial(computed: Time, hours: int)
    | CommitFull
    | CacheGrace(hours: int, ok: bool, arrival: Time)

  predicate Enabled(s: State, e: Event) {
    match e
    case Tick(to) => s.now <= to
    case Lose => true
    case Avail(_, _, _, _, arrival) => s.loan.None? && s.now <= arrival
    case Migrate(loan) => s.loan.None? && loan.education < s.now && loan.grace <= s.now
    case Arrive(a, _, _) => s.stage == Free && Ordered(s.now, a)
    case Drop => s.stage == Collecting
    case CommitPartial(computed, _) => s.stage == Collecting && s.loan.Some? && computed <= s.now
    case CommitFull => s.stage == Collecting
    case CacheGrace(_, _, arrival) => s.stage.Committed? && s.now <= arrival
  }

  function AfterArrival(s: State, a: Arrival, repair: bool, publishes: bool): State {
    var o := Check(s.loan, s.cache, a);
    var s1 := s.(now := a.arrival, loan := o.loan, cache := o.cache);
    if o.skip || o.loan.None? then s1
    else s1.(loan := Some(if repair then Repair(o.loan.value) else o.loan.value),
             stage := if publishes then Collecting else Free)
  }

  function Next(s: State, e: Event): State
    requires Enabled(s, e)
  {
    match e
    case Tick(to) => s.(now := to)
    case Lose => s.(cache := None, lost := true)
    case Avail(edu, load, rated, cached, arrival) =>
      s.(now := arrival, loan := Some(SkipLoan(edu, load, ZERO, ZERO, rated)),
         lost := false, shorter := false, kept := ZERO,
         cache := if cached then Some(Availed(edu, load, s.now, arrival)) else s.cache)
    case Migrate(loan) => s.(loan := Some(loan), lost := false, shorter := false, kept := ZERO)
    case Arrive(a, repair, publishes) => AfterArrival(s, a, repair, publishes)
    case Drop => s.(stage := Free)
    case CommitPartial(computed, hours) =>
      s.(loan := Some(s.loan.value.(grace := computed + hours * HOUR)), stage := Committed(hours))
    case CommitFull => s.(loan := None, stage := Free)
    case CacheGrace(hours, ok, arrival) =>
      var grace := Graced(hours, s.now, arrival);
      s.(now := arrival, stage := Free, lost := !ok, shorter := hours < s.stage.hours,
         cache := if ok then Some(grace) else s.cache, kept := if ok then grace.grace else s.kept)
  }

  predicate Init(s: State) {
    s == State(s.now, None, None, Free, false, false, ZERO) && s.now > ZERO
  }

  ghost predicate Run(ss: seq<State>, es: seq<Event>) {
    && |ss| == |es| + 1 && Init(ss[0])
    && forall i :: 0 <= i < |es| ==> Enabled(ss[i], es[i]) && ss[i + 1] == Next(ss[i], es[i])
  }

  ghost predicate Reachable(s: State) {
    exists ss, es :: Run(ss, es) && s == ss[|es|]
  }
}
