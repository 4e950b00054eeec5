/** promo-collection-worker's message handler as it is written: methods that call the wallet,
    the stores and Kafka one after the other.  Every answer of an outside party is a field of
    `Answers`.  The handler is proved to walk through the step system of WorkerSteps, and the
    fate of the message, of the ledger and of the in-progress entry is given in closed form. */
module WorkerHandler {
  import opened Numbers
  import opened Deduction
  import opened Ledger
  import opened WorkerSteps

  /** DecrementWalletSubscriptionError; its Err field is never nil. */
  datatype WalletError = WalletError(
    resultCode: string, description: string, errorCode: string, errorDetails: string, statusCode: int)
  {
    predicate IsNonAPIError() {
      errorCode == "" && errorDetails == "" && resultCode == "" && description == ""
    }
  }

  datatype WalletReply = Decremented | Failed(error: WalletError)

  /** RetrieveSubscriberUsage and FindMatchingBucketId. */
  datatype UsageReply = LookupFailed | NoMatchingBucket | Bucket(volumeRemaining: int)

  /** Which calls inside the transaction succeed. */
  datatype TxAnswers = TxAnswers(
    session: bool, first: bool, second: bool, third: bool, fourth: bool, fifth: bool, commit: bool)
  {
    /** The full transaction makes five writes, the partial one four. */
    predicate AllOk(kind: Kind) { session && first && second && third && fourth && (kind == Full ==> fifth) && commit }
  }

  /** `debited` tells what a wallet did that gave no success answer; the handler never learns it. */
  datatype Answers = Answers(
    decodes: bool, wallet: WalletReply, debited: bool, usage: UsageReply,
    record: bool, loan: bool, rules: bool, tx: TxAnswers,
    kafka: bool, delete: bool, flag: bool)

  datatype Action = Ack | Nack | Ignore

  const SYSTEM_ERROR_CODE := 9000
  const OUTBOUND_CONN_ERROR := "OUTBOUND_CONN_ERROR"

  predicate IsDigits(s: string) {
    s != "" && forall i :: 0 <= i < |s| ==> '0' <= s[i] <= '9'
  }

  function Digits(s: string): int
    requires forall i :: 0 <= i < |s| ==> '0' <= s[i] <= '9'
  {
    if s == "" then 0 else 10 * Digits(s[..|s| - 1]) + (s[|s| - 1] as int - '0' as int)
  }

  /** strconv.Atoi with the error dropped: 0 when the text is not a number. */
  function Atoi(s: string): int {
    if IsDigits(s) then Digits(s)
    else if s != "" && (s[0] == '-' || s[0] == '+') && IsDigits(s[1..]) then
      (if s[0] == '-' then -Digits(s[1..]) else Digits(s[1..]))
    else 0
  }

  /** The code DecrementWalletErrorHandler looks at. */
  function CodeOf(e: WalletError): string {
    if e.statusCode != 200 then e.errorCode else e.resultCode
  }

  function TextOf(e: WalletError): string {
    if e.statusCode != 200 then e.errorDetails else e.description
  }

  predicate RetryLater(e: WalletError) {
    Atoi(CodeOf(e)) == SYSTEM_ERROR_CODE || e.errorCode == OUTBOUND_CONN_ERROR
  }

  /** CheckAndProcessBalance: promised MB minus remaining KB / 1024 against the MB to deduct. */
  predicate DeductionHappened(wallet: int, volumeRemaining: int, data: real) {
    wallet as real - volumeRemaining as real / 1024.0 >= data
  }

  // ----- the closed form of one delivery -----

  datatype Course =
    | Malformed | Unknown | Refused(again: bool, text: string) | LookupLost | NoBucket | NotDeducted | Deducted

  /** What the wallet and usage answers amount to. */
  function CourseOf(msg: Msg, a: Answers): Course {
    if !a.decodes then Malformed
    else match a.wallet
      case Decremented => Deducted
      case Failed(e) =>
        if e.statusCode == -1 then
          match a.usage
          case LookupFailed => LookupLost
          case NoMatchingBucket => NoBucket
          case Bucket(v) => if DeductionHappened(msg.wallet, v, msg.data) then Deducted else NotDeducted
        else if e.IsNonAPIError() then Unknown
        else Refused(RetryLater(e), TextOf(e))
  }

  function ActionOf(c: Course): Action {
    match c
    case Malformed => Nack
    case NotDeducted => Nack
    case Refused(again, _) => if again then Ignore else Ack
    case _ => Ack
  }

  /** The ledger transaction goes through. */
  predicate Commits(db: Db, msg: Msg, a: Answers) {
    && a.tx.AllOk(msg.kind) && Post(db, msg, 0).Some?
    && (msg.kind == Partial ==> a.loan && a.rules)
  }

  /** The in-progress entry is deleted. */
  predicate Frees(db: Db, msg: Msg, a: Answers) {
    match CourseOf(msg, a)
    case Unknown => a.delete
    case NoBucket => a.delete
    case Refused(again, _) => !again && a.delete
    case Deducted => Commits(db, msg, a) && a.kafka && a.delete
    case _ => false
  }

  /** The Collections document of this delivery is flagged as published: never for an unknown
      response or for a record that was not written, and for a success only after the in-progress
      entry is deleted. */
  predicate Flags(db: Db, msg: Msg, a: Answers) {
    match CourseOf(msg, a)
    case NoBucket => a.record && a.kafka && a.flag
    case Refused(_, _) => a.record && a.kafka && a.flag
    case Deducted => Commits(db, msg, a) && a.kafka && a.delete && a.flag
    case _ => false
  }

  /** The ledger afterwards: the transaction, a failure record with its text, or what it was. */
  function LedgerAfter(db: Db, msg: Msg, a: Answers, now: Time): Db {
    match CourseOf(msg, a)
    case Unknown => Record(db, msg, a.record, UNKNOWN_RESPONSE, now)
    case Refused(_, text) => Record(db, msg, a.record, text, now)
    case NoBucket => Record(db, msg, a.record, MISSING_BUCKET, now)
    case Deducted => Settled(db, msg, a, now)
    case _ => db
  }

  function Settled(db: Db, msg: Msg, a: Answers, now: Time): Db {
    if Commits(db, msg, a) && Post(db, msg, now).Some? then Post(db, msg, now).value else db
  }

  /** Where the message stands: acknowledged, or back in the queue. */
  function FinalPhase(db: Db, msg: Msg, a: Answers): Phase {
    if ActionOf(CourseOf(msg, a)) == Ack then Acked(CourseOf(msg, a) == Deducted && Commits(db, msg, a)) else Queued
  }

  function EntriesAfter(entries: multiset<Msisdn>, db: Db, msg: Msg, a: Answers): multiset<Msisdn> {
    if Frees(db, msg, a) then WorkerSteps.DeleteEntry(entries, msg.msisdn) else entries
  }

  function FlaggedAfter(flagged: set<nat>, db: Db, msg: Msg, a: Answers): set<nat> {
    if Flags(db, msg, a) then flagged + {|db.collections|} else flagged
  }

  // ----- walking the step system -----

  datatype Stage = Stage(db: Db, locks: multiset<Msisdn>, phase: Phase)

  /** Where a handler that took these steps stands. */
  ghost function Walk(from: Stage, msg: Msg, steps: seq<Step>, now: Time): Option<Stage> {
    if steps == [] then Some(from)
    else
      var step := steps[|steps| - 1];
      match Walk(from, msg, steps[..|steps| - 1], now)
      case None => None
      case Some(at) =>
        if !Enabled(at.db, msg, at.phase, step, now) then None
        else Some(Stage(LedgerEffect(at.db, msg, step, now), LockEffect(at.locks, msg.msisdn, step),
                        NextPhase(at.phase, step).value))
  }

  /** At most one failure record was added. */
  ghost predicate OnlyRecorded(db: Db, from: Db, msg: Msg, now: Time) {
    db == from || exists text :: db == CreateCollection(from, FailureRecord(msg, text, now))
  }

  predicate Undecided(p: Phase) {
    p.Delivered? || p.AskingUsage? || p.Posting?
  }

  /** One delivery either applies the transaction once to the stores it found and writes nothing
      else, or leaves every balance alone and adds at most a failure record. */
  lemma {:induction false} DeliveryWritesOnce(from: Stage, msg: Msg, steps: seq<Step>, now: Time)
    requires from.phase == Delivered && Deliver !in steps && Walk(from, msg, steps, now).Some?
    ensures var at := Walk(from, msg, steps, now).value;
            && (HasPosted(at.phase) ==> Post(from.db, msg, now) == Some(at.db))
            && (Undecided(at.phase) ==> at.db == from.db)
            && (!HasPosted(at.phase) ==> OnlyRecorded(at.db, from.db, msg, now))
  {
    if steps != [] {
      hide Post, FailureRecord;
      var n := |steps| - 1;
      DeliveryWritesOnce(from, msg, steps[..n], now);
      var at := Walk(from, msg, steps[..n], now).value;
      assert steps[n] in steps;
      StepWritesOnce(from.db, at.db, msg, at.phase, steps[n], now);
    }
  }

  lemma StepWritesOnce(from: Db, db: Db, msg: Msg, p: Phase, s: Step, now: Time)
    requires Enabled(db, msg, p, s, now) && !s.Deliver?
    requires HasPosted(p) ==> Post(from, msg, now) == Some(db)
    requires Undecided(p) ==> db == from
    requires !HasPosted(p) ==> OnlyRecorded(db, from, msg, now)
    ensures var p' := NextPhase(p, s).value; var db' := LedgerEffect(db, msg, s, now);
            && (HasPosted(p') ==> Post(from, msg, now) == Some(db'))
            && (Undecided(p') ==> db' == from)
            && (!HasPosted(p') ==> OnlyRecorded(db', from, msg, now))
  {
    hide Post, FailureRecord, CreateCollection;
  }

  class Handler {
    // the stores
    var loans: map<Msisdn, Loan>
    var unpaid: map<LoanId, seq<UnpaidDoc>>
    var collections: seq<Collection>
    var closed: map<LoanId, seq<ClosedDoc>>
    var inProgress: multiset<Msisdn>
    var published: set<nat>      // Collections with publishedToKafka == true

    // the delivery being worked on
    const msg: Msg
    const now: Time
    ghost var from: Stage
    ghost var steps: seq<Step>
    ghost var at: Stage         // where the steps lead; lags behind the stores until Take

    function Stores(): Db
      reads this
    {
      Db(loans, unpaid, collections, closed)
    }

    /** The handler's state is the one the steps taken so far lead to. */
    ghost predicate Valid()
      reads this
    {
      && Walk(from, msg, steps, now) == Some(at) && Deliver !in steps
      && at.db == Stores() && at.locks == inProgress
      && FlagsExist()
    }

    /** Every flag is on a document of the store. */
    predicate FlagsExist()
      reads this
    {
      forall i :: i in published ==> i < |collections|
    }

    constructor (db: Db, locks: multiset<Msisdn>, flags: set<nat>, msg: Msg, now: Time)
      requires forall i :: i in flags ==> i < |db.collections|
      ensures Valid() && at.phase == Delivered && steps == []
      ensures Stores() == db && inProgress == locks && published == flags
      ensures this.msg == msg && this.now == now && from == Stage(db, locks, Delivered)
    {
      loans, unpaid, collections, closed := db.loans, db.unpaid, db.collections, db.closed;
      inProgress, published := locks, flags;
      this.msg, this.now := msg, now;
      from, steps, at := Stage(db, locks, Delivered), [], Stage(db, locks, Delivered);
    }

    // ----- repositories; the answer says whether the call succeeds -----

    method UpdateLoanDocument(id: LoanId, balance: real, ok: bool) returns (done: bool)
      modifies this`loans
      ensures done == ok && loans.Keys == old(loans).Keys
      ensures forall m :: m in loans && loans[m] != old(loans)[m] ==> ok && old(loans)[m].id == id
      ensures forall m :: m in loans && ok && loans[m].id == id ==> loans[m] == old(loans)[m].(unpaid := balance)
      ensures Stores() == if ok then Ledger.UpdateLoanDocument(old(Stores()), id, balance) else old(Stores())
    {
      if ok {
        loans := map m | m in loans :: if loans[m].id == id then loans[m].(unpaid := balance) else loans[m];
      }
      return ok;
    }

    method DeleteActiveLoan(id: LoanId, ok: bool) returns (done: bool)
      modifies this`loans
      ensures done == ok
      ensures forall m :: m in loans ==> m in old(loans) && loans[m] == old(loans)[m] && (ok ==> loans[m].id != id)
      ensures forall m :: m in old(loans) && m !in loans ==> ok && old(loans)[m].id == id
      ensures Stores() == if ok then Ledger.DeleteActiveLoan(old(Stores()), id) else old(Stores())
    {
      if ok {
        loans := map m | m in loans && loans[m].id != id :: loans[m];
      }
      return ok;
    }

    method UpdatePreviousValidTo(id: LoanId, ok: bool) returns (done: bool)
      modifies this`unpaid
      ensures done == (ok && CanSupersede(old(Stores()), id))
      ensures Stores() == if done then Ledger.UpdatePreviousValidTo(old(Stores()), id) else old(Stores())
    {
      if !ok || id !in unpaid || unpaid[id] == [] || !WholeDoc(Last(unpaid[id])) {
        return false;
      }
      var docs := unpaid[id];
      unpaid := unpaid[id := docs[|docs| - 1 := docs[|docs| - 1].(open := false)]];
      return true;
    }

    method CreateUnpaidLoanEntry(id: LoanId, doc: UnpaidDoc, ok: bool) returns (done: bool)
      modifies this`unpaid
      ensures done == ok && (!ok ==> unpaid == old(unpaid))
      ensures ok ==> id in unpaid && unpaid[id] != [] && Last(unpaid[id]) == doc
      ensures ok && id in old(unpaid) ==> unpaid[id][..|unpaid[id]| - 1] == old(unpaid)[id]
      ensures unpaid - {id} == old(unpaid) - {id}
      ensures Stores() == if ok then Ledger.CreateUnpaidLoanEntry(old(Stores()), id, doc) else old(Stores())
    {
      if ok {
        unpaid := unpaid[id := (if id in unpaid then unpaid[id] else []) + [doc]];
      }
      return ok;
    }

    /** CreateEntry of the Collections repository; a failed insert leaves an id that names no document. */
    method CreateEntry(c: Collection, ok: bool) returns (id: Option<nat>)
      modifies this`collections
      ensures id.Some? <==> ok
      ensures ok ==> id.value < |collections| && id.value == |old(collections)| && collections[id.value] == c
      ensures Stores() == if ok then CreateCollection(old(Stores()), c) else old(Stores())
    {
      if !ok {
        return None;
      }
      collections := collections + [c];
      return Some(|collections| - 1);
    }

    method CreateClosedLoansEntry(id: LoanId, doc: ClosedDoc, ok: bool) returns (done: bool)
      modifies this`closed
      ensures done == ok && (!ok ==> closed == old(closed))
      ensures ok ==> id in closed && closed[id] != [] && Last(closed[id]) == doc
      ensures ok && id !in old(closed) ==> |closed[id]| == 1
      ensures closed - {id} == old(closed) - {id}
      ensures Stores() == if ok then Ledger.CreateClosedLoansEntry(old(Stores()), id, doc) else old(Stores())
    {
      if ok {
        closed := closed[id := (if id in closed then closed[id] else []) + [doc]];
      }
      return ok;
    }

    /** UpdatePublishToKafka: an id that names no document matches nothing, which is no error. */
    method FlagPublished(id: Option<nat>, ok: bool)
      requires id.Some? ==> id.value < |collections|
      modifies this`published
      ensures published == if ok && id.Some? then old(published) + {id.value} else old(published)
      ensures old(FlagsExist()) ==> FlagsExist()
    {
      if ok && id.Some? {
        published := published + {id.value};
      }
    }

    /** runTransaction: an aborted session leaves the stores as they were. */
    method Rollback(to: Db)
      modifies this`loans, this`unpaid, this`collections, this`closed
      ensures Stores() == to
    {
      loans, unpaid, collections, closed := to.loans, to.unpaid, to.collections, to.closed;
    }

    // ----- the ghost walk -----

    ghost method Take(step: Step)
      requires Walk(from, msg, steps, now) == Some(at) && Deliver !in steps && !step.Deliver?
      requires Enabled(at.db, msg, at.phase, step, now)
      requires Stores() == LedgerEffect(at.db, msg, step, now)
      requires inProgress == LockEffect(at.locks, msg.msisdn, step) && FlagsExist()
      modifies this`steps, this`at
      ensures Valid() && steps == old(steps) + [step]
      ensures Some(at.phase) == NextPhase(old(at.phase), step)
    {
      assert (steps + [step])[..|steps|] == steps;
      at := Stage(Stores(), inProgress, NextPhase(at.phase, step).value);
      steps := steps + [step];
    }

    // ----- success handling -----

    /** performPartialDataTransaction. */
    method PerformPartialTransaction(loan: Loan, newUnpaid: real, rec: Collection, a: TxAnswers) returns (ok: bool)
      requires msg.msisdn in loans && loan == loans[msg.msisdn] && Readable(loan)
      requires newUnpaid == msg.unpaid - msg.amount && rec == PartialRecord(msg, newUnpaid, now)
      modifies this`loans, this`unpaid, this`collections, this`closed
      ensures ok <==> a.AllOk(Partial) && PostPartial(old(Stores()), msg, now).Some?
      ensures Stores() == if ok then PostPartial(old(Stores()), msg, now).value else old(Stores())
      ensures |collections| == |old(collections)| + if ok then 1 else 0
    {
      var before := Stores();
      if !a.session {
        return false;
      }
      ok := UpdateLoanDocument(loan.id, newUnpaid, a.first);
      if ok {
        ok := UpdatePreviousValidTo(loan.id, a.second);
        if ok {
          var recId := CreateEntry(rec, a.third);
          ok := recId.Some?;
          if ok {
            ok := CreateUnpaidLoanEntry(msg.loanId, PartialUnpaidDoc(msg, rec, recId.value), a.fourth);
          }
        }
      }
      if !ok || !a.commit {
        Rollback(before);
        return false;
      }
    }

    /** performFullDataTransaction. */
    method PerformFullTransaction(rec: Collection, a: TxAnswers) returns (ok: bool)
      requires rec == FullRecord(msg, now)
      modifies this`loans, this`unpaid, this`collections, this`closed
      ensures ok <==> a.AllOk(Full) && PostFull(old(Stores()), msg, now).Some?
      ensures Stores() == if ok then PostFull(old(Stores()), msg, now).value else old(Stores())
      ensures |collections| == |old(collections)| + if ok then 1 else 0
    {
      var before := Stores();
      if !a.session {
        return false;
      }
      ok := CreateClosedLoansEntry(msg.loanId, ClosedEntry(msg), a.first);
      if ok {
        var recId := CreateEntry(rec, a.second);
        ok := recId.Some?;
        if ok {
          ok := UpdatePreviousValidTo(msg.loanId, a.third);
          if ok {
            ok := CreateUnpaidLoanEntry(msg.loanId, FullUnpaidDoc(msg, rec, recId.value), a.fourth);
            if ok {
              ok := DeleteActiveLoan(msg.loanId, a.fifth);
            }
          }
        }
      }
      if !ok || !a.commit {
        Rollback(before);
        return false;
      }
    }

    /** PublishSuccess, then DeleteEntry, then UpdatePublishToKafka; each error ends the handler. */
    method Finalize(recId: nat, a: Answers)
      requires Valid() && at.phase == Posted && recId < |collections|
      modifies this`inProgress, this`published, this`steps, this`at
      ensures Valid() && at.phase == Acked(true)
      ensures inProgress == if a.kafka && a.delete
                            then WorkerSteps.DeleteEntry(old(inProgress), msg.msisdn) else old(inProgress)
      ensures published == if a.kafka && a.delete && a.flag then old(published) + {recId} else old(published)
    {
      hide Walk, Post, Record;
      if !a.kafka {
        Take(PublishFailed);
        return;
      }
      Take(PublishDone);
      ReleaseAndFlag(recId, a);
    }

    method ReleaseAndFlag(recId: nat, a: Answers)
      requires Valid() && at.phase == Releasing(true) && recId < |collections|
      modifies this`inProgress, this`published, this`steps, this`at
      ensures Valid() && at.phase == Acked(true)
      ensures inProgress == if a.delete then WorkerSteps.DeleteEntry(old(inProgress), msg.msisdn) else old(inProgress)
      ensures published == if a.delete && a.flag then old(published) + {recId} else old(published)
    {
      hide Walk, Post, Record, CreateCollection;
      if !a.delete {
        Take(ReleaseFailed);
        return;
      }
      inProgress := inProgress - multiset{msg.msisdn};
      Take(Released);
      FlagPublished(Some(recId), a.flag);
      Take(Finish);
    }

    /** PartialDataDeductionHandler. */
    method PartialDataDeduction(a: Answers)
      requires Valid() && at.phase == Posting && msg.kind == Partial
      modifies this
      ensures Valid() && at.phase == Acked(Commits(old(Stores()), msg, a)) && from == old(from)
      ensures Stores() == Settled(old(Stores()), msg, a, now)
      ensures inProgress == if Commits(old(Stores()), msg, a) && a.kafka && a.delete
                            then WorkerSteps.DeleteEntry(old(inProgress), msg.msisdn) else old(inProgress)
      ensures published == if Commits(old(Stores()), msg, a) && a.kafka && a.delete && a.flag
                           then old(published) + {|old(collections)|} else old(published)
    {
      hide PostPartial, PostFull, PartialRecord, FullRecord, Walk, Record, WorkerSteps.DeleteEntry;
      PostFindsDocuments(Stores(), msg, now);
      if !a.loan || msg.msisdn !in loans || !Readable(loans[msg.msisdn]) || !a.rules {
        Take(PostFailed);
        return;
      }
      var newUnpaid := msg.unpaid - msg.amount;
      var rec := PartialRecord(msg, newUnpaid, now);
      var ok := PerformPartialTransaction(loans[msg.msisdn], newUnpaid, rec, a.tx);
      FinishPosting(ok, |collections| - 1, a);
    }

    /** FullDataDeductionHandler. */
    method FullDataDeduction(a: Answers)
      requires Valid() && at.phase == Posting && msg.kind == Full
      modifies this
      ensures Valid() && at.phase == Acked(Commits(old(Stores()), msg, a)) && from == old(from)
      ensures Stores() == Settled(old(Stores()), msg, a, now)
      ensures inProgress == if Commits(old(Stores()), msg, a) && a.kafka && a.delete
                            then WorkerSteps.DeleteEntry(old(inProgress), msg.msisdn) else old(inProgress)
      ensures published == if Commits(old(Stores()), msg, a) && a.kafka && a.delete && a.flag
                           then old(published) + {|old(collections)|} else old(published)
    {
      hide PostPartial, PostFull, PartialRecord, FullRecord, Walk, Record, WorkerSteps.DeleteEntry;
      PostFindsDocuments(Stores(), msg, now);
      var ok := PerformFullTransaction(FullRecord(msg, now), a.tx);
      FinishPosting(ok, |collections| - 1, a);
    }

    /** What both handlers do once the transaction is over. */
    method FinishPosting(ok: bool, recId: int, a: Answers)
      requires Walk(from, msg, steps, now) == Some(at) && Deliver !in steps && FlagsExist()
      requires at.phase == Posting && at.locks == inProgress
      requires if ok then Post(at.db, msg, now) == Some(Stores()) else Stores() == at.db
      requires ok ==> 0 <= recId < |collections|
      modifies this`inProgress, this`published, this`steps, this`at
      ensures Valid() && at.phase == Acked(ok)
      ensures inProgress == if ok && a.kafka && a.delete
                            then WorkerSteps.DeleteEntry(old(inProgress), msg.msisdn) else old(inProgress)
      ensures published == if ok && a.kafka && a.delete && a.flag then old(published) + {recId} else old(published)
    {
      hide Walk, Post, Record, WorkerSteps.DeleteEntry;
      if !ok {
        Take(PostFailed);
      } else {
        Take(PostDone);
        Finalize(recId, a);
      }
    }

    /** The success handler the message's collection type selects. */
    method HandleSuccess(a: Answers)
      requires Valid() && at.phase == Posting
      modifies this
      ensures Valid() && at.phase == Acked(Commits(old(Stores()), msg, a)) && from == old(from)
      ensures Stores() == Settled(old(Stores()), msg, a, now)
      ensures inProgress == if Commits(old(Stores()), msg, a) && a.kafka && a.delete
                            then WorkerSteps.DeleteEntry(old(inProgress), msg.msisdn) else old(inProgress)
      ensures published == if Commits(old(Stores()), msg, a) && a.kafka && a.delete && a.flag
                           then old(published) + {|old(collections)|} else old(published)
    {
      hide Commits, Settled, Walk;
      match msg.kind
      case Partial => PartialDataDeduction(a);
      case Full => FullDataDeduction(a);
    }

    // ----- error handling -----

    /** SerializeCollections and CreateEntry for a failure. */
    method RecordFailure(text: string, a: Answers) returns (id: Option<nat>)
      requires FlagsExist()
      modifies this`collections
      ensures Stores() == Record(old(Stores()), msg, a.record, text, now) && FlagsExist()
      ensures id == if a.record then Some(|old(collections)|) else None
      ensures id.Some? ==> id.value < |collections|
    {
      hide FailureRecord;
      id := CreateEntry(FailureRecord(msg, text, now), a.record);
    }

    /** publishKafkaFailureIfConfigured, and DeleteEntry whose error is only logged. */
    method ReleaseAfterFailure(a: Answers)
      requires Valid() && at.phase == Releasing(false)
      modifies this`inProgress, this`steps, this`at
      ensures Valid() && at.phase == Acked(false)
      ensures inProgress == if a.delete then WorkerSteps.DeleteEntry(old(inProgress), msg.msisdn) else old(inProgress)
    {
      hide Walk, Post;
      if a.delete {
        inProgress := inProgress - multiset{msg.msisdn};
        Take(Released);
      } else {
        Take(ReleaseFailed);
      }
      Take(Finish);
    }

    /** HandleUnknownOrNonAPIError: record, release, publish; the flag is never set here. */
    method HandleUnknownOrNonAPIError(a: Answers) returns (action: Action)
      requires Valid() && at.phase == Delivered
      modifies this`collections, this`inProgress, this`steps, this`at
      ensures Valid() && at.phase == Acked(false) && action == Ack
      ensures Stores() == Record(old(Stores()), msg, a.record, UNKNOWN_RESPONSE, now)
      ensures inProgress == if a.delete then WorkerSteps.DeleteEntry(old(inProgress), msg.msisdn) else old(inProgress)
    {
      hide Walk, Post, Record, WorkerSteps.DeleteEntry;
      var id := RecordFailure(UNKNOWN_RESPONSE, a);
      Take(WalletUnknown(id.Some?, a.debited));
      ReleaseAfterFailure(a);
      action := Ack;
    }

    /** DecrementWalletErrorHandler: record, publish and flag, then ignore or release. */
    method HandleApiError(e: WalletError, a: Answers) returns (action: Action)
      requires Valid() && at.phase == Delivered
      modifies this`collections, this`published, this`inProgress, this`steps, this`at
      ensures Valid() && action == ActionOf(Refused(RetryLater(e), TextOf(e)))
      ensures at.phase == if RetryLater(e) then Queued else Acked(false)
      ensures Stores() == Record(old(Stores()), msg, a.record, TextOf(e), now)
      ensures inProgress == if !RetryLater(e) && a.delete
                            then WorkerSteps.DeleteEntry(old(inProgress), msg.msisdn) else old(inProgress)
      ensures published == if a.record && a.kafka && a.flag
                           then old(published) + {|old(collections)|} else old(published)
    {
      hide Walk, Post, Record, RetryLater, WorkerSteps.DeleteEntry, TextOf;
      var id := RecordFailure(TextOf(e), a);
      Take(WalletRefused(id.Some?, TextOf(e), RetryLater(e), a.debited));
      if a.kafka {
        FlagPublished(id, a.flag);
      }
      if RetryLater(e) {
        return Ignore;
      }
      ReleaseAfterFailure(a);
      action := Ack;
    }

    /** HandleError: a missing bucket is recorded and released, a failed lookup goes to GCS. */
    method HandleUsageError(missingBucket: bool, a: Answers)
      requires Valid() && at.phase == AskingUsage
      modifies this`collections, this`published, this`inProgress, this`steps, this`at
      ensures Valid() && at.phase == Acked(false)
      ensures Stores() == if missingBucket
                          then Record(old(Stores()), msg, a.record, MISSING_BUCKET, now) else old(Stores())
      ensures inProgress == if missingBucket && a.delete
                            then WorkerSteps.DeleteEntry(old(inProgress), msg.msisdn) else old(inProgress)
      ensures published == if missingBucket && a.record && a.kafka && a.flag
                           then old(published) + {|old(collections)|} else old(published)
    {
      hide Walk, Post, Record, WorkerSteps.DeleteEntry;
      if !missingBucket {
        Take(UsageFailed);
        return;
      }
      var id := RecordFailure(MISSING_BUCKET, a);
      Take(UsageNoBucket(id.Some?));
      ReleaseAfterFailure(a);
      if a.kafka {
        FlagPublished(id, a.flag);
      }
    }

    /** handleNoResponseCase and CheckAndProcessBalance. */
    method HandleNoResponse(a: Answers) returns (action: Action)
      requires Valid() && at.phase == AskingUsage && a.decodes && a.wallet.Failed? && a.wallet.error.statusCode == -1
      modifies this
      ensures Valid() && from == old(from) && action == ActionOf(CourseOf(msg, a))
      ensures at.phase == FinalPhase(old(Stores()), msg, a)
      ensures Stores() == LedgerAfter(old(Stores()), msg, a, now)
      ensures inProgress == EntriesAfter(old(inProgress), old(Stores()), msg, a)
      ensures published == FlaggedAfter(old(published), old(Stores()), msg, a)
    {
      hide Walk, Post, Record, DeductionHappened, FailureRecord, WorkerSteps.DeleteEntry, Commits, Settled;
      action := Ack;
      match a.usage
      case LookupFailed =>
        HandleUsageError(false, a);
      case NoMatchingBucket =>
        HandleUsageError(true, a);
      case Bucket(v) =>
        if DeductionHappened(msg.wallet, v, msg.data) {
          Take(UsageDeducted);
          HandleSuccess(a);
        } else {
          Take(UsageNotDeducted);
          action := Nack;
        }
    }

    /** handleDecrementError. */
    method HandleDecrementError(e: WalletError, a: Answers) returns (action: Action)
      requires Valid() && at.phase == Delivered && a.decodes && a.wallet == Failed(e)
      modifies this
      ensures Valid() && from == old(from) && action == ActionOf(CourseOf(msg, a))
      ensures at.phase == FinalPhase(old(Stores()), msg, a)
      ensures Stores() == LedgerAfter(old(Stores()), msg, a, now)
      ensures inProgress == EntriesAfter(old(inProgress), old(Stores()), msg, a)
      ensures published == FlaggedAfter(old(published), old(Stores()), msg, a)
    {
      hide Walk, Post, Record, FailureRecord, DeductionHappened, WorkerSteps.DeleteEntry, Commits, Settled;
      if e.IsNonAPIError() && e.statusCode != -1 {
        action := HandleUnknownOrNonAPIError(a);
      } else if e.statusCode == -1 {
        Take(WalletSilent(a.debited));
        action := HandleNoResponse(a);
      } else {
        action := HandleApiError(e, a);
      }
    }

    method RequestWallet(a: Answers) returns (action: Action)
      requires Valid() && at.phase == Delivered && a.decodes
      modifies this
      ensures Valid() && from == old(from) && action == ActionOf(CourseOf(msg, a))
      ensures at.phase == FinalPhase(old(Stores()), msg, a)
      ensures Stores() == LedgerAfter(old(Stores()), msg, a, now)
      ensures inProgress == EntriesAfter(old(inProgress), old(Stores()), msg, a)
      ensures published == FlaggedAfter(old(published), old(Stores()), msg, a)
    {
      hide Walk, Post, Record, FailureRecord, DeductionHappened, WorkerSteps.DeleteEntry, Commits, Settled;
      match a.wallet
      case Decremented =>
        Take(WalletOk);
        HandleSuccess(a);
        action := Ack;
      case Failed(e) =>
        action := HandleDecrementError(e, a);
    }

    /** One delivery of the message.  The action decides the message's fate in the subscription;
        an acknowledged message has posted exactly when the deduction is taken to have happened
        and the transaction went through, even if a later call failed.  The ledger is then that
        transaction applied once, else it is what it was or has one failure record more, with the
        text of its branch; the in-progress entry is gone exactly in the cases of Frees, and the
        record flagged exactly in those of Flags. */
    method HandlePromoCollectionMessage(a: Answers) returns (action: Action)
      requires Valid() && at.phase == Delivered && steps == []
      modifies this
      ensures Valid() && from == old(from) && action == ActionOf(CourseOf(msg, a))
      ensures at.phase == FinalPhase(old(Stores()), msg, a)
      ensures Stores() == LedgerAfter(old(Stores()), msg, a, now)
      ensures inProgress == EntriesAfter(old(inProgress), old(Stores()), msg, a)
      ensures published == FlaggedAfter(old(published), old(Stores()), msg, a)
    {
      hide Walk, Post, Record, Commits, Settled;
      if !a.decodes {
        Take(Reject);
        return Nack;
      }
      action := RequestWallet(a);
    }
  }

  /** After an acknowledgement the entry is still there in exactly three cases: the usage lookup
      failed, the success handler stopped before its delete, or a delete failed; without an
      acknowledgement it always is. */
  lemma EntryKeptIff(db: Db, msg: Msg, a: Answers)
    ensures ActionOf(CourseOf(msg, a)) == Ack ==>
              (!Frees(db, msg, a) <==> CourseOf(msg, a) == LookupLost
                                       || (CourseOf(msg, a) == Deducted && !(Commits(db, msg, a) && a.kafka))
                                       || !a.delete)
    ensures ActionOf(CourseOf(msg, a)) != Ack ==> !Frees(db, msg, a)
  {
  }

  /** Whether a transaction finds its documents does not depend on the clock. */
  lemma PostFindsDocuments(db: Db, msg: Msg, now: Time)
    ensures Post(db, msg, now).Some? <==> Post(db, msg, 0).Some?
    ensures msg.kind == Partial && (msg.msisdn !in db.loans || !Readable(db.loans[msg.msisdn])) ==>
              Post(db, msg, now).None?
  {
  }
}
