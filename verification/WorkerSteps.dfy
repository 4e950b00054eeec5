/** The worker's handling of one message, cut into its atomic effects.  A step carries the
    answer of the call it makes; the phase says where the handler of the message stands. */
module WorkerSteps {
  import opened Numbers
  import opened Ledger

  datatype Phase =
    | Queued                     // in the subscription, deliverable
    | Delivered                  // handler entered, wallet not asked yet
    | AskingUsage                // the wallet did not answer
    | Posting                    // the deduction is taken to have happened
    | Posted                     // ledger transaction committed
    | Releasing(posted: bool)    // about to delete the in-progress entry
    | Finishing(posted: bool)    // entry dealt with, bookkeeping left
    | Acked(posted: bool)

  datatype Step =
    | Deliver
    | Reject                                   // payload does not decode or validate
    | WalletOk
    // without a success answer the wallet may or may not have debited
    | WalletUnknown(recorded: bool, debited: bool)   // unknown response format or non-API error
    | WalletSilent(debited: bool)                    // no HTTP response
    | WalletRefused(recorded: bool, text: string, again: bool, debited: bool)
    | UsageFailed                              // usage lookup failed, message goes to GCS
    | UsageNoBucket(recorded: bool)
    | UsageDeducted
    | UsageNotDeducted
    | PostDone
    | PostFailed
    | PublishDone
    | PublishFailed
    | Released
    | ReleaseFailed
    | Finish

  const UNKNOWN_RESPONSE := 
    "Unknown response struct format/ non -api error from decrement wallet subscription"
  const MISSING_BUCKET := 
    "Subscriber does not have matching data wallet to deduct from (wallet may have expired or exhausted)"

  /** The handler may still write the wallet or the ledger, or is yet to release the entry. */
  predicate Live(p: Phase) {
    !p.Finishing? && !p.Acked?
  }

  predicate HasPosted(p: Phase) {
    p.Posted? || ((p.Releasing? || p.Finishing? || p.Acked?) && p.posted)
  }

  /** Control flow of the handler; None where the code has no such branch. */
  function NextPhase(p: Phase, s: Step): Option<Phase> {
    match p
    case Queued => if s.Deliver? then Some(Delivered) else None
    case Delivered =>
      (match s
       case Reject => Some(Queued)
       case WalletOk => Some(Posting)
       case WalletUnknown(_, _) => Some(Releasing(false))
       case WalletSilent(_) => Some(AskingUsage)
       case WalletRefused(_, _, again, _) => Some(if again then Queued else Releasing(false))
       case _ => None)
    case AskingUsage =>
      (match s
       case UsageFailed => Some(Acked(false))
       case UsageNoBucket(_) => Some(Releasing(false))
       case UsageDeducted => Some(Posting)
       case UsageNotDeducted => Some(Queued)
       case _ => None)
    case Posting =>
      if s.PostDone? then Some(Posted) else if s.PostFailed? then Some(Acked(false)) else None
    case Posted =>
      if s.PublishDone? then Some(Releasing(true)) else if s.PublishFailed? then Some(Acked(true)) else None
    case Releasing(posted) =>
      if s.Released? then Some(Finishing(posted))
      else if s.ReleaseFailed? then Some(if posted then Acked(true) else Finishing(false))
      else None
    case Finishing(posted) => if s.Finish? then Some(Acked(posted)) else None
    case Acked(_) => None
  }

  predicate Enabled(db: Db, msg: Msg, p: Phase, s: Step, now: Time) {
    NextPhase(p, s).Some? && (s.PostDone? ==> Post(db, msg, now).Some?)
  }

  function Record(db: Db, msg: Msg, recorded: bool, text: string, now: Time): Db {
    if recorded then CreateCollection(db, FailureRecord(msg, text, now)) else db
  }

  function LedgerEffect(db: Db, msg: Msg, s: Step, now: Time): Db
    requires s.PostDone? ==> Post(db, msg, now).Some?
  {
    match s
    case WalletUnknown(recorded, _) => Record(db, msg, recorded, UNKNOWN_RESPONSE, now)
    case WalletRefused(recorded, text, _, _) => Record(db, msg, recorded, text, now)
    case UsageNoBucket(recorded) => Record(db, msg, recorded, MISSING_BUCKET, now)
    case PostDone => Post(db, msg, now).value
    case _ => db
  }

  /** DeleteOne by MSISDN. */
  function DeleteEntry(locks: multiset<Msisdn>, m: Msisdn): multiset<Msisdn> {
    locks - multiset{m}
  }

  function LockEffect(locks: multiset<Msisdn>, m: Msisdn, s: Step): multiset<Msisdn> {
    if s.Released? then DeleteEntry(locks, m) else locks
  }
}
