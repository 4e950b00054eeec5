/** How often the wallet is debited for one message, timed-out debits and redeliveries included.
    The bucket holds `kb` KB at first and only this message touches it. */
module Debits {
  import opened Numbers
  import opened Ledger
  import opened LedgerInvariant
  import opened Protocol
  import opened MessageTraces
  import opened WorkerHandler
  import opened BalanceCheck
  import opened ProtocolWitnesses
  import ProtocolTheorems
  import W = WorkerSteps

  function DebitsOf(steps: seq<W.Step>): nat {
    if steps == [] then 0
    else DebitsOf(steps[..|steps| - 1]) + Debit(steps[|steps| - 1])
  }

  /** A success answer means a debit; any other answer, or none, may hide one. */
  function Debit(s: W.Step): nat {
    if s.WalletOk? || ((s.WalletSilent? || s.WalletUnknown? || s.WalletRefused?) && s.debited) then 1 else 0
  }

  /** What the balance check says once the wallet was debited n times for the message. */
  predicate SaysDeducted(wallet: int, kb: int, data: real, n: nat) {
    DeductionHappened(wallet, kb - n * OrderedKb(data), data)
  }

  /** Every usage lookup that found the bucket was answered with what the bucket then held. */
  ghost predicate Truthful(steps: seq<W.Step>, wallet: int, kb: int, data: real) {
    forall k :: 0 <= k < |steps| ==> AnswersTruly(steps[k], wallet, kb, data, DebitsOf(steps[..k]))
  }

  predicate AnswersTruly(s: W.Step, wallet: int, kb: int, data: real, n: nat) {
    && (s.UsageDeducted? ==> SaysDeducted(wallet, kb, data, n))
    && (s.UsageNotDeducted? ==> !SaysDeducted(wallet, kb, data, n))
  }

  /** The check tells a debited bucket from an untouched one. */
  predicate CheckIsRight(wallet: int, kb: int, data: real) {
    SaysDeducted(wallet, kb, data, 1) && !SaysDeducted(wallet, kb, data, 0)
  }

  /** Where a message may stand after n debits if the check is right. */
  ghost predicate Accounted(p: W.Phase, n: nat, steps: seq<W.Step>) {
    match p
    case Queued => n == 0
    case Delivered => n == 0
    case AskingUsage => n <= 1
    case Posting => n == 1
    case Posted => n == 1
    case Releasing(posted) => if posted then n == 1 else GivenUp(n, steps)
    case Finishing(posted) => if posted then n == 1 else GivenUp(n, steps)
    case Acked(posted) => if posted then n == 1 else GivenUp(n, steps)
  }

  /** Debited at most once, and if so one of the branches that lose track of a debit was taken. */
  ghost predicate GivenUp(n: nat, steps: seq<W.Step>) {
    n <= 1 && (n == 1 ==> exists s :: s in steps && LosesDebit(s))
  }

  /** The message ends unposted although the wallet may have been debited: the transaction or the
      usage lookup failed, the bucket is missing, or the answer to the debit was unreadable or a
      refusal. */
  predicate LosesDebit(s: W.Step) {
    s.PostFailed? || s.UsageFailed? || s.UsageNoBucket? || ((s.WalletUnknown? || s.WalletRefused?) && s.debited)
  }

  /** A refusal after which the message is redelivered did not debit. */
  predicate Honest(s: W.Step) {
    s.WalletRefused? && s.again ==> !s.debited
  }

  predicate AllHonest(steps: seq<W.Step>) {
    forall s :: s in steps ==> Honest(s)
  }

  lemma OneMore(steps: seq<W.Step>, s: W.Step, wallet: int, kb: int, data: real)
    ensures PhaseAfter(steps).Some? ==> PhaseAfter(steps + [s]) == W.NextPhase(PhaseAfter(steps).value, s)
    ensures DebitsOf(steps + [s]) == DebitsOf(steps) + Debit(s)
    ensures Truthful(steps + [s], wallet, kb, data)
            <==> Truthful(steps, wallet, kb, data) && AnswersTruly(s, wallet, kb, data, DebitsOf(steps))
  {
    hide AnswersTruly, W.NextPhase, Debit, DebitsOf;
    var all := steps + [s];
    assert all[..|steps|] == steps && all[|steps|] == s;
    PhaseOneMore(steps, s);
    assert DebitsOf(all) == DebitsOf(all[..|steps|]) + Debit(s) by { LastDebit(all); }
    assert forall k :: 0 <= k < |steps| ==> all[..k] == steps[..k] && all[k] == steps[k];
    if Truthful(all, wallet, kb, data) {
      assert AnswersTruly(all[|steps|], wallet, kb, data, DebitsOf(all[..|steps|]));
      forall k | 0 <= k < |steps|
        ensures AnswersTruly(steps[k], wallet, kb, data, DebitsOf(steps[..k]))
      {
        assert AnswersTruly(all[k], wallet, kb, data, DebitsOf(all[..k]));
      }
    }
  }

  lemma LastDebit(steps: seq<W.Step>)
    requires steps != []
    ensures DebitsOf(steps) == DebitsOf(steps[..|steps| - 1]) + Debit(steps[|steps| - 1])
  {
  }

  lemma {:induction false} DebitsAccounted(steps: seq<W.Step>, wallet: int, kb: int, data: real)
    requires PhaseAfter(steps).Some? && Truthful(steps, wallet, kb, data) && AllHonest(steps)
    requires CheckIsRight(wallet, kb, data)
    ensures Accounted(PhaseAfter(steps).value, DebitsOf(steps), steps)
  {
    if steps != [] {
      hide CheckIsRight, W.NextPhase, Accounted;
      var n := |steps| - 1;
      assert steps == steps[..n] + [steps[n]];
      OneMore(steps[..n], steps[n], wallet, kb, data);
      PrefixPhase(steps, n);
      DebitsAccounted(steps[..n], wallet, kb, data);
      StepAccounted(PhaseAfter(steps[..n]).value, DebitsOf(steps[..n]), steps[..n], steps[n], wallet, kb, data);
    } else {
      assert Accounted(W.Queued, 0, []);
    }
  }

  lemma StepAccounted(p: W.Phase, n: nat, steps: seq<W.Step>, s: W.Step, wallet: int, kb: int, data: real)
    requires Accounted(p, n, steps) && W.NextPhase(p, s).Some? && CheckIsRight(wallet, kb, data)
    requires AnswersTruly(s, wallet, kb, data, n) && Honest(s)
    ensures Accounted(W.NextPhase(p, s).value, n + Debit(s), steps + [s])
  {
    hide SaysDeducted;
    assert s in steps + [s];
    assert n == 0 || n == 1 ==> (SaysDeducted(wallet, kb, data, n) <==> n == 1);
  }

  // ----- exactly when posted means debited once -----

  ghost predicate PostedMeansDebitedOnce(wallet: int, kb: int, data: real) {
    forall steps :: PostedJourney(steps, wallet, kb, data) ==> DebitsOf(steps) == 1
  }

  ghost predicate PostedJourney(steps: seq<W.Step>, wallet: int, kb: int, data: real) {
    PhaseAfter(steps) == Some(W.Posted) && Truthful(steps, wallet, kb, data) && AllHonest(steps)
  }

  const UNDEBITED: seq<W.Step> := [W.Deliver, W.WalletSilent(false), W.UsageDeducted, W.PostDone]
  const DEBITED_TWICE: seq<W.Step> :=
    [W.Deliver, W.WalletSilent(true), W.UsageNotDeducted, W.Deliver, W.WalletOk, W.PostDone]

  /** How a queued message is misposted when the check is wrong. */
  function Misposting(wallet: int, kb: int, data: real): seq<W.Step> {
    if SaysDeducted(wallet, kb, data, 0) then UNDEBITED else DEBITED_TWICE
  }

  /** A message can be posted without a debit exactly if an untouched bucket passes the check, and
      after two debits if a debited one does not; so every posted message was debited exactly
      once if and only if the check is right on both. */
  lemma DebitedOnceIff(wallet: int, kb: int, data: real)
    ensures PostedMeansDebitedOnce(wallet, kb, data) <==> CheckIsRight(wallet, kb, data)
  {
    hide SaysDeducted;
    if CheckIsRight(wallet, kb, data) {
      forall steps | PostedJourney(steps, wallet, kb, data)
        ensures DebitsOf(steps) == 1
      {
        DebitsAccounted(steps, wallet, kb, data);
      }
    } else {
      NoSteps(wallet, kb, data);
      var steps := Misposting(wallet, kb, data);
      MispostingJourney([], wallet, kb, data);
      assert [] + steps == steps;
      assert PostedJourney(steps, wallet, kb, data);
    }
  }

  lemma NoSteps(wallet: int, kb: int, data: real)
    ensures PhaseAfter([]) == Some(W.Queued) && DebitsOf([]) == 0 && Truthful([], wallet, kb, data)
  {
  }

  /** From any point at which the message is queued and was not debited. */
  lemma MispostingJourney(t: seq<W.Step>, wallet: int, kb: int, data: real)
    requires PhaseAfter(t) == Some(W.Queued) && DebitsOf(t) == 0 && Truthful(t, wallet, kb, data) && AllHonest(t)
    requires !CheckIsRight(wallet, kb, data)
    ensures var all := t + Misposting(wallet, kb, data);
            PostedJourney(all, wallet, kb, data) && DebitsOf(all) != 1
  {
    hide SaysDeducted, DebitsOf, PhaseAfter, Truthful;
    if SaysDeducted(wallet, kb, data, 0) {
      UndebitedJourney(t, wallet, kb, data);
    } else {
      TwiceDebitedJourney(t, wallet, kb, data);
    }
  }

  lemma UndebitedJourney(t: seq<W.Step>, wallet: int, kb: int, data: real)
    requires PhaseAfter(t) == Some(W.Queued) && DebitsOf(t) == 0 && Truthful(t, wallet, kb, data)
    requires SaysDeducted(wallet, kb, data, 0)
    ensures var all := t + UNDEBITED;
            PhaseAfter(all) == Some(W.Posted) && Truthful(all, wallet, kb, data) && DebitsOf(all) == 0
  {
    hide SaysDeducted, DebitsOf, PhaseAfter, Truthful;
    Grow(t, t + UNDEBITED[..2], W.Deliver, W.WalletSilent(false), wallet, kb, data);
    Grow(t + UNDEBITED[..2], t + UNDEBITED, W.UsageDeducted, W.PostDone, wallet, kb, data);
  }

  /** Two steps more. */
  lemma Grow(steps: seq<W.Step>, longer: seq<W.Step>, s: W.Step, t: W.Step, wallet: int, kb: int, data: real)
    requires longer == steps + [s] + [t]
    requires PhaseAfter(steps).Some? && W.NextPhase(PhaseAfter(steps).value, s).Some?
    requires Truthful(steps, wallet, kb, data) && AnswersTruly(s, wallet, kb, data, DebitsOf(steps))
    requires AnswersTruly(t, wallet, kb, data, DebitsOf(steps) + Debit(s))
    ensures PhaseAfter(longer) == W.NextPhase(W.NextPhase(PhaseAfter(steps).value, s).value, t)
    ensures DebitsOf(longer) == DebitsOf(steps) + Debit(s) + Debit(t) && Truthful(longer, wallet, kb, data)
  {
    hide AnswersTruly, Debit, DebitsOf, Truthful;
    OneMore(steps, s, wallet, kb, data);
    OneMore(steps + [s], t, wallet, kb, data);
  }

  lemma TwiceDebitedJourney(t: seq<W.Step>, wallet: int, kb: int, data: real)
    requires PhaseAfter(t) == Some(W.Queued) && DebitsOf(t) == 0 && Truthful(t, wallet, kb, data)
    requires !SaysDeducted(wallet, kb, data, 1)
    ensures var all := t + DEBITED_TWICE;
            PhaseAfter(all) == Some(W.Posted) && Truthful(all, wallet, kb, data) && DebitsOf(all) == 2
  {
    hide SaysDeducted, DebitsOf, PhaseAfter, Truthful;
    var s := DEBITED_TWICE;
    Grow(t, t + s[..2], W.Deliver, W.WalletSilent(true), wallet, kb, data);
    Grow(t + s[..2], t + s[..4], W.UsageNotDeducted, W.Deliver, wallet, kb, data);
    Grow(t + s[..4], t + s, W.WalletOk, W.PostDone, wallet, kb, data);
  }

  const REFUSED_BUT_DEBITED: seq<W.Step> :=
    [W.Deliver, W.WalletRefused(true, "system error", true, true), W.Deliver, W.WalletOk]

  /** The honesty of refusals cannot be dropped: one that debited and is redelivered leads to a post
      after two debits, whatever the check would say. */
  lemma DebitingRefusalPostsTwice(wallet: int, kb: int, data: real)
    ensures var steps := REFUSED_BUT_DEBITED + [W.PostDone];
            && PhaseAfter(steps) == Some(W.Posted) && Truthful(steps, wallet, kb, data)
            && DebitsOf(steps) == 2 && !AllHonest(steps)
  {
    hide DebitsOf, PhaseAfter, Truthful;
    var s := REFUSED_BUT_DEBITED;
    NoSteps(wallet, kb, data);
    Grow([], s[..2], W.Deliver, s[1], wallet, kb, data);
    Grow(s[..2], s, W.Deliver, W.WalletOk, wallet, kb, data);
    OneMore(s, W.PostDone, wallet, kb, data);
    assert s[1] in s + [W.PostDone];
  }

  // ----- with the numbers, and over runs of the protocol -----

  /** 1000 KB to the MB: for every deduction above 3/128 of the wallet that leaves 1/48 MB the
      check is right; 1024 KB to the MB: for none above 1/48 MB. */
  lemma RightChecks(wallet: int, data: real)
    ensures (3.0 * wallet as real / 128.0 < data <= wallet as real - 1.0 / 48.0) ==>
              PostedMeansDebitedOnce(wallet, 1000 * wallet, data)
    ensures data > 1.0 / 48.0 ==> !PostedMeansDebitedOnce(wallet, 1024 * wallet, data)
  {
    DebitedOnceIff(wallet, 1000 * wallet, data);
    DebitedOnceIff(wallet, 1024 * wallet, data);
    DecimalBucketBounds(wallet, data);
    if data > 1.0 / 48.0 { BinaryBucketDenies(wallet, data); }
  }

  /** In every run of the protocol, whatever is redelivered how often: if the lookups answered
      truthfully, no redelivered refusal had debited and the check is right for the message, then
      a posted message was debited exactly once, a message that may be delivered again not at
      all, and no message twice; a debit without a post is left only by the steps LosesDebit
      lists. */
  lemma PostedIsDebitedOnce(ws: seq<World>, es: seq<Event>, q: nat, id: MsgId, kb: int)
    requires Run(ws, es, q) && id in ws[|es|].flights
    requires var msg := ws[|es|].flights[id].msg;
             && CheckIsRight(msg.wallet, kb, msg.data)
             && Truthful(Trace(es, id), msg.wallet, kb, msg.data) && AllHonest(Trace(es, id))
    ensures PostsOf(ws[|es|].db.collections, id) == 1 ==> DebitsOf(Trace(es, id)) == 1
    ensures ws[|es|].flights[id].phase.Queued? ==> DebitsOf(Trace(es, id)) == 0
    ensures DebitsOf(Trace(es, id)) <= 1
    ensures ws[|es|].flights[id].phase == W.Acked(false) && DebitsOf(Trace(es, id)) == 1 ==>
              exists s :: s in Trace(es, id) && LosesDebit(s)
  {
    hide Run, Trace, PhaseAfter, DebitsOf, Truthful, AllHonest, CheckIsRight, LosesDebit;
    RunLength(ws, es, q);
    var msg := ws[|es|].flights[id].msg;
    TraceLeadsToPhase(ws, es, q, id);
    DebitsAccounted(Trace(es, id), msg.wallet, kb, msg.data);
    assert Reachable(ws[|es|], q);
    ProtocolTheorems.PostedAtMostOnce(ws[|es|], q, id);
  }

  // ----- a wrong check misposts on the stores -----

  /** Steps that leave stores and entries alone. */
  predicate Quiet(s: W.Step) {
    s.Deliver? || s.WalletOk? || s.WalletSilent? || s.UsageDeducted? || s.UsageNotDeducted?
  }

  lemma RunOneMore(ws: seq<World>, es: seq<Event>, e: Event, q: nat)
    requires Run(ws, es, q) && Enabled(ws[|es|], e, q)
    ensures Run(ws + [Next(ws[|es|], e, q)], es + [e], q)
  {
    hide Enabled, Next;
  }

  lemma TraceOneMore(es: seq<Event>, id: MsgId, s: W.Step, now: Time)
    ensures Trace(es + [Work(id, s, now)], id) == Trace(es, id) + [s]
  {
    assert (es + [Work(id, s, now)])[..|es|] == es;
  }

  /** A run can go on with any quiet steps the handler has a branch for. */
  lemma {:induction false} QuietRun(ws: seq<World>, es: seq<Event>, q: nat, id: MsgId, steps: seq<W.Step>, now: Time)
    returns (ws': seq<World>, es': seq<Event>)
    requires Run(ws, es, q) && id in ws[|es|].flights
    requires forall s :: s in steps ==> Quiet(s)
    requires PhaseAfter(Trace(es, id) + steps).Some?
    ensures Run(ws', es', q) && es <= es' && Trace(es', id) == Trace(es, id) + steps
    ensures ws'[|es'|] == At(ws[|es|], id, PhaseAfter(Trace(es, id) + steps).value)
  {
    hide Run, PhaseAfter, Trace;
    RunLength(ws, es, q);
    TraceLeadsToPhase(ws, es, q, id);
    if steps == [] {
      ws', es' := ws, es;
      assert Trace(es, id) + [] == Trace(es, id);
      AtOwnPhase(ws[|es|], id);
    } else {
      var n := |steps| - 1;
      var s := steps[n];
      assert Trace(es, id) + steps == Trace(es, id) + steps[..n] + [s];
      PhaseOneMore(Trace(es, id) + steps[..n], s);
      var ws1, es1 := QuietRun(ws, es, q, id, steps[..n], now);
      RunLength(ws1, es1, q);
      QuietStep(ws[|es|], id, PhaseAfter(Trace(es, id) + steps[..n]).value, s, now, q);
      var e := Work(id, s, now);
      RunOneMore(ws1, es1, e, q);
      TraceOneMore(es1, id, s, now);
      ws', es' := ws1 + [Next(ws1[|es1|], e, q)], es1 + [e];
    }
  }

  lemma RunLength(ws: seq<World>, es: seq<Event>, q: nat)
    requires Run(ws, es, q)
    ensures |ws| == |es| + 1
  {
  }

  lemma QuietStep(w: World, id: MsgId, p: W.Phase, s: W.Step, now: Time, q: nat)
    requires id in w.flights && Quiet(s) && W.NextPhase(p, s).Some?
    ensures Enabled(At(w, id, p), Work(id, s, now), q)
    ensures Next(At(w, id, p), Work(id, s, now), q) == At(w, id, W.NextPhase(p, s).value)
  {
    var f := w.flights[id];
    var p' := W.NextPhase(p, s).value;
    assert w.flights[id := f.(phase := p)][id := f.(phase := p')] == w.flights[id := f.(phase := p')];
  }

  /** From every run that has a message queued, undebited and postable, and whose check is wrong:
      some continuation, truthful and honest as far as this message goes, posts it after no debit
      or after two. */
  lemma WrongCheckMisposts(ws: seq<World>, es: seq<Event>, q: nat, id: MsgId, kb: int, now: Time)
    returns (ws': seq<World>, es': seq<Event>)
    requires Run(ws, es, q) && id in ws[|es|].flights && ws[|es|].flights[id].phase.Queued?
    requires var msg := ws[|es|].flights[id].msg; var t := Trace(es, id);
             && DebitsOf(t) == 0 && Truthful(t, msg.wallet, kb, msg.data) && AllHonest(t)
             && !CheckIsRight(msg.wallet, kb, msg.data) && Post(ws[|es|].db, msg, now).Some?
    ensures Run(ws', es', q) && es <= es' && id in ws'[|es'|].flights
    ensures var msg := ws[|es|].flights[id].msg;
            && PostedJourney(Trace(es', id), msg.wallet, kb, msg.data) && DebitsOf(Trace(es', id)) != 1
            && PostsOf(ws'[|es'|].db.collections, id) == 1
  {
    hide Run, PhaseAfter, Trace, Truthful, AllHonest, CheckIsRight, DebitsOf, PostedJourney, Post;
    RunLength(ws, es, q);
    var w := ws[|es|];
    var msg := w.flights[id].msg;
    TraceLeadsToPhase(ws, es, q, id);
    MispostingJourney(Trace(es, id), msg.wallet, kb, msg.data);
    var steps := Misposting(msg.wallet, kb, msg.data);
    var quiet := steps[..|steps| - 1];
    assert Trace(es, id) + steps == Trace(es, id) + quiet + [W.PostDone];
    LastIsPost(Trace(es, id) + quiet, msg.wallet, kb, msg.data);
    var ws1, es1 := QuietRun(ws, es, q, id, quiet, now);
    RunLength(ws1, es1, q);
    var e := Work(id, W.PostDone, now);
    PostStep(w, id, now, q);
    RunOneMore(ws1, es1, e, q);
    TraceOneMore(es1, id, W.PostDone, now);
    ws', es' := ws1 + [Next(ws1[|es1|], e, q)], es1 + [e];
    PostedCounts(ws', es', q, id);
  }

  lemma LastIsPost(t: seq<W.Step>, wallet: int, kb: int, data: real)
    requires PostedJourney(t + [W.PostDone], wallet, kb, data)
    ensures PhaseAfter(t) == Some(W.Posting)
  {
    hide W.NextPhase, PhaseAfter;
    PhaseOneMore(t, W.PostDone);
    assert forall p :: W.NextPhase(p, W.PostDone).Some? ==> p == W.Posting by { OnlyPosting(); }
  }

  lemma OnlyPosting()
    ensures forall p :: W.NextPhase(p, W.PostDone).Some? ==> p == W.Posting
  {
  }

  lemma PostStep(w: World, id: MsgId, now: Time, q: nat)
    requires id in w.flights && Post(w.db, w.flights[id].msg, now).Some?
    ensures var at := At(w, id, W.Posting); var e := Work(id, W.PostDone, now);
            Enabled(at, e, q) && id in Next(at, e, q).flights && Next(at, e, q).flights[id].phase == W.Posted
  {
    hide Post;
  }

  lemma PostedCounts(ws: seq<World>, es: seq<Event>, q: nat, id: MsgId)
    requires Run(ws, es, q) && |ws| == |es| + 1
    requires id in ws[|es|].flights && ws[|es|].flights[id].phase == W.Posted
    ensures PostsOf(ws[|es|].db.collections, id) == 1
  {
    assert Reachable(ws[|es|], q);
    ProtocolTheorems.PostedAtMostOnce(ws[|es|], q, id);
  }
}
