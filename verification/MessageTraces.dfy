/** What a run of the protocol looks like from one message: the steps of its handlers, in order. */
module MessageTraces {
  import opened Numbers
  import opened Ledger
  import opened LedgerWrites
  import opened Protocol
  import opened ProtocolInvariant
  import W = WorkerSteps

  /** The phase of a message after these steps; None if some step has no such branch. */
  function PhaseAfter(steps: seq<W.Step>): Option<W.Phase> {
    if steps == [] then Some(W.Queued)
    else match PhaseAfter(steps[..|steps| - 1])
      case None => None
      case Some(p) => W.NextPhase(p, steps[|steps| - 1])
  }

  lemma PhaseOneMore(steps: seq<W.Step>, s: W.Step)
    ensures PhaseAfter(steps + [s])
            == match PhaseAfter(steps) case None => None case Some(p) => W.NextPhase(p, s)
  {
    assert (steps + [s])[..|steps|] == steps;
  }

  lemma {:induction false} PrefixPhase(steps: seq<W.Step>, n: nat)
    requires PhaseAfter(steps).Some? && n <= |steps|
    ensures PhaseAfter(steps[..n]).Some?
    decreases |steps|
  {
    if n < |steps| {
      var rest := steps[..|steps| - 1];
      assert rest[..n] == steps[..n];
      PrefixPhase(rest, n);
    } else {
      assert steps[..n] == steps;
    }
  }

  /** The steps a run takes for one message. */
  function Trace(es: seq<Event>, id: MsgId): seq<W.Step> {
    if es == [] then []
    else
      var e := es[|es| - 1];
      Trace(es[..|es| - 1], id) + (if e.Work? && e.id == id then [e.step] else [])
  }

  /** The phase of a flight is where its trace leads, whatever happened to other messages. */
  lemma {:induction false} TraceLeadsToPhase(ws: seq<World>, es: seq<Event>, q: nat, id: MsgId)
    requires Run(ws, es, q)
    ensures id in ws[|es|].flights ==> PhaseAfter(Trace(es, id)) == Some(ws[|es|].flights[id].phase)
    ensures id !in ws[|es|].flights ==> Trace(es, id) == []
  {
    hide W.NextPhase, Run, Inv, Enabled, Next, PhaseAfter;
    NothingYet(ws, es, q, id);
    if es != [] {
      var n := |es| - 1;
      LastEvent(ws, es, q);
      TraceLeadsToPhase(ws[..n + 1], es[..n], q, id);
      OneEvent(ws[n], es[n], q, id);
      var before := Trace(es[..n], id);
      assert before + [] == before;
      if es[n].Work? && es[n].id == id { PhaseOneMore(before, es[n].step); }
    }
  }

  lemma NothingYet(ws: seq<World>, es: seq<Event>, q: nat, id: MsgId)
    requires Run(ws, es, q)
    ensures id !in ws[0].flights && PhaseAfter([]) == Some(W.Queued)
  {
  }

  lemma LastEvent(ws: seq<World>, es: seq<Event>, q: nat)
    requires Run(ws, es, q) && es != []
    ensures var n := |es| - 1;
            && |ws| == |es| + 1 && Run(ws[..n + 1], es[..n], q)
            && Enabled(ws[n], es[n], q) && ws[n + 1] == Next(ws[n], es[n], q)
            && (ws[n].producer.Publishing? ==> ws[n].producer.msg.id !in ws[n].flights)
  {
    hide Enabled, Next;
    RunKeepsInv(ws, es, q, |es| - 1);
    PublishedIsNew(ws[|es| - 1], q);
  }

  lemma PublishedIsNew(w: World, q: nat)
    requires Inv(w, q)
    ensures w.producer.Publishing? ==> w.producer.msg.id !in w.flights
  {
  }

  lemma OneEvent(w: World, e: Event, q: nat, id: MsgId)
    requires Enabled(w, e, q)
    requires w.producer.Publishing? ==> w.producer.msg.id !in w.flights
    ensures var w' := Next(w, e, q);
            && (id in w.flights ==> id in w'.flights && w'.flights[id].msg == w.flights[id].msg)
            && (id !in w.flights && id in w'.flights ==> w'.flights[id].phase == W.Queued)
            && (id in w.flights && e.Work? && e.id == id ==>
                  W.NextPhase(w.flights[id].phase, e.step) == Some(w'.flights[id].phase))
            && (id in w.flights && !(e.Work? && e.id == id) ==> w'.flights[id].phase == w.flights[id].phase)
            && (id !in w.flights ==> !(e.Work? && e.id == id))
  {
    hide W.LedgerEffect, W.LockEffect, CollectionRules, Open, SetLoan;
  }

  // ----- a delivery ends -----

  /** Steps left before the handler returns. */
  function Remaining(p: W.Phase): nat {
    match p
    case Queued => 0
    case Delivered => 6
    case AskingUsage => 5
    case Posting => 4
    case Posted => 3
    case Releasing(_) => 2
    case Finishing(_) => 1
    case Acked(_) => 0
  }

  lemma StepShortensDelivery(p: W.Phase, s: W.Step)
    requires W.NextPhase(p, s).Some? && !p.Queued?
    ensures Remaining(W.NextPhase(p, s).value) < Remaining(p)
  {
  }

  predicate Returned(steps: seq<W.Step>, k: nat)
    requires k <= |steps|
  {
    var p := PhaseAfter(steps[..k]);
    p == Some(W.Queued) || p == Some(W.Acked(true)) || p == Some(W.Acked(false))
  }

  lemma {:induction false} HandlerRuns(steps: seq<W.Step>, i: nat, j: nat)
    requires PhaseAfter(steps).Some? && i < j <= |steps| && steps[i] == W.Deliver
    requires forall k :: i < k < j ==> !Returned(steps, k)
    ensures PhaseAfter(steps[..j]).Some? && j - i - 1 + Remaining(PhaseAfter(steps[..j]).value) <= 6
  {
    hide W.NextPhase, Remaining;
    PrefixPhase(steps, j);
    PrefixPhase(steps, j - 1);
    assert steps[..j] == steps[..j - 1] + [steps[j - 1]];
    PhaseOneMore(steps[..j - 1], steps[j - 1]);
    var p := PhaseAfter(steps[..j - 1]).value;
    if i < j - 1 {
      HandlerRuns(steps, i, j - 1);
      assert !Returned(steps, j - 1);
      StepShortensDelivery(p, steps[j - 1]);
    } else {
      DeliverStarts(p);
    }
  }

  lemma DeliverStarts(p: W.Phase)
    requires W.NextPhase(p, W.Deliver).Some?
    ensures Remaining(W.NextPhase(p, W.Deliver).value) == 6
  {
  }

  /** In every run a delivery that has not returned yet took at most seven steps, the delivery
      itself included; and a message back in the queue finds every balance it was built from. */
  lemma DeliveriesEnd(ws: seq<World>, es: seq<Event>, q: nat, id: MsgId, i: nat, j: nat)
    requires Run(ws, es, q) && id in ws[|es|].flights
    requires i < j <= |Trace(es, id)| && Trace(es, id)[i] == W.Deliver
    requires forall k :: i < k < j ==> !Returned(Trace(es, id), k)
    ensures j - i <= 7
    ensures ws[|es|].flights[id].phase.Queued? ==>
              var w := ws[|es|]; var msg := w.flights[id].msg;
              && msg.msisdn in w.db.loans && w.db.loans[msg.msisdn].unpaid == msg.unpaid
              && HasVersions(w.db, msg.loanId) && Last(w.db.unpaid[msg.loanId]).unpaid == msg.unpaid
  {
    TraceLeadsToPhase(ws, es, q, id);
    HandlerRuns(Trace(es, id), i, j);
    RunKeepsInv(ws, es, q, |es|);
    assert FlightInv(ws[|es|], id, q);
  }
}
