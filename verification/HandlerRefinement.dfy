/** The handlers as written are runs of the protocol: whatever a delivery or a promo event does,
    done without interruption from a reachable state, leads to a reachable state. */
module HandlerRefinement {
  import opened Ledger
  import opened WorkerHandler
  import opened Protocol
  import ProducerHandler
  import W = WorkerSteps

  /** The world after one more step of a run. */
  lemma ReachableNext(w: World, e: Event, q: nat)
    requires Reachable(w, q) && Enabled(w, e, q)
    ensures Reachable(Next(w, e, q), q)
  {
    hide Next, Enabled;
    var ws, es :| Run(ws, es, q) && w == ws[|es|];
    var ws' := ws + [Next(w, e, q)];
    var es' := es + [e];
    assert forall i :: 0 <= i < |es| ==> Enabled(ws[i], es[i], q) && ws[i + 1] == Next(ws[i], es[i], q);
    assert Run(ws', es', q) && ws'[|es'|] == Next(w, e, q);
  }

  /** The world in which only message `id` moved, to the given stage. */
  ghost predicate MovedTo(w: World, w': World, id: MsgId, at: Stage) {
    && id in w.flights && w'.flights == w.flights[id := w.flights[id].(phase := at.phase)]
    && w'.db == at.db && w'.locks == at.locks && w'.producer == w.producer
  }

  lemma {:induction false} HandlerReachesProtocolStates(w: World, q: nat, id: MsgId, steps: seq<W.Step>, now: Time)
    returns (w': World)
    requires Reachable(w, q) && id in w.flights
    requires Walk(Stage(w.db, w.locks, w.flights[id].phase), w.flights[id].msg, steps, now).Some?
    ensures Reachable(w', q)
    ensures MovedTo(w, w', id, Walk(Stage(w.db, w.locks, w.flights[id].phase), w.flights[id].msg, steps, now).value)
  {
    if steps == [] {
      w' := w;
    } else {
      var step := steps[|steps| - 1];
      var w1 := HandlerReachesProtocolStates(w, q, id, steps[..|steps| - 1], now);
      ReachableNext(w1, Work(id, step, now), q);
      w' := Next(w1, Work(id, step, now), q);
    }
  }

  /** The world a producer object stands for is reachable whenever the one it started from was. */
  lemma {:induction false} ProducerReachesProtocolStates(w: World, es: seq<Event>, q: nat)
    requires Reachable(w, q) && ProducerHandler.Follow(w, es, q).Some?
    ensures Reachable(ProducerHandler.Follow(w, es, q).value, q)
  {
    hide Reachable, Enabled, Next;
    if es != [] {
      var n := |es| - 1;
      ProducerReachesProtocolStates(w, es[..n], q);
      ReachableNext(ProducerHandler.Follow(w, es[..n], q).value, es[n], q);
    }
  }
}
