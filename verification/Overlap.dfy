/** Why the protocol must not deliver a message again while its handler still runs: nothing in
    the handler or the stores would stop the second delivery from posting as well. */
module Overlap {
  import opened Numbers
  import opened Ledger
  import opened LedgerInvariant
  import opened LedgerWrites
  import opened Protocol
  import opened ProtocolInvariant
  import W = WorkerSteps

  /** Two deliveries of one message, each with its own handler, over the same stores. */
  datatype Pair = Pair(db: Db, locks: multiset<Msisdn>, first: W.Phase, second: W.Phase)

  /** One step of either handler. */
  datatype Turn = First(step: W.Step) | Second(step: W.Step)

  function Move(s: Pair, msg: Msg, t: Turn, now: Time): Option<Pair> {
    var p := if t.First? then s.first else s.second;
    if !W.Enabled(s.db, msg, p, t.step, now) then None
    else
      var p' := W.NextPhase(p, t.step).value;
      var db := W.LedgerEffect(s.db, msg, t.step, now);
      var locks := W.LockEffect(s.locks, msg.msisdn, t.step);
      Some(if t.First? then Pair(db, locks, p', s.second) else Pair(db, locks, s.first, p'))
  }

  function Play(s: Pair, msg: Msg, turns: seq<Turn>, now: Time): Option<Pair>
    decreases |turns|
  {
    if turns == [] then Some(s)
    else match Move(s, msg, turns[0], now)
      case None => None
      case Some(s') => Play(s', msg, turns[1..], now)
  }

  const BOTH_POST: seq<Turn> :=
    [First(W.WalletOk), Second(W.WalletOk), First(W.PostDone), Second(W.PostDone)]

  /** From any reachable state with a delivered message that can be posted: if the subscription
      hands it out a second time now, both deliveries can debit and post, provided its fee is
      whole (a partial one always is), and the ledger breaks if the message takes something. */
  lemma OverlappingDeliveriesPostTwice(w: World, q: nat, id: MsgId, now: Time)
    requires Reachable(w, q) && id in w.flights && w.flights[id].phase.Delivered?
    requires Post(w.db, w.flights[id].msg, now).Some? && Whole(w.flights[id].msg.fee)
    ensures var msg := w.flights[id].msg;
            var end := Play(Pair(w.db, w.locks, W.Delivered, W.Delivered), msg, BOTH_POST, now);
            && end.Some? && end.value.first == W.Posted && end.value.second == W.Posted
            && PostsOf(end.value.db.collections, id) == 2
            && (msg.amount > 0.0 ==> !LedgerInv(end.value.db, q))
  {
    hide Post, LedgerInv, Fits, Move, Play;
    var msg := w.flights[id].msg;
    DeliveredFits(w, q, id);
    SecondPostBreaksLedger(w.db, msg, now, now, w.flights[id].readOk, q);
    var db1 := Post(w.db, msg, now).value;
    PostAppends(w.db, msg, now, id);
    PostAppends(db1, msg, now, id);
    BothMove(w.db, w.locks, msg, now);
  }

  lemma BothMove(db: Db, locks: multiset<Msisdn>, msg: Msg, now: Time)
    requires Post(db, msg, now).Some? && Post(Post(db, msg, now).value, msg, now).Some?
    ensures Play(Pair(db, locks, W.Delivered, W.Delivered), msg, BOTH_POST, now)
            == Some(Pair(Post(Post(db, msg, now).value, msg, now).value, locks, W.Posted, W.Posted))
  {
    hide Post, Play;
    var db1 := Post(db, msg, now).value;
    FourMoves(Pair(db, locks, W.Delivered, W.Delivered), Pair(db, locks, W.Posting, W.Delivered),
              Pair(db, locks, W.Posting, W.Posting), Pair(db1, locks, W.Posted, W.Posting),
              Pair(Post(db1, msg, now).value, locks, W.Posted, W.Posted), msg, BOTH_POST, now);
  }

  lemma FourMoves(s0: Pair, s1: Pair, s2: Pair, s3: Pair, s4: Pair, msg: Msg, turns: seq<Turn>, now: Time)
    requires |turns| == 4
    requires Move(s0, msg, turns[0], now) == Some(s1) && Move(s1, msg, turns[1], now) == Some(s2)
    requires Move(s2, msg, turns[2], now) == Some(s3) && Move(s3, msg, turns[3], now) == Some(s4)
    ensures Play(s0, msg, turns, now) == Some(s4)
  {
    hide Move;
    assert turns[1..][0] == turns[1] && turns[1..][1..] == turns[2..];
    assert turns[2..][0] == turns[2] && turns[2..][1..] == turns[3..];
    assert turns[3..][0] == turns[3] && turns[3..][1..] == [];
    assert Play(s3, msg, turns[3..], now) == Some(s4);
    assert Play(s2, msg, turns[2..], now) == Some(s4);
    assert Play(s1, msg, turns[1..], now) == Some(s4);
  }

  lemma DeliveredFits(w: World, q: nat, id: MsgId)
    requires Reachable(w, q) && id in w.flights && w.flights[id].phase.Delivered?
    ensures var f := w.flights[id];
            && f.msg.id == id && LedgerInv(w.db, q) && Fits(w.db, f.msg, f.readOk, q)
            && PostsOf(w.db.collections, id) == 0
  {
    ReachableInv(w, q);
    assert FlightInv(w, id, q);
  }
}
