/** Conservation in the retry pipeline: where every decoded document is, at every moment. */
module RetryAccounts {
  import opened RetryPipeline

  // ----- occurrences of one document -----

  ghost function Count(q: seq<Doc>, d: Doc): nat {
    if q == [] then 0 else (if q[0] == d then 1 else 0) + Count(q[1..], d)
  }

  lemma {:induction false} CountAppend(a: seq<Doc>, b: seq<Doc>, d: Doc)
    ensures Count(a + b, d) == Count(a, d) + Count(b, d)
  {
    if a == [] {
      assert a + b == b;
    } else {
      assert (a + b)[1..] == a[1..] + b;
      CountAppend(a[1..], b, d);
    }
  }

  lemma {:induction false} CountIsMultiplicity(q: seq<Doc>, d: Doc)
    ensures Count(q, d) == multiset(q)[d]
  {
    if q != [] {
      assert q == [q[0]] + q[1..];
      CountIsMultiplicity(q[1..], d);
    }
  }

  ghost function CountAll(qs: seq<seq<Doc>>, d: Doc): nat {
    if qs == [] then 0 else Count(qs[0], d) + CountAll(qs[1..], d)
  }

  lemma {:induction false} CountAllAppend(qs: seq<seq<Doc>>, ids: seq<Doc>, d: Doc)
    ensures CountAll(qs + [ids], d) == CountAll(qs, d) + Count(ids, d)
  {
    if qs == [] {
      assert qs + [ids] == [ids];
    } else {
      assert (qs + [ids])[1..] == qs[1..] + [ids];
      CountAllAppend(qs[1..], ids, d);
    }
  }

  ghost function HeldCount(f: Worker -> seq<Doc>, ws: seq<Worker>, d: Doc): nat {
    if ws == [] then 0 else Count(f(ws[0]), d) + HeldCount(f, ws[1..], d)
  }

  lemma {:induction false} HeldUpdate(f: Worker -> seq<Doc>, ws: seq<Worker>, i: nat, w: Worker, d: Doc)
    requires i < |ws|
    ensures HeldCount(f, ws[i := w], d) + Count(f(ws[i]), d) == HeldCount(f, ws, d) + Count(f(w), d)
  {
    if i == 0 {
      assert ws[i := w][1..] == ws[1..];
    } else {
      assert ws[i := w][1..] == ws[1..][i - 1 := w];
      HeldUpdate(f, ws[1..], i - 1, w, d);
    }
  }

  // ----- the two accounts -----

  ghost function Hand(t: Streamer): seq<Doc> {
    if t.Offering? then [t.doc] else []
  }

  /** What Kafka accepted: still held, on the way, reported, or given up unreported. */
  ghost function OkAccount(s: Pipe, d: Doc): nat {
    HeldCount(HeldOk, s.workers, d) + CountAll(s.oks, d) + Count(s.success, d) + Count(s.lostOk, d)
  }

  /** Every other decoded document. */
  ghost function RestAccount(s: Pipe, d: Doc): nat {
    Count(Hand(s.streamer), d) + Count(s.docs, d) + HeldCount(HeldRest, s.workers, d)
    + CountAll(s.bads, d) + Count(s.failed, d) + Count(s.lost, d)
  }

  ghost predicate Balanced(s: Pipe, d: Doc) {
    && OkAccount(s, d) == Count(s.accepted, d)
    && OkAccount(s, d) + RestAccount(s, d) == Count(s.decoded, d)
  }

  lemma PutAccounts(s: Pipe, i: nat, w: Worker, d: Doc)
    requires IsWorker(s, i)
    ensures OkAccount(Put(s, i, w), d) + Count(HeldOk(s.workers[i]), d) == OkAccount(s, d) + Count(HeldOk(w), d)
    ensures RestAccount(Put(s, i, w), d) + Count(HeldRest(s.workers[i]), d) == RestAccount(s, d) + Count(HeldRest(w), d)
  {
    HeldUpdate(HeldOk, s.workers, i, w, d);
    HeldUpdate(HeldRest, s.workers, i, w, d);
  }

  /** The result channels move a batch of ids without changing either account. */
  lemma TakeAccounts(s: Pipe, d: Doc)
    ensures s.oks != [] ==>
              OkAccount(TakeOk(s), d) == OkAccount(s, d) && RestAccount(TakeOk(s), d) == RestAccount(s, d)
    ensures s.bads != [] ==>
              OkAccount(TakeBad(s), d) == OkAccount(s, d) && RestAccount(TakeBad(s), d) == RestAccount(s, d)
  {
    if s.oks != [] { CountAppend(s.success, s.oks[0], d); }
    if s.bads != [] { CountAppend(s.failed, s.bads[0], d); }
  }

  lemma PutOkAccounts(c: Cfg, s: Pipe, ids: seq<Doc>, d: Doc)
    ensures OkAccount(PutOk(c, s, ids), d) == OkAccount(s, d) + Count(ids, d)
    ensures RestAccount(PutOk(c, s, ids), d) == RestAccount(s, d)
    ensures PutOk(c, s, ids).accepted == s.accepted && PutOk(c, s, ids).decoded == s.decoded
  {
    CountAllAppend(s.oks, ids, d);
    TakeAccounts(s.(oks := s.oks + [ids]), d);
  }

  lemma PutBadAccounts(c: Cfg, s: Pipe, ids: seq<Doc>, d: Doc)
    ensures OkAccount(PutBad(c, s, ids), d) == OkAccount(s, d)
    ensures RestAccount(PutBad(c, s, ids), d) == RestAccount(s, d) + Count(ids, d)
    ensures PutBad(c, s, ids).accepted == s.accepted && PutBad(c, s, ids).decoded == s.decoded
  {
    CountAllAppend(s.bads, ids, d);
    TakeAccounts(s.(bads := s.bads + [ids]), d);
  }

  /** Errors travel outside both accounts. */
  lemma TryErrAccounts(c: Cfg, s: Pipe, text: Text, ready: bool, d: Doc)
    ensures Balanced(TryErr(c, s, text, ready), d) <==> Balanced(s, d)
    ensures Balanced(PutErr(c, s, text), d) <==> Balanced(s, d)
  {
  }

  // ----- steps -----

  lemma FlushHolds(batch: seq<Doc>, last: bool, d: Doc)
    ensures Count(HeldRest(Flush(batch, last)), d) == Count(batch, d) && HeldOk(Flush(batch, last)) == []
  {
    assert batch + [] == batch;
  }

  lemma AppendHolds(batch: seq<Doc>, doc: Doc, maxBatch: nat, d: Doc)
    ensures Count(HeldRest(Append(batch, doc, maxBatch)), d) == Count(batch, d) + Count([doc], d)
    ensures HeldOk(Append(batch, doc, maxBatch)) == []
  {
    CountAppend(batch, [doc], d);
    FlushHolds(batch + [doc], false, d);
  }

  lemma PublishHolds(w: Worker, answer: PublishAnswer, d: Doc)
    requires w.Publishing? && w.todo != []
    ensures var w' := PublishOne(w, answer);
            var n := if answer.Accepted? then Count([w.todo[0]], d) else 0;
            && Count(HeldOk(w'), d) == Count(HeldOk(w), d) + n
            && Count(HeldRest(w'), d) + n == Count(HeldRest(w), d)
  {
    CountAppend(w.ok, [w.todo[0]], d);
    CountAppend(w.bad, [w.todo[0]], d);
    CountAppend(w.todo, w.bad, d);
    CountAppend(w.todo[1..], w.bad, d);
    CountAppend(w.todo[1..], w.bad + [w.todo[0]], d);
  }

  lemma AfterOkHolds(bad: seq<Doc>, last: bool)
    ensures HeldOk(AfterOk(bad, last)) == [] && HeldRest(AfterOk(bad, last)) == bad
  {
  }

  lemma AfterPublishingHolds(w: Worker, d: Doc)
    requires w.Publishing? && w.todo == []
    ensures HeldOk(AfterPublishing(w)) == HeldOk(w) && HeldRest(AfterPublishing(w)) == HeldRest(w)
  {
  }

  lemma DecodeKeepsBalance(c: Cfg, s: Pipe, act: StreamAct, d: Doc)
    requires Balanced(s, d) && StreamEnabled(c, s, act)
    requires act.Decode? || act.SkipUndecodable?
    ensures Balanced(NextStream(c, s, act), d)
  {
    if act.Decode? {
      CountAppend(s.decoded, [s.rest[0].doc], d);
    }
  }

  lemma OfferKeepsBalance(c: Cfg, s: Pipe, act: StreamAct, d: Doc)
    requires Balanced(s, d) && StreamEnabled(c, s, act)
    requires act.Offer?
    ensures Balanced(NextStream(c, s, act), d)
  {
    var doc := s.streamer.doc;
    CountAppend(s.docs, [doc], d);
    if act.to.Some? {
      var i := act.to.value;
      AppendHolds(s.workers[i].batch, doc, c.maxBatch, d);
      PutAccounts(s.(streamer := Reading), i, Append(s.workers[i].batch, doc, c.maxBatch), d);
    }
  }

  lemma EndKeepsBalance(c: Cfg, s: Pipe, act: StreamAct, d: Doc)
    requires Balanced(s, d) && StreamEnabled(c, s, act)
    requires act.AbandonOffer? || act.EndStream?
    ensures Balanced(NextStream(c, s, act), d)
  {
    hide TryErr, Count, HeldCount, CountAll;
    if act.AbandonOffer? {
      CountAppend(s.lost, [s.streamer.doc], d);
      EmptyCount(d);
    } else {
      var s1 := s.(streamer := Ended, rest := []);
      assert Balanced(s1, d);
      if act.error.Some? {
        assert Balanced(s1.(failures := s.failures + 1), d);
        TryErrAccounts(c, s1.(failures := s.failures + 1), act.error.value, act.heard, d);
      }
    }
  }

  lemma EmptyCount(d: Doc)
    ensures Count([], d) == 0
  {
  }

  lemma CollectingKeepsBalance(c: Cfg, s: Pipe, i: nat, job: WorkAct, d: Doc)
    requires Balanced(s, d) && IsWorker(s, i) && WorkEnabled(c, s, s.workers[i], job)
    requires job.Receive? || job.SeeClosed? || job.Tick? || job.SeeCancel?
    ensures Balanced(NextWork(c, s, i, job), d)
  {
    var batch := s.workers[i].batch;
    if job.Receive? {
      AppendHolds(batch, s.docs[0], c.maxBatch, d);
      PutAccounts(s.(docs := s.docs[1..]), i, Append(batch, s.docs[0], c.maxBatch), d);
    } else {
      FlushHolds(batch, !job.Tick?, d);
      PutAccounts(s, i, Flush(batch, !job.Tick?), d);
    }
  }

  lemma PublishKeepsBalance(c: Cfg, s: Pipe, i: nat, job: WorkAct, d: Doc)
    requires Balanced(s, d) && IsWorker(s, i) && WorkEnabled(c, s, s.workers[i], job)
    requires job.Publish?
    ensures Balanced(NextWork(c, s, i, job), d)
  {
    hide TryErr, Count, HeldCount, CountAll, PublishOne, HeldOk, HeldRest;
    var w := s.workers[i];
    var w' := PublishOne(w, job.answer);
    PublishHolds(w, job.answer, d);
    PutAccounts(s, i, w', d);
    CountAppend(s.accepted, [w.todo[0]], d);
    if job.answer.Rejected? {
      var s1 := Put(s, i, w').(failures := s.failures + 1);
      assert Balanced(s1, d);
      TryErrAccounts(c, s1, job.answer.text, job.collectorReady, d);
    }
  }

  lemma EndBatchKeepsBalance(c: Cfg, s: Pipe, i: nat, job: WorkAct, d: Doc)
    requires Balanced(s, d) && IsWorker(s, i) && WorkEnabled(c, s, s.workers[i], job)
    requires job.EndBatch?
    ensures Balanced(NextWork(c, s, i, job), d)
  {
    var w := s.workers[i];
    AfterPublishingHolds(w, d);
    PutAccounts(s, i, AfterPublishing(w), d);
  }

  lemma FlagKeepsBalance(c: Cfg, s: Pipe, i: nat, job: WorkAct, d: Doc)
    requires Balanced(s, d) && IsWorker(s, i) && WorkEnabled(c, s, s.workers[i], job)
    requires job.Flag?
    ensures Balanced(NextWork(c, s, i, job), d)
  {
    var w := s.workers[i];
    var w' := if job.error.Some? then SendingErr(job.error.value, w.bad, w.last) else AfterOk(w.bad, w.last);
    AfterOkHolds(w.bad, w.last);
    PutAccounts(s, i, w', d);
  }

  lemma SendOkKeepsBalance(c: Cfg, s: Pipe, i: nat, job: WorkAct, d: Doc)
    requires Balanced(s, d) && IsWorker(s, i) && WorkEnabled(c, s, s.workers[i], job)
    requires job.SendOk?
    ensures Balanced(NextWork(c, s, i, job), d)
  {
    hide PutOk, Count, HeldCount, CountAll, OkAccount, RestAccount;
    EmptyCount(d);
    var w := s.workers[i];
    var w' := Flagging(w.ok, w.bad, w.last);
    PutAccounts(s, i, w', d);
    PutOkAccounts(c, Put(s, i, w'), w.ok, d);
  }

  lemma SendErrKeepsBalance(c: Cfg, s: Pipe, i: nat, job: WorkAct, d: Doc)
    requires Balanced(s, d) && IsWorker(s, i) && WorkEnabled(c, s, s.workers[i], job)
    requires job.SendErr?
    ensures Balanced(NextWork(c, s, i, job), d)
  {
    hide PutErr, Count, HeldCount, CountAll;
    var w := s.workers[i];
    PutAccounts(s, i, AfterOk(w.bad, w.last), d);
    EmptyCount(d);
    AfterOkHolds(w.bad, w.last);
    assert Balanced(Put(s, i, AfterOk(w.bad, w.last)), d);
    TryErrAccounts(c, Put(s, i, AfterOk(w.bad, w.last)), w.text, true, d);
  }

  lemma SendBadKeepsBalance(c: Cfg, s: Pipe, i: nat, job: WorkAct, d: Doc)
    requires Balanced(s, d) && IsWorker(s, i) && WorkEnabled(c, s, s.workers[i], job)
    requires job.SendBad?
    ensures Balanced(NextWork(c, s, i, job), d)
  {
    hide PutBad, Count, HeldCount, CountAll, OkAccount, RestAccount;
    EmptyCount(d);
    var w := s.workers[i];
    PutAccounts(s, i, AfterBatch(w.last), d);
    PutBadAccounts(c, Put(s, i, AfterBatch(w.last)), w.bad, d);
  }

  lemma AbandonKeepsBalance(c: Cfg, s: Pipe, i: nat, job: WorkAct, d: Doc)
    requires Balanced(s, d) && IsWorker(s, i) && WorkEnabled(c, s, s.workers[i], job)
    requires job.AbortPublish? || job.AbandonSend?
    ensures Balanced(NextWork(c, s, i, job), d)
  {
    hide Count, CountAll, HeldCount, AfterBatch;
    var w := s.workers[i];
    PutAccounts(s, i, AfterBatch(w.last), d);
    NothingInHand(w.last, d);
    CountAppend(s.lost, HeldRest(w), d);
    CountAppend(s.lostOk, HeldOk(w), d);
  }

  lemma NothingInHand(last: bool, d: Doc)
    ensures Count(HeldOk(AfterBatch(last)), d) == 0 && Count(HeldRest(AfterBatch(last)), d) == 0
  {
  }

  lemma CollectorKeepsBalance(s: Pipe, move: EndAct, d: Doc)
    requires Balanced(s, d) && EndEnabled(s, move)
    ensures Balanced(NextEnd(s, move), d)
  {
    TakeAccounts(s, d);
  }

  lemma StreamKeepsBalance(c: Cfg, s: Pipe, act: StreamAct, d: Doc)
    requires Balanced(s, d) && StreamEnabled(c, s, act)
    ensures Balanced(NextStream(c, s, act), d)
  {
    hide Balanced, NextStream, StreamEnabled;
    match act
    case Decode => DecodeKeepsBalance(c, s, act, d);
    case SkipUndecodable => DecodeKeepsBalance(c, s, act, d);
    case Offer(_) => OfferKeepsBalance(c, s, act, d);
    case AbandonOffer => EndKeepsBalance(c, s, act, d);
    case EndStream(_, _) => EndKeepsBalance(c, s, act, d);
  }

  lemma WorkKeepsBalance(c: Cfg, s: Pipe, i: nat, job: WorkAct, d: Doc)
    requires Balanced(s, d) && IsWorker(s, i) && WorkEnabled(c, s, s.workers[i], job)
    ensures Balanced(NextWork(c, s, i, job), d)
  {
    hide Balanced, NextWork, WorkEnabled;
    match job
    case Receive => CollectingKeepsBalance(c, s, i, job, d);
    case SeeClosed => CollectingKeepsBalance(c, s, i, job, d);
    case Tick => CollectingKeepsBalance(c, s, i, job, d);
    case SeeCancel => CollectingKeepsBalance(c, s, i, job, d);
    case Publish(_, _) => PublishKeepsBalance(c, s, i, job, d);
    case AbortPublish => AbandonKeepsBalance(c, s, i, job, d);
    case EndBatch => EndBatchKeepsBalance(c, s, i, job, d);
    case SendOk => SendOkKeepsBalance(c, s, i, job, d);
    case Flag(_, _) => FlagKeepsBalance(c, s, i, job, d);
    case SendErr => SendErrKeepsBalance(c, s, i, job, d);
    case SendBad => SendBadKeepsBalance(c, s, i, job, d);
    case AbandonSend => AbandonKeepsBalance(c, s, i, job, d);
  }

  lemma StepKeepsBalance(c: Cfg, s: Pipe, step: Step, d: Doc)
    requires Balanced(s, d) && Enabled(c, s, step)
    ensures Balanced(Next(c, s, step), d)
  {
    hide Balanced;
    match step
    case Stream(act) => StreamKeepsBalance(c, s, act, d);
    case Work(i, job) => WorkKeepsBalance(c, s, i, job, d);
    case Finish(move) => CollectorKeepsBalance(s, move, d);
  }
}
