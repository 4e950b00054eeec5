/** No deadlock, no send on a closed channel, and a measure every step lowers. */
module RetryProgress {
  import opened Numbers
  import opened RetryPipeline
  import opened RetryControl

  // ----- the measure -----

  function Weight(w: Worker): nat {
    match w
    case Collecting(batch) => 22 * |batch| + 1
    case Publishing(todo, ok, bad, _) => 18 * |todo| + 14 * |ok| + 14 * |bad| + 3
    case SendingOk(ok, bad, _) => 14 * |ok| + 14 * |bad| + 2
    case Flagging(_, bad, _) => 14 * |bad| + 10
    case SendingErr(_, bad, _) => 14 * |bad| + 8
    case SendingBad(bad, _) => 14 * |bad| + 2
    case Exited => 0
  }

  ghost function Weights(ws: seq<Worker>): nat {
    if ws == [] then 0 else Weight(ws[0]) + Weights(ws[1..])
  }

  lemma {:induction false} WeightsUpdate(ws: seq<Worker>, i: nat, w: Worker)
    requires i < |ws|
    ensures Weights(ws[i := w]) + Weight(ws[i]) == Weights(ws) + Weight(w)
  {
    if i == 0 {
      assert ws[i := w][1..] == ws[1..];
    } else {
      assert ws[i := w][1..] == ws[1..][i - 1 := w];
      WeightsUpdate(ws[1..], i - 1, w);
    }
  }

  function StreamWeight(s: Pipe): nat {
    30 * |s.rest| + (match s.streamer case Reading => 3 case Offering(_) => 31 case Ended => 0)
  }

  function CollectorWeight(x: Collector): nat {
    match x
    case Stopped => 0
    case Running(okOpen, badOpen, errOpen) =>
      1 + (if okOpen then 1 else 0) + (if badOpen then 1 else 0) + (if errOpen then 1 else 0)
  }

  function MainWeight(m: Main): nat {
    match m
    case AwaitStreamer => 6
    case AwaitWorkers => 5
    case CloseOk => 4
    case CloseBad => 3
    case CloseErr => 2
    case AwaitCollector => 1
    case Returned => 0
  }

  ghost function Measure(s: Pipe): nat {
    StreamWeight(s) + 26 * |s.docs| + Weights(s.workers)
    + |s.oks| + |s.bads| + |s.errs|
    + CollectorWeight(s.collector) + MainWeight(s.main) + (if s.cancelled then 0 else 1)
  }

  lemma PutMeasure(s: Pipe, i: nat, w: Worker)
    requires IsWorker(s, i)
    ensures Measure(Put(s, i, w)) + Weight(s.workers[i]) == Measure(s) + Weight(w)
  {
    WeightsUpdate(s.workers, i, w);
  }

  lemma ChannelMeasure(c: Cfg, s: Pipe, ids: seq<Doc>, text: Text, ready: bool)
    ensures Measure(PutOk(c, s, ids)) <= Measure(s) + 1
    ensures Measure(PutBad(c, s, ids)) <= Measure(s) + 1
    ensures Measure(PutErr(c, s, text)) <= Measure(s) + 1
    ensures Measure(TryErr(c, s, text, ready)) <= Measure(s) + 1
  {
    hide Weights, CollectorWeight, MainWeight, CanSendErr;
  }

  lemma AppendWeight(batch: seq<Doc>, d: Doc, maxBatch: nat)
    ensures Weight(Append(batch, d, maxBatch)) <= 22 * |batch| + 23
  {
  }

  lemma StreamLowersMeasure(c: Cfg, s: Pipe, act: StreamAct)
    requires StreamEnabled(c, s, act)
    ensures Measure(NextStream(c, s, act)) < Measure(s)
  {
    hide TryErr, Weights;
    if act.Offer? && act.to.Some? {
      var i := act.to.value;
      AppendWeight(s.workers[i].batch, s.streamer.doc, c.maxBatch);
      PutMeasure(s.(streamer := Reading), i, Append(s.workers[i].batch, s.streamer.doc, c.maxBatch));
    } else if act.EndStream? && act.error.Some? {
      var s1 := s.(streamer := Ended, rest := [], failures := s.failures + 1);
      ChannelMeasure(c, s1, [], act.error.value, act.heard);
    }
  }

  lemma WorkLowersMeasure(c: Cfg, s: Pipe, i: nat, job: WorkAct)
    requires IsWorker(s, i) && WorkEnabled(c, s, s.workers[i], job) && WorkerInv(s, s.workers[i])
    ensures Measure(NextWork(c, s, i, job)) < Measure(s)
  {
    if s.workers[i].Collecting? {
      CollectingLowersMeasure(c, s, i, job);
    } else if s.workers[i].Publishing? {
      PublishingLowersMeasure(c, s, i, job);
    } else {
      SendingLowersMeasure(c, s, i, job);
    }
  }

  lemma CollectingLowersMeasure(c: Cfg, s: Pipe, i: nat, job: WorkAct)
    requires IsWorker(s, i) && WorkEnabled(c, s, s.workers[i], job) && s.workers[i].Collecting?
    ensures Measure(NextWork(c, s, i, job)) < Measure(s)
  {
    hide Weights;
    var batch := s.workers[i].batch;
    if job.Receive? {
      AppendWeight(batch, s.docs[0], c.maxBatch);
      PutMeasure(s.(docs := s.docs[1..]), i, Append(batch, s.docs[0], c.maxBatch));
    } else {
      PutMeasure(s, i, Flush(batch, !job.Tick?));
    }
  }

  lemma PublishingLowersMeasure(c: Cfg, s: Pipe, i: nat, job: WorkAct)
    requires IsWorker(s, i) && WorkEnabled(c, s, s.workers[i], job) && WorkerInv(s, s.workers[i])
    requires s.workers[i].Publishing?
    ensures Measure(NextWork(c, s, i, job)) < Measure(s)
  {
    if job.Publish? {
      PublishLowersMeasure(c, s, i, job);
    } else {
      EndBatchLowersMeasure(c, s, i, job);
    }
  }

  lemma PublishLowersMeasure(c: Cfg, s: Pipe, i: nat, job: WorkAct)
    requires IsWorker(s, i) && WorkEnabled(c, s, s.workers[i], job) && job.Publish?
    ensures Measure(NextWork(c, s, i, job)) < Measure(s)
  {
    hide TryErr, Weights;
    var w := PublishOne(s.workers[i], job.answer);
    assert Weight(w) + 4 == Weight(s.workers[i]);
    PutMeasure(s, i, w);
    if job.answer.Rejected? {
      ChannelMeasure(c, Put(s, i, w).(failures := s.failures + 1), [], job.answer.text, job.collectorReady);
    }
  }

  lemma EndBatchLowersMeasure(c: Cfg, s: Pipe, i: nat, job: WorkAct)
    requires IsWorker(s, i) && WorkEnabled(c, s, s.workers[i], job) && WorkerInv(s, s.workers[i])
    requires job.EndBatch? || job.AbortPublish?
    ensures Measure(NextWork(c, s, i, job)) < Measure(s)
  {
    hide Weights;
    var w := s.workers[i];
    PutMeasure(s, i, if job.EndBatch? then AfterPublishing(w) else AfterBatch(w.last));
  }

  lemma SendingLowersMeasure(c: Cfg, s: Pipe, i: nat, job: WorkAct)
    requires IsWorker(s, i) && WorkEnabled(c, s, s.workers[i], job) && WorkerInv(s, s.workers[i])
    requires !s.workers[i].Collecting? && !s.workers[i].Publishing?
    ensures Measure(NextWork(c, s, i, job)) < Measure(s)
  {
    hide PutOk, PutBad, PutErr, Weights, WorkerInv, AllAccepted;
    var w := s.workers[i];
    assert w.SendingOk? || w.Flagging? ==> w.ok != [] by { NonEmptyBatches(s, w); }
    assert w.SendingBad? ==> w.bad != [] by { NonEmptyBatches(s, w); }
    if job.SendOk? {
      var w' := Flagging(w.ok, w.bad, w.last);
      PutMeasure(s, i, w');
      ChannelMeasure(c, Put(s, i, w'), w.ok, "error", true);
    } else if job.SendErr? {
      PutMeasure(s, i, AfterOk(w.bad, w.last));
      ChannelMeasure(c, Put(s, i, AfterOk(w.bad, w.last)), [], w.text, true);
    } else if job.SendBad? {
      PutMeasure(s, i, AfterBatch(w.last));
      ChannelMeasure(c, Put(s, i, AfterBatch(w.last)), w.bad, "error", true);
    } else {
      FlaggingLowersMeasure(c, s, i, job);
    }
  }

  lemma FlaggingLowersMeasure(c: Cfg, s: Pipe, i: nat, job: WorkAct)
    requires IsWorker(s, i) && WorkEnabled(c, s, s.workers[i], job) && WorkerInv(s, s.workers[i])
    requires job.Flag? || job.AbandonSend?
    ensures Measure(NextWork(c, s, i, job)) < Measure(s)
  {
    hide Weights, AllAccepted;
    var w := s.workers[i];
    if job.AbandonSend? {
      AbandonLowersMeasure(s, i);
    } else {
      PutMeasure(s, i, if job.error.Some? then SendingErr(job.error.value, w.bad, w.last) else AfterOk(w.bad, w.last));
    }
  }

  lemma AbandonLowersMeasure(s: Pipe, i: nat)
    requires IsWorker(s, i) && !s.workers[i].Collecting? && !s.workers[i].Exited? && Weight(s.workers[i]) > 1
    ensures Measure(Abandon(s, i)) < Measure(s)
  {
    hide Weights;
    PutMeasure(s, i, AfterBatch(s.workers[i].last));
  }

  lemma NonEmptyBatches(s: Pipe, w: Worker)
    requires WorkerInv(s, w)
    ensures w.SendingOk? || w.Flagging? ==> w.ok != []
    ensures w.SendingBad? ==> w.bad != []
  {
  }

  /** Every step, cancellation included, lowers the measure: no schedule goes on for ever. */
  lemma StepLowersMeasure(c: Cfg, s: Pipe, step: Step)
    requires ControlInv(c, s) && Enabled(c, s, step)
    ensures Measure(Next(c, s, step)) < Measure(s)
  {
    hide Measure, WorkerInv, ShapeInv;
    match step
    case Stream(act) => StreamLowersMeasure(c, s, act);
    case Work(i, job) => WorkLowersMeasure(c, s, i, job);
    case Finish(move) => EndLowersMeasure(s, move);
  }

  lemma EndLowersMeasure(s: Pipe, move: EndAct)
    requires EndEnabled(s, move)
    ensures Measure(NextEnd(s, move)) < Measure(s)
  {
  }

  // ----- no deadlock -----

  lemma CollectorProgress(c: Cfg, s: Pipe) returns (step: Step)
    requires ControlInv(c, s) && s.collector.Running?
    requires s.oks != [] || s.bads != [] || s.errs != [] || ErrClosed(s.main)
    ensures Enabled(c, s, step) && step != Finish(Cancel)
  {
    var x := s.collector;
    if x.okOpen && (s.oks != [] || OkClosed(s.main)) {
      step := Finish(CollectOk);
    } else if x.badOpen && (s.bads != [] || BadClosed(s.main)) {
      step := Finish(CollectBad);
    } else if x.errOpen && (s.errs != [] || ErrClosed(s.main)) {
      step := Finish(CollectErr);
    } else {
      step := Finish(StopCollector);
    }
  }

  lemma WorkerProgress(c: Cfg, s: Pipe, i: nat) returns (step: Step)
    requires ControlInv(c, s) && IsWorker(s, i) && !s.workers[i].Exited?
    requires s.collector.Running? ==> s.oks == [] && s.bads == [] && s.errs == []
    ensures Enabled(c, s, step) && step != Finish(Cancel)
  {
    var w := s.workers[i];
    WorkerAt(s, i);
    match w
    case Collecting(_) =>
      if s.docs != [] {
        step := Work(i, Receive);
      } else {
        match s.streamer {
          case Ended => step := Work(i, SeeClosed);
          case Offering(_) => step := Stream(Offer(Some(i)));
          case Reading => step := StreamerReads(c, s);
        }
      }
    case Publishing(todo, _, _, _) =>
      step := Work(i, if todo == [] then EndBatch else Publish(Unprepared, false));
    case SendingOk(_, _, _) =>
      step := Work(i, if s.collector.Running? then SendOk else AbandonSend);
    case Flagging(_, _, _) =>
      step := Work(i, Flag({}, None));
    case SendingErr(_, _, _) =>
      step := Work(i, if s.collector.Running? then SendErr else AbandonSend);
    case SendingBad(_, _) =>
      step := Work(i, if s.collector.Running? then SendBad else AbandonSend);
  }

  lemma StreamerReads(c: Cfg, s: Pipe) returns (step: Step)
    requires s.streamer.Reading?
    ensures Enabled(c, s, step) && step != Finish(Cancel)
  {
    if s.rest == [] {
      step := Stream(EndStream(None, true));
    } else {
      step := Stream(if s.rest[0].Decodable? then Decode else SkipUndecodable);
    }
  }

  /** As long as the run has not returned some step other than cancellation is possible. */
  lemma NoDeadlock(c: Cfg, s: Pipe) returns (step: Step)
    requires ControlInv(c, s) && !s.main.Returned?
    ensures Enabled(c, s, step) && step != Finish(Cancel)
  {
    if s.collector.Running? && (s.oks != [] || s.bads != [] || s.errs != [] || ErrClosed(s.main)) {
      step := CollectorProgress(c, s);
    } else if i :| 0 <= i < |s.workers| && !s.workers[i].Exited? {
      step := WorkerProgress(c, s, i);
    } else if s.streamer.Ended? {
      step := Finish(Advance);
    } else {
      WorkerAt(s, 0);
      if s.streamer.Offering? {
        step := Stream(AbandonOffer);
      } else {
        step := StreamerReads(c, s);
      }
    }
  }

  /** Whoever is about to send finds the channel open. */
  lemma SendersFindChannelsOpen(c: Cfg, s: Pipe, step: Step)
    requires ControlInv(c, s) && Enabled(c, s, step)
    ensures step.Work? && (step.job.SendOk? || step.job.SendBad? || step.job.SendErr? || step.job.Publish?)
            ==> !OkClosed(s.main) && !BadClosed(s.main) && !ErrClosed(s.main)
    ensures step.Stream? && step.act.EndStream? ==> !ErrClosed(s.main)
    ensures step.Stream? && step.act.Offer? ==> !s.streamer.Ended?
  {
  }
}
