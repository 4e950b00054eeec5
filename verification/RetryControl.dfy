/** Control in the retry pipeline: closing order, flags, error reporting, progress, termination. */
module RetryControl {
  import opened RetryPipeline

  predicate PastWorkers(m: Main) { m.CloseOk? || OkClosed(m) }

  /** The worker will exit after its current batch, or has. */
  predicate Leaving(w: Worker) {
    w.Exited? || (!w.Collecting? && w.last)
  }

  /** No document can reach a worker any more. */
  predicate Drained(s: Pipe) {
    s.streamer.Ended? && s.docs == []
  }

  predicate AllAccepted(s: Pipe, ids: seq<Doc>) {
    forall d :: d in ids ==> d in s.accepted
  }

  predicate WorkerInv(s: Pipe, w: Worker) {
    && (Leaving(w) ==> s.cancelled || Drained(s))
    && (match w
        case Collecting(_) => true
        case Publishing(todo, ok, bad, _) => |todo| + |ok| + |bad| > 0 && AllAccepted(s, ok)
        case SendingOk(ok, _, _) => ok != [] && AllAccepted(s, ok)
        case Flagging(ok, _, _) => ok != [] && AllAccepted(s, ok)
        case SendingErr(_, _, _) => s.failures > 0
        case SendingBad(bad, _) => bad != []
        case Exited => true)
  }

  predicate CollectorInv(s: Pipe) {
    match s.collector
    case Running(okOpen, badOpen, errOpen) =>
      && (!okOpen ==> OkClosed(s.main) && s.oks == [])
      && (!badOpen ==> BadClosed(s.main) && s.bads == [])
      && (!errOpen ==> ErrClosed(s.main) && s.errs == [])
    case Stopped => s.cancelled || (ErrClosed(s.main) && s.oks == [] && s.bads == [] && s.errs == [])
  }

  predicate AllExited(s: Pipe) {
    forall i :: 0 <= i < |s.workers| ==> s.workers[i].Exited?
  }

  /** Closing order: streamer, workers, channels, collector. */
  predicate OrderInv(s: Pipe) {
    && s.workers != []
    && (!s.main.AwaitStreamer? ==> s.streamer.Ended?)
    && (PastWorkers(s.main) ==> AllExited(s))
    && CollectorInv(s)
    && (s.main.Returned? ==> s.collector.Stopped?)
  }

  predicate LostInv(s: Pipe) {
    !s.cancelled ==> s.lost == [] && s.lostOk == []
  }

  predicate FlagInv(s: Pipe) {
    forall d :: d in s.flagged ==> d in s.accepted
  }

  predicate TextInv(s: Pipe) {
    s.errs != [] || s.errorMsg != "" ==> s.failures > 0
  }

  predicate ShapeInv(s: Pipe) {
    OrderInv(s) && LostInv(s) && FlagInv(s) && TextInv(s)
  }

  predicate WorkersInv(s: Pipe) {
    forall i :: 0 <= i < |s.workers| ==> WorkerInv(s, s.workers[i])
  }

  predicate Bounded(c: Cfg, s: Pipe) {
    |s.docs| <= c.buffer && |s.oks| <= c.buffer && |s.bads| <= c.buffer && |s.errs| <= c.buffer
  }

  predicate ControlInv(c: Cfg, s: Pipe) {
    ShapeInv(s) && WorkersInv(s) && Bounded(c, s)
  }

  // ----- preservation -----

  /** What a step leaves to the workers it does not move. */
  predicate Grows(s: Pipe, s': Pipe) {
    && (s.cancelled ==> s'.cancelled)
    && (Drained(s) ==> Drained(s'))
    && s.failures <= s'.failures
    && s.accepted <= s'.accepted
  }

  lemma OthersKept(s: Pipe, s': Pipe, w: Worker)
    requires WorkerInv(s, w) && Grows(s, s')
    ensures WorkerInv(s', w)
  {
  }

  lemma WorkGrows(c: Cfg, s: Pipe, i: nat, job: WorkAct)
    requires IsWorker(s, i) && WorkEnabled(c, s, s.workers[i], job)
    ensures Grows(s, NextWork(c, s, i, job))
    ensures NextWork(c, s, i, job).workers == s.workers[i := NextWork(c, s, i, job).workers[i]]
  {
    hide CanSendOk, CanSendBad, CanSendErr, HeldOk, HeldRest, Append;
  }

  lemma StreamKeepsWorkers(c: Cfg, s: Pipe, act: StreamAct)
    requires WorkersInv(s) && StreamEnabled(c, s, act)
    ensures WorkersInv(NextStream(c, s, act))
  {
  }

  lemma WorkKeepsWorkers(c: Cfg, s: Pipe, i: nat, job: WorkAct)
    requires WorkersInv(s) && IsWorker(s, i) && WorkEnabled(c, s, s.workers[i], job)
    ensures WorkersInv(NextWork(c, s, i, job))
  {
    hide WorkerInv, NextWork, WorkEnabled;
    var s' := NextWork(c, s, i, job);
    WorkGrows(c, s, i, job);
    assert WorkerInv(s, s.workers[i]);
    forall j | 0 <= j < |s'.workers|
      ensures WorkerInv(s', s'.workers[j])
    {
      if j == i {
        MoverKept(c, s, i, job);
      } else {
        assert WorkerInv(s, s.workers[j]);
        OthersKept(s, s', s.workers[j]);
      }
    }
  }

  /** The moved worker: collecting, working on its batch, sending. */
  lemma MoverKept(c: Cfg, s: Pipe, i: nat, job: WorkAct)
    requires IsWorker(s, i) && WorkEnabled(c, s, s.workers[i], job) && WorkerInv(s, s.workers[i])
    ensures WorkerInv(NextWork(c, s, i, job), NextWork(c, s, i, job).workers[i])
  {
    if s.workers[i].Collecting? {
      CollectingKept(c, s, i, job);
    } else if s.workers[i].Publishing? {
      PublishingKept(c, s, i, job);
    } else {
      SendingKept(c, s, i, job);
    }
  }

  lemma CollectingKept(c: Cfg, s: Pipe, i: nat, job: WorkAct)
    requires IsWorker(s, i) && WorkEnabled(c, s, s.workers[i], job) && s.workers[i].Collecting?
    ensures WorkerInv(NextWork(c, s, i, job), NextWork(c, s, i, job).workers[i])
  {
  }

  lemma PublishingKept(c: Cfg, s: Pipe, i: nat, job: WorkAct)
    requires IsWorker(s, i) && WorkEnabled(c, s, s.workers[i], job) && WorkerInv(s, s.workers[i])
    requires s.workers[i].Publishing?
    ensures WorkerInv(NextWork(c, s, i, job), NextWork(c, s, i, job).workers[i])
  {
    hide CanSendOk, CanSendBad, CanSendErr;
    if job.Publish? {
      PublishKept(c, s, i, job);
    }
  }

  lemma PublishKept(c: Cfg, s: Pipe, i: nat, job: WorkAct)
    requires IsWorker(s, i) && WorkEnabled(c, s, s.workers[i], job) && WorkerInv(s, s.workers[i])
    requires job.Publish?
    ensures WorkerInv(NextWork(c, s, i, job), NextWork(c, s, i, job).workers[i])
  {
    hide TryErr;
    var s1 := Put(s, i, PublishOne(s.workers[i], job.answer));
    if job.answer.Rejected? {
      ErrSent(c, s1.(failures := s.failures + 1), job.answer.text, job.collectorReady);
    }
  }

  lemma SendingKept(c: Cfg, s: Pipe, i: nat, job: WorkAct)
    requires IsWorker(s, i) && WorkEnabled(c, s, s.workers[i], job) && WorkerInv(s, s.workers[i])
    requires !s.workers[i].Collecting? && !s.workers[i].Publishing?
    ensures WorkerInv(NextWork(c, s, i, job), NextWork(c, s, i, job).workers[i])
  {
  }

  lemma EndKeepsWorkers(s: Pipe, move: EndAct)
    requires WorkersInv(s) && EndEnabled(s, move)
    ensures WorkersInv(NextEnd(s, move))
  {
  }

  lemma StreamKeepsShape(c: Cfg, s: Pipe, act: StreamAct)
    requires ShapeInv(s) && StreamEnabled(c, s, act)
    ensures ShapeInv(NextStream(c, s, act))
  {
  }

  // ----- a worker's step and the shape -----

  /** Only channels and response differ. */
  predicate Sends(s: Pipe, t: Pipe) {
    t == s.(oks := t.oks, bads := t.bads, errs := t.errs,
            success := t.success, failed := t.failed, errorMsg := t.errorMsg)
  }

  lemma IdsSent(c: Cfg, s: Pipe, ids: seq<Doc>)
    ensures Sends(s, PutOk(c, s, ids)) && PutOk(c, s, ids).errs == s.errs && PutOk(c, s, ids).errorMsg == s.errorMsg
    ensures Sends(s, PutBad(c, s, ids)) && PutBad(c, s, ids).errs == s.errs && PutBad(c, s, ids).errorMsg == s.errorMsg
  {
  }

  lemma ErrSent(c: Cfg, s: Pipe, text: Text, ready: bool)
    ensures Sends(s, PutErr(c, s, text)) && Sends(s, TryErr(c, s, text, ready))
  {
  }

  /** What no step of a worker touches, and the documents it may give up or flag. */
  predicate WorkFrame(s: Pipe, t: Pipe, i: nat, job: WorkAct) {
    && t.main == s.main && t.streamer == s.streamer && t.collector == s.collector && t.cancelled == s.cancelled
    && |t.workers| == |s.workers|
    && s.failures <= t.failures && s.accepted <= t.accepted
    && (job.AbortPublish? || job.AbandonSend? || (t.lost == s.lost && t.lostOk == s.lostOk))
    && t.flagged == (if job.Flag? then s.flagged + job.updated else s.flagged)
    && ((t.errs == s.errs && t.errorMsg == s.errorMsg) || t.failures > s.failures || job.SendErr?)
  }

  lemma PublishFramed(c: Cfg, s: Pipe, i: nat, job: WorkAct)
    requires IsWorker(s, i) && WorkEnabled(c, s, s.workers[i], job) && job.Publish?
    ensures WorkFrame(s, NextWork(c, s, i, job), i, job)
  {
    hide TryErr;
    if job.answer.Rejected? {
      var s1 := Put(s, i, PublishOne(s.workers[i], job.answer)).(failures := s.failures + 1);
      ErrSent(c, s1, job.answer.text, job.collectorReady);
    }
  }

  lemma SendFramed(c: Cfg, s: Pipe, i: nat, job: WorkAct)
    requires IsWorker(s, i) && WorkEnabled(c, s, s.workers[i], job) && (job.SendOk? || job.SendBad? || job.SendErr?)
    ensures WorkFrame(s, NextWork(c, s, i, job), i, job)
  {
    hide PutOk, PutBad, PutErr, CanSendOk, CanSendBad, CanSendErr;
    var w := s.workers[i];
    if job.SendOk? {
      IdsSent(c, Put(s, i, Flagging(w.ok, w.bad, w.last)), w.ok);
    } else if job.SendBad? {
      IdsSent(c, Put(s, i, AfterBatch(w.last)), w.bad);
    } else {
      ErrSent(c, Put(s, i, AfterOk(w.bad, w.last)), w.text, true);
    }
  }

  lemma StepFramed(c: Cfg, s: Pipe, i: nat, job: WorkAct)
    requires IsWorker(s, i) && WorkEnabled(c, s, s.workers[i], job)
    ensures WorkFrame(s, NextWork(c, s, i, job), i, job)
  {
    if job.Publish? {
      PublishFramed(c, s, i, job);
    } else if job.SendOk? || job.SendBad? || job.SendErr? {
      SendFramed(c, s, i, job);
    } else {
      OtherFramed(c, s, i, job);
    }
  }

  lemma OtherFramed(c: Cfg, s: Pipe, i: nat, job: WorkAct)
    requires IsWorker(s, i) && WorkEnabled(c, s, s.workers[i], job)
    requires !job.Publish? && !job.SendOk? && !job.SendBad? && !job.SendErr?
    ensures WorkFrame(s, NextWork(c, s, i, job), i, job)
  {
    hide CanSendOk, CanSendBad, CanSendErr, HeldOk, HeldRest, Append;
  }

  /** A worker that still does something keeps the channels from closing. */
  lemma NotPastWorkers(c: Cfg, s: Pipe, i: nat, job: WorkAct)
    requires OrderInv(s) && IsWorker(s, i) && WorkEnabled(c, s, s.workers[i], job)
    ensures !PastWorkers(s.main)
  {
    hide CollectorInv, CanSendOk, CanSendBad, CanSendErr;
  }

  lemma WorkKeepsOrder(s: Pipe, t: Pipe, i: nat, job: WorkAct)
    requires OrderInv(s) && WorkFrame(s, t, i, job) && !PastWorkers(s.main)
    ensures OrderInv(t)
  {
  }

  lemma AcceptedIn(s: Pipe, w: Worker, job: WorkAct, c: Cfg)
    requires WorkEnabled(c, s, w, job) && WorkerInv(s, w)
    ensures job.Flag? ==> forall d :: d in job.updated ==> d in s.accepted
    ensures job.SendErr? ==> s.failures > 0
    ensures job.AbortPublish? || job.AbandonSend? ==> s.cancelled
  {
  }

  lemma WorkKeepsShape(c: Cfg, s: Pipe, i: nat, job: WorkAct)
    requires ShapeInv(s) && IsWorker(s, i) && WorkEnabled(c, s, s.workers[i], job) && WorkerInv(s, s.workers[i])
    ensures ShapeInv(NextWork(c, s, i, job))
  {
    hide NextWork, WorkEnabled, WorkerInv, OrderInv;
    StepFramed(c, s, i, job);
    NotPastWorkers(c, s, i, job);
    AcceptedIn(s, s.workers[i], job, c);
    WorkKeepsOrder(s, NextWork(c, s, i, job), i, job);
  }

  // ----- the collector's and the main routine's steps -----

  lemma TakesKeepOrder(s: Pipe)
    requires OrderInv(s)
    ensures s.oks != [] ==> OrderInv(TakeOk(s))
    ensures s.bads != [] ==> OrderInv(TakeBad(s))
    ensures s.errs != [] ==> OrderInv(TakeErr(s))
  {
    assert AllExited(s) <==> forall i :: 0 <= i < |s.workers| ==> s.workers[i].Exited?;
  }

  lemma CollectKeepsShape(s: Pipe, move: EndAct)
    requires ShapeInv(s) && EndEnabled(s, move) && (move.CollectOk? || move.CollectBad? || move.CollectErr?)
    ensures ShapeInv(NextEnd(s, move))
  {
    hide OrderInv;
    TakesKeepOrder(s);
    ClosesKeepOrder(s);
  }

  /** The collector sees a channel closed. */
  lemma ClosesKeepOrder(s: Pipe)
    requires OrderInv(s) && s.collector.Running?
    ensures s.oks == [] && OkClosed(s.main) ==> OrderInv(s.(collector := s.collector.(okOpen := false)))
    ensures s.bads == [] && BadClosed(s.main) ==> OrderInv(s.(collector := s.collector.(badOpen := false)))
    ensures s.errs == [] && ErrClosed(s.main) ==> OrderInv(s.(collector := s.collector.(errOpen := false)))
  {
  }

  lemma MainKeepsShape(s: Pipe, move: EndAct)
    requires ShapeInv(s) && EndEnabled(s, move) && (move.Cancel? || move.StopCollector? || move.Advance?)
    ensures ShapeInv(NextEnd(s, move))
  {
  }

  lemma EndKeepsShape(s: Pipe, move: EndAct)
    requires ShapeInv(s) && EndEnabled(s, move)
    ensures ShapeInv(NextEnd(s, move))
  {
    if move.CollectOk? || move.CollectBad? || move.CollectErr? {
      CollectKeepsShape(s, move);
    } else {
      MainKeepsShape(s, move);
    }
  }

  lemma StreamKeepsBounds(c: Cfg, s: Pipe, act: StreamAct)
    requires Bounded(c, s) && StreamEnabled(c, s, act)
    ensures Bounded(c, NextStream(c, s, act))
  {
  }

  lemma WorkKeepsBounds(c: Cfg, s: Pipe, i: nat, job: WorkAct)
    requires Bounded(c, s) && IsWorker(s, i) && WorkEnabled(c, s, s.workers[i], job)
    ensures Bounded(c, NextWork(c, s, i, job))
  {
  }

  lemma EndKeepsBounds(c: Cfg, s: Pipe, move: EndAct)
    requires Bounded(c, s) && EndEnabled(s, move)
    ensures Bounded(c, NextEnd(s, move))
  {
  }

  lemma StepKeepsControl(c: Cfg, s: Pipe, step: Step)
    requires ControlInv(c, s) && Enabled(c, s, step)
    ensures ControlInv(c, Next(c, s, step))
  {
    hide WorkersInv, ShapeInv, Bounded;
    match step
    case Stream(act) =>
      StreamKeepsWorkers(c, s, act);
      StreamKeepsShape(c, s, act);
      StreamKeepsBounds(c, s, act);
    case Work(i, job) =>
      WorkKeepsWorkers(c, s, i, job);
      WorkerAt(s, i);
      WorkKeepsShape(c, s, i, job);
      WorkKeepsBounds(c, s, i, job);
    case Finish(move) =>
      EndKeepsWorkers(s, move);
      EndKeepsShape(s, move);
      EndKeepsBounds(c, s, move);
  }

  lemma WorkerAt(s: Pipe, i: nat)
    requires WorkersInv(s) && IsWorker(s, i)
    ensures WorkerInv(s, s.workers[i])
  {
  }
}
