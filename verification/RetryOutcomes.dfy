/** What is left of a retry run: which documents carry the flag, and whose error is reported. */
module RetryOutcomes {
  import opened RetryPipeline
  import opened RetryControl
  import opened RetryTheorems

  // ----- flags -----

  /** Accepted documents of a worker's batch that are not flagged yet. */
  function Unflagged(w: Worker): seq<Doc> {
    if w.Publishing? || w.SendingOk? || w.Flagging? then w.ok else []
  }

  ghost predicate Pending(s: Pipe, d: Doc) {
    exists i :: 0 <= i < |s.workers| && d in Unflagged(s.workers[i])
  }

  /** Every accepted document is flagged, about to be, or given up because of cancellation. */
  ghost predicate FlagsUpToDate(s: Pipe, d: Doc) {
    d in s.accepted ==> d in s.flagged || Pending(s, d) || d in s.lostOk
  }

  /** The flag update of the step reaches the whole batch. */
  predicate Complete(s: Pipe, step: Step) {
    step.Work? && step.job.Flag? && step.i < |s.workers| && s.workers[step.i].Flagging? ==>
      forall d :: d in s.workers[step.i].ok ==> d in step.job.updated
  }

  /** What becomes of the moved worker's accepted documents. */
  lemma MoverFlags(c: Cfg, s: Pipe, i: nat, job: WorkAct, d: Doc)
    requires IsWorker(s, i) && WorkEnabled(c, s, s.workers[i], job) && Complete(s, Work(i, job))
    ensures var t := NextWork(c, s, i, job);
            && |t.workers| == |s.workers|
            && (d in Unflagged(s.workers[i]) ==> d in Unflagged(t.workers[i]) || d in t.flagged || d in t.lostOk)
            && (d in t.accepted ==> d in s.accepted || d in Unflagged(t.workers[i]))
  {
    hide TryErr, CanSendOk, CanSendBad, CanSendErr;
    if job.Publish? {
      PublishFlags(c, s, i, job, d);
    }
  }

  lemma PublishFlags(c: Cfg, s: Pipe, i: nat, job: WorkAct, d: Doc)
    requires IsWorker(s, i) && WorkEnabled(c, s, s.workers[i], job) && job.Publish?
    ensures var t := NextWork(c, s, i, job);
            && |t.workers| == |s.workers|
            && (d in Unflagged(s.workers[i]) ==> d in Unflagged(t.workers[i]))
            && (d in t.accepted ==> d in s.accepted || d in Unflagged(t.workers[i]))
  {
    hide TryErr;
    if job.answer.Rejected? {
      var s1 := Put(s, i, PublishOne(s.workers[i], job.answer)).(failures := s.failures + 1);
      ErrSent(c, s1, job.answer.text, job.collectorReady);
    }
  }

  lemma OthersUntouched(c: Cfg, s: Pipe, i: nat, job: WorkAct, d: Doc)
    requires IsWorker(s, i) && WorkEnabled(c, s, s.workers[i], job)
    ensures var t := NextWork(c, s, i, job);
            && t.workers == s.workers[i := t.workers[i]]
            && (d in s.flagged ==> d in t.flagged) && (d in s.lostOk ==> d in t.lostOk)
  {
    WorkGrows(c, s, i, job);
    StepFramed(c, s, i, job);
    LostGrows(c, s, i, job, d);
  }

  lemma LostGrows(c: Cfg, s: Pipe, i: nat, job: WorkAct, d: Doc)
    requires IsWorker(s, i) && WorkEnabled(c, s, s.workers[i], job)
    ensures d in s.lostOk ==> d in NextWork(c, s, i, job).lostOk
  {
    StepFramed(c, s, i, job);
  }

  lemma WorkKeepsFlags(c: Cfg, s: Pipe, i: nat, job: WorkAct, d: Doc)
    requires IsWorker(s, i) && WorkEnabled(c, s, s.workers[i], job) && Complete(s, Work(i, job))
    requires FlagsUpToDate(s, d)
    ensures FlagsUpToDate(NextWork(c, s, i, job), d)
  {
    hide NextWork, WorkEnabled, Unflagged, Complete;
    var t := NextWork(c, s, i, job);
    MoverFlags(c, s, i, job, d);
    OthersUntouched(c, s, i, job, d);
    if d in t.accepted && d !in t.flagged && d !in t.lostOk {
      if d in Unflagged(t.workers[i]) {
        assert Pending(t, d);
      } else {
        assert Pending(s, d);
        var j :| 0 <= j < |s.workers| && d in Unflagged(s.workers[j]);
        assert j != i && t.workers[j] == s.workers[j];
      }
    }
  }

  lemma StepKeepsFlags(c: Cfg, s: Pipe, step: Step, d: Doc)
    requires Enabled(c, s, step) && Complete(s, step) && FlagsUpToDate(s, d)
    ensures FlagsUpToDate(Next(c, s, step), d)
  {
    hide NextWork, WorkEnabled, Complete;
    match step
    case Work(i, job) => WorkKeepsFlags(c, s, i, job, d);
    case Stream(act) => StreamKeepsFlags(c, s, act, d);
    case Finish(move) => EndKeepsFlags(s, move, d);
  }

  lemma StreamKeepsFlags(c: Cfg, s: Pipe, act: StreamAct, d: Doc)
    requires StreamEnabled(c, s, act) && FlagsUpToDate(s, d)
    ensures FlagsUpToDate(NextStream(c, s, act), d)
  {
    var t := NextStream(c, s, act);
    if Pending(s, d) {
      var i :| 0 <= i < |s.workers| && d in Unflagged(s.workers[i]);
      assert d in Unflagged(t.workers[i]);
    }
  }

  lemma EndKeepsFlags(s: Pipe, move: EndAct, d: Doc)
    requires EndEnabled(s, move) && FlagsUpToDate(s, d)
    ensures FlagsUpToDate(NextEnd(s, move), d)
  {
    var t := NextEnd(s, move);
    assert t.workers == s.workers && t.accepted == s.accepted && t.flagged == s.flagged && t.lostOk == s.lostOk;
    assert Pending(t, d) <==> Pending(s, d);
  }

  lemma {:induction false} RunKeepsFlags(c: Cfg, ss: seq<Pipe>, steps: seq<Step>, items: seq<Item>, workers: nat,
                                         n: nat, d: Doc)
    requires Run(c, ss, steps) && Init(ss[0], items, workers) && n <= |steps|
    requires forall i :: 0 <= i < |steps| ==> Complete(ss[i], steps[i])
    ensures FlagsUpToDate(ss[n], d)
  {
    hide Next, Enabled, Complete, FlagsUpToDate;
    if n == 0 {
      NothingAccepted(ss[0], items, workers, d);
    } else {
      RunKeepsFlags(c, ss, steps, items, workers, n - 1, d);
      StepKeepsFlags(c, ss[n - 1], steps[n - 1], d);
    }
  }

  lemma NothingAccepted(s: Pipe, items: seq<Item>, workers: nat, d: Doc)
    requires Init(s, items, workers)
    ensures FlagsUpToDate(s, d)
  {
  }

  /** If no run is cancelled and every flag update reaches its batch, the documents flagged are
      exactly those Kafka accepted. */
  lemma AcceptedAreFlagged(c: Cfg, ss: seq<Pipe>, steps: seq<Step>, items: seq<Item>, workers: nat, d: Doc)
    requires Run(c, ss, steps) && Init(ss[0], items, workers)
    requires ss[|steps|].main.Returned? && !ss[|steps|].cancelled
    requires forall i :: 0 <= i < |steps| ==> Complete(ss[i], steps[i])
    ensures d in ss[|steps|].flagged <==> d in ss[|steps|].accepted
  {
    hide Complete, Inv;
    var s := ss[|steps|];
    RunKeepsFlags(c, ss, steps, items, workers, |steps|, d);
    RunKeepsInv(c, ss, steps, items, workers, |steps|);
    InvControls(c, s, items, CursorBroke(steps[..|steps|]));
    assert forall i :: 0 <= i < |s.workers| ==> s.workers[i].Exited?;
  }

  // ----- the error that is reported -----

  /** The error the response has or will have: what it holds, else the front of the channel. */
  function Reported(s: Pipe): string {
    if s.errorMsg != "" then s.errorMsg else if s.errs != [] then s.errs[0] else ""
  }

  /** The error text a step brings along, "" if none. */
  function TextOf(s: Pipe, step: Step): string {
    match step
    case Stream(EndStream(error, _)) => if error.Some? then error.value else ""
    case Work(i, job) =>
      if job.Publish? && job.answer.Rejected? then job.answer.text
      else if job.SendErr? && i < |s.workers| && s.workers[i].SendingErr? then s.workers[i].text else ""
    case _ => ""
  }

  lemma SentErrIsReported(c: Cfg, s: Pipe, text: Text, ready: bool)
    ensures Reported(s) != "" ==> Reported(PutErr(c, s, text)) == Reported(s)
    ensures Reported(s) == "" ==> Reported(PutErr(c, s, text)) == text
    ensures var tried := Reported(TryErr(c, s, text, ready));
            tried == Reported(s) || tried == Reported(PutErr(c, s, text))
  {
  }

  lemma WorkKeepsReport(c: Cfg, s: Pipe, i: nat, job: WorkAct)
    requires IsWorker(s, i) && WorkEnabled(c, s, s.workers[i], job)
    ensures var t := NextWork(c, s, i, job);
            && (Reported(s) != "" ==> Reported(t) == Reported(s))
            && (Reported(s) == "" && Reported(t) != "" ==> Reported(t) == TextOf(s, Work(i, job)))
  {
    hide TryErr, PutErr, PutOk, PutBad, CanSendOk, CanSendBad, CanSendErr;
    var w := s.workers[i];
    if job.Publish? && job.answer.Rejected? {
      var s1 := Put(s, i, PublishOne(w, job.answer)).(failures := s.failures + 1);
      SentErrIsReported(c, s1, job.answer.text, job.collectorReady);
    } else if job.SendErr? {
      SentErrIsReported(c, Put(s, i, AfterOk(w.bad, w.last)), w.text, true);
    } else {
      QuietKeepsErrors(c, s, i, job);
    }
  }

  lemma QuietKeepsErrors(c: Cfg, s: Pipe, i: nat, job: WorkAct)
    requires IsWorker(s, i) && WorkEnabled(c, s, s.workers[i], job)
    requires !job.SendErr? && !(job.Publish? && job.answer.Rejected?)
    ensures NextWork(c, s, i, job).errs == s.errs && NextWork(c, s, i, job).errorMsg == s.errorMsg
  {
    hide TryErr, PutErr, PutOk, PutBad, CanSendOk, CanSendBad, CanSendErr;
    var w := s.workers[i];
    if job.SendOk? {
      IdsSent(c, Put(s, i, Flagging(w.ok, w.bad, w.last)), w.ok);
    } else if job.SendBad? {
      IdsSent(c, Put(s, i, AfterBatch(w.last)), w.bad);
    }
  }

  /** Errors queue up behind one another: the first that got into the channel is the one reported. */
  lemma StepKeepsReport(c: Cfg, s: Pipe, step: Step)
    requires Enabled(c, s, step)
    ensures var t := Next(c, s, step);
            && (Reported(s) != "" ==> Reported(t) == Reported(s))
            && (Reported(s) == "" && Reported(t) != "" ==> Reported(t) == TextOf(s, step))
  {
    hide NextWork, WorkEnabled;
    match step
    case Work(i, job) => WorkKeepsReport(c, s, i, job);
    case Stream(act) => StreamKeepsReport(c, s, act);
    case Finish(_) =>
  }

  lemma StreamKeepsReport(c: Cfg, s: Pipe, act: StreamAct)
    requires StreamEnabled(c, s, act)
    ensures var t := NextStream(c, s, act);
            && (Reported(s) != "" ==> Reported(t) == Reported(s))
            && (Reported(s) == "" && Reported(t) != "" ==> Reported(t) == TextOf(s, Stream(act)))
  {
    hide TryErr, PutErr;
    if act.EndStream? && act.error.Some? {
      SentErrIsReported(c, s.(streamer := Ended, rest := [], failures := s.failures + 1), act.error.value, act.heard);
    }
  }

  /** The message of a run that returned uncancelled is the text of the step at which the first
      error got through; every later error leaves it alone. */
  lemma {:induction false} FirstErrorIsReported(c: Cfg, ss: seq<Pipe>, steps: seq<Step>, items: seq<Item>, workers: nat,
                                                n: nat)
    requires Run(c, ss, steps) && Init(ss[0], items, workers) && n <= |steps|
    ensures Reported(ss[n]) != "" ==>
              exists k :: 0 <= k < n && Reported(ss[k]) == "" && Reported(ss[k + 1]) == Reported(ss[n])
                          && Reported(ss[n]) == TextOf(ss[k], steps[k])
    ensures ss[n].main.Returned? && !ss[n].cancelled ==> ss[n].errorMsg == Reported(ss[n])
  {
    hide Next, Enabled, TextOf;
    ReturnedIsReported(c, ss, steps, items, workers, n);
    if n > 0 {
      FirstErrorIsReported(c, ss, steps, items, workers, n - 1);
      StepKeepsReport(c, ss[n - 1], steps[n - 1]);
    }
  }

  lemma ReturnedIsReported(c: Cfg, ss: seq<Pipe>, steps: seq<Step>, items: seq<Item>, workers: nat, n: nat)
    requires Run(c, ss, steps) && Init(ss[0], items, workers) && n <= |steps|
    ensures ss[n].main.Returned? && !ss[n].cancelled ==> ss[n].errorMsg == Reported(ss[n])
  {
    hide Inv;
    RunKeepsInv(c, ss, steps, items, workers, n);
    InvControls(c, ss[n], items, CursorBroke(steps[..n]));
  }

  // ----- the response is final -----

  /** Only a running collector changes the response: a send hands over to nobody else. */
  lemma OnlyCollectorWrites(c: Cfg, s: Pipe, step: Step)
    requires Enabled(c, s, step) && s.collector.Stopped?
    ensures var t := Next(c, s, step);
            && t.success == s.success && t.failed == s.failed && t.errorMsg == s.errorMsg && t.collector.Stopped?
  {
    hide NextWork, WorkEnabled, NextStream, StreamEnabled;
    match step
    case Work(i, job) => WorkerHandsOver(c, s, i, job);
    case Stream(act) => StreamerHandsOver(c, s, act);
    case Finish(_) =>
  }

  lemma WorkerHandsOver(c: Cfg, s: Pipe, i: nat, job: WorkAct)
    requires IsWorker(s, i) && WorkEnabled(c, s, s.workers[i], job) && s.collector.Stopped?
    ensures var t := NextWork(c, s, i, job);
            && t.success == s.success && t.failed == s.failed && t.errorMsg == s.errorMsg && t.collector == s.collector
  {
    hide TakeOk, TakeBad, TakeErr, HeldOk, HeldRest, Append;
  }

  lemma StreamerHandsOver(c: Cfg, s: Pipe, act: StreamAct)
    requires StreamEnabled(c, s, act) && s.collector.Stopped?
    ensures var t := NextStream(c, s, act);
            && t.success == s.success && t.failed == s.failed && t.errorMsg == s.errorMsg && t.collector == s.collector
  {
    hide TakeErr;
  }

  /** Once the collector has stopped the response stays as it is to the end of the run. */
  lemma {:induction false} ResponseIsFinal(c: Cfg, ss: seq<Pipe>, steps: seq<Step>, i: nat, j: nat)
    requires Run(c, ss, steps) && i <= j <= |steps| && ss[i].collector.Stopped?
    ensures ss[j].success == ss[i].success && ss[j].failed == ss[i].failed && ss[j].errorMsg == ss[i].errorMsg
    ensures ss[j].collector.Stopped?
  {
    hide Enabled, Next;
    if i < j {
      ResponseIsFinal(c, ss, steps, i, j - 1);
      OnlyCollectorWrites(c, ss[j - 1], steps[j - 1]);
    }
  }

  /** A batch is broken off only at a document whose publish was rejected; that document and all
      after it are among those given up. */
  lemma BrokenOffBatch(c: Cfg, s: Pipe, i: nat, d: Doc)
    requires IsWorker(s, i) && WorkEnabled(c, s, s.workers[i], AbortPublish)
    ensures s.workers[i].todo != [] && s.cancelled
    ensures d in s.workers[i].todo || d in s.workers[i].bad ==> d in NextWork(c, s, i, AbortPublish).lost
    ensures d in s.workers[i].ok ==> d in NextWork(c, s, i, AbortPublish).lostOk
  {
  }
}
