/** What a retry run guarantees under every schedule, and what repeated runs guarantee. */
module RetryTheorems {
  import opened RetryPipeline
  import opened RetryAccounts
  import opened RetryControl
  import opened RetryProgress

  // ----- errors -----

  /** Some failure is known to the response or on its way to it. */
  predicate Noted(s: Pipe) {
    s.errorMsg != "" || s.errs != [] || exists i :: 0 <= i < |s.workers| && s.workers[i].SendingErr?
  }

  predicate ErrorInv(c: Cfg, s: Pipe) {
    c.buffer >= 1 && !s.cancelled && s.failures > 0 ==> Noted(s)
  }

  lemma TryErrNotes(c: Cfg, s: Pipe, text: Text, ready: bool)
    requires c.buffer >= 1
    ensures Noted(TryErr(c, s, text, ready)) && Noted(PutErr(c, s, text))
  {
  }

  lemma StreamKeepsErrors(c: Cfg, s: Pipe, act: StreamAct)
    requires ErrorInv(c, s) && StreamEnabled(c, s, act)
    ensures ErrorInv(c, NextStream(c, s, act))
  {
    if c.buffer >= 1 && act.EndStream? && act.error.Some? {
      TryErrNotes(c, s.(streamer := Ended, rest := [], failures := s.failures + 1), act.error.value, act.heard);
    } else if Noted(s) && s.errorMsg == "" && s.errs == [] {
      var i :| 0 <= i < |s.workers| && s.workers[i].SendingErr?;
      assert NextStream(c, s, act).workers[i].SendingErr?;
    }
  }

  lemma WorkKeepsErrors(c: Cfg, s: Pipe, i: nat, job: WorkAct)
    requires ErrorInv(c, s) && IsWorker(s, i) && WorkEnabled(c, s, s.workers[i], job)
    ensures ErrorInv(c, NextWork(c, s, i, job))
  {
    hide TryErr, PutErr, PutOk, PutBad;
    var s' := NextWork(c, s, i, job);
    var w := s.workers[i];
    WorkKeepsNotes(c, s, i, job);
    if c.buffer >= 1 && !s.cancelled {
      if job.Publish? && job.answer.Rejected? {
        var s1 := Put(s, i, PublishOne(w, job.answer)).(failures := s.failures + 1);
        TryErrNotes(c, s1, job.answer.text, job.collectorReady);
      } else if job.SendErr? {
        TryErrNotes(c, Put(s, i, AfterOk(w.bad, w.last)), w.text, true);
      } else if job.Flag? && job.error.Some? {
        assert s'.workers[i].SendingErr?;
      }
    }
  }

  /** Errors already noted stay noted; the failure count moves only with a new error. */
  lemma WorkKeepsNotes(c: Cfg, s: Pipe, i: nat, job: WorkAct)
    requires IsWorker(s, i) && WorkEnabled(c, s, s.workers[i], job)
    ensures var s' := NextWork(c, s, i, job);
            && s'.cancelled == s.cancelled
            && (Noted(s) && !job.SendErr? && !job.AbandonSend? ==> Noted(s'))
            && (s'.failures > s.failures ==>
                  job.AbortPublish? || (job.Publish? && job.answer.Rejected?) || (job.Flag? && job.error.Some?))
  {
    var s' := NextWork(c, s, i, job);
    if Noted(s) && s.errorMsg == "" && s.errs == [] {
      var j :| 0 <= j < |s.workers| && s.workers[j].SendingErr?;
      assert j != i ==> s'.workers[j].SendingErr?;
    }
  }

  lemma EndKeepsErrors(c: Cfg, s: Pipe, move: EndAct)
    requires ErrorInv(c, s) && EndEnabled(s, move)
    ensures ErrorInv(c, NextEnd(s, move))
  {
  }

  // ----- what the cursor delivers -----

  ghost function ItemCount(items: seq<Item>, d: Doc): nat {
    if items == [] then 0 else (if items[0] == Decodable(d) then 1 else 0) + ItemCount(items[1..], d)
  }

  /** No document is decoded more often than the cursor holds it, and none is missed unless the
      cursor broke off. */
  ghost predicate DecodeInv(s: Pipe, items: seq<Item>, d: Doc, brokeOff: bool) {
    && Count(s.decoded, d) + ItemCount(s.rest, d) <= ItemCount(items, d)
    && (!brokeOff ==> Count(s.decoded, d) + ItemCount(s.rest, d) == ItemCount(items, d))
  }

  /** The cursor ends with an error (or because the context is done). */
  predicate BreaksOff(step: Step) {
    step.Stream? && step.act.EndStream? && step.act.error.Some?
  }

  lemma StepKeepsDecoded(c: Cfg, s: Pipe, step: Step, items: seq<Item>, d: Doc, brokeOff: bool)
    requires DecodeInv(s, items, d, brokeOff) && Enabled(c, s, step)
    ensures DecodeInv(Next(c, s, step), items, d, brokeOff || BreaksOff(step))
  {
    hide NextWork, WorkEnabled, NextStream, StreamEnabled;
    match step
    case Stream(act) => StreamKeepsDecoded(c, s, act, items, d, brokeOff);
    case Work(i, job) => WorkKeepsCursor(c, s, i, job);
    case Finish(_) =>
  }

  lemma StreamKeepsDecoded(c: Cfg, s: Pipe, act: StreamAct, items: seq<Item>, d: Doc, brokeOff: bool)
    requires DecodeInv(s, items, d, brokeOff) && StreamEnabled(c, s, act)
    ensures DecodeInv(NextStream(c, s, act), items, d, brokeOff || BreaksOff(Stream(act)))
  {
    if act.Decode? { CountAppend(s.decoded, [s.rest[0].doc], d); }
  }

  lemma WorkKeepsCursor(c: Cfg, s: Pipe, i: nat, job: WorkAct)
    requires IsWorker(s, i) && WorkEnabled(c, s, s.workers[i], job)
    ensures NextWork(c, s, i, job).decoded == s.decoded && NextWork(c, s, i, job).rest == s.rest
  {
  }

  // ----- runs -----

  ghost predicate Inv(c: Cfg, s: Pipe, items: seq<Item>, brokeOff: bool) {
    && ControlInv(c, s) && ErrorInv(c, s)
    && (forall d :: Balanced(s, d))
    && (forall d :: DecodeInv(s, items, d, brokeOff))
  }

  lemma InitInv(c: Cfg, s: Pipe, items: seq<Item>, workers: nat)
    requires Init(s, items, workers)
    ensures Inv(c, s, items, false)
  {
    forall d: Doc
      ensures Balanced(s, d)
    {
      NothingHeld(HeldOk, s.workers, d);
      NothingHeld(HeldRest, s.workers, d);
    }
  }

  lemma {:induction false} NothingHeld(f: Worker -> seq<Doc>, ws: seq<Worker>, d: Doc)
    requires forall w :: w in ws ==> f(w) == []
    ensures HeldCount(f, ws, d) == 0
  {
    if ws != [] { NothingHeld(f, ws[1..], d); }
  }

  lemma StepKeepsInv(c: Cfg, s: Pipe, step: Step, items: seq<Item>, brokeOff: bool, broke: bool)
    requires Inv(c, s, items, brokeOff) && Enabled(c, s, step) && broke == (brokeOff || BreaksOff(step))
    ensures Inv(c, Next(c, s, step), items, broke)
  {
    hide Balanced, DecodeInv, ControlInv, ErrorInv;
    StepKeepsControl(c, s, step);
    match step {
      case Stream(act) => StreamKeepsErrors(c, s, act);
      case Work(i, job) => WorkKeepsErrors(c, s, i, job);
      case Finish(move) => EndKeepsErrors(c, s, move);
    }
    forall d: Doc
      ensures Balanced(Next(c, s, step), d) && DecodeInv(Next(c, s, step), items, d, broke)
    {
      StepKeepsBalance(c, s, step, d);
      StepKeepsDecoded(c, s, step, items, d, brokeOff);
    }
  }

  ghost predicate CursorBroke(steps: seq<Step>) {
    exists i :: 0 <= i < |steps| && BreaksOff(steps[i])
  }

  lemma {:induction false} RunKeepsInv(c: Cfg, ss: seq<Pipe>, steps: seq<Step>, items: seq<Item>, workers: nat, n: nat)
    requires Run(c, ss, steps) && Init(ss[0], items, workers) && n <= |steps|
    ensures Inv(c, ss[n], items, CursorBroke(steps[..n]))
  {
    hide Inv;
    if n == 0 {
      InitInv(c, ss[0], items, workers);
    } else {
      RunKeepsInv(c, ss, steps, items, workers, n - 1);
      assert CursorBroke(steps[..n]) <==> CursorBroke(steps[..n - 1]) || BreaksOff(steps[n - 1]) by {
        assert forall i :: 0 <= i < n - 1 ==> steps[..n][i] == steps[..n - 1][i];
        assert steps[..n][n - 1] == steps[n - 1];
      }
      StepKeepsInv(c, ss[n - 1], steps[n - 1], items, CursorBroke(steps[..n - 1]), CursorBroke(steps[..n]));
    }
  }

  // ----- the guarantees -----

  lemma FinalAccounts(c: Cfg, s: Pipe, items: seq<Item>, brokeOff: bool, d: Doc)
    requires Inv(c, s, items, brokeOff) && s.main.Returned? && !s.cancelled
    ensures Count(s.success, d) == Count(s.accepted, d)
    ensures Count(s.success, d) + Count(s.failed, d) == Count(s.decoded, d)
    ensures s.rest == [] || brokeOff || Count(s.decoded, d) <= ItemCount(items, d)
  {
    assert Balanced(s, d) && DecodeInv(s, items, d, brokeOff);
    WorkerAt(s, 0);
    assert s.workers[0].Exited?;
    NothingHeld(HeldOk, s.workers, d);
    NothingHeld(HeldRest, s.workers, d);
  }

  /** Under every schedule without cancellation, whatever the number of workers, the buffer and
      the batch size: the ids reported as successes are exactly those Kafka accepted, and
      successes and failures together are exactly the decoded documents. */
  lemma RunConserves(c: Cfg, ss: seq<Pipe>, steps: seq<Step>, items: seq<Item>, workers: nat)
    requires Run(c, ss, steps) && Init(ss[0], items, workers)
    requires ss[|steps|].main.Returned? && !ss[|steps|].cancelled
    ensures var s := ss[|steps|];
            && multiset(s.success) == multiset(s.accepted)
            && multiset(s.success) + multiset(s.failed) == multiset(s.decoded)
  {
    hide Inv;
    RunKeepsInv(c, ss, steps, items, workers, |steps|);
    var s := ss[|steps|];
    forall d: Doc
      ensures multiset(s.success)[d] == multiset(s.accepted)[d]
      ensures (multiset(s.success) + multiset(s.failed))[d] == multiset(s.decoded)[d]
    {
      FinalAccounts(c, s, items, CursorBroke(steps[..|steps|]), d);
      CountIsMultiplicity(s.success, d);
      CountIsMultiplicity(s.failed, d);
      CountIsMultiplicity(s.accepted, d);
      CountIsMultiplicity(s.decoded, d);
    }
  }

  /** With or without cancellation, at every moment: no id is reported more often than the
      cursor holds it, so never twice when the _ids are distinct; reported successes were
      accepted, and so was every document whose flag was set. */
  lemma ReportsAreSound(c: Cfg, ss: seq<Pipe>, steps: seq<Step>, items: seq<Item>, workers: nat, d: Doc)
    requires Run(c, ss, steps) && Init(ss[0], items, workers)
    ensures var s := ss[|steps|];
            && Count(s.success, d) + Count(s.failed, d) <= ItemCount(items, d)
            && Count(s.success, d) <= Count(s.accepted, d) <= ItemCount(items, d)
            && (d in s.flagged ==> d in s.accepted)
  {
    RunKeepsInv(c, ss, steps, items, workers, |steps|);
    var s := ss[|steps|];
    assert Balanced(s, d) && DecodeInv(s, items, d, CursorBroke(steps[..|steps|]));
  }

  /** If the cursor does not break off, a run without cancellation accounts for every decodable item. */
  lemma NothingIsMissed(c: Cfg, ss: seq<Pipe>, steps: seq<Step>, items: seq<Item>, workers: nat, d: Doc)
    requires Run(c, ss, steps) && Init(ss[0], items, workers) && !CursorBroke(steps)
    requires ss[|steps|].main.Returned? && !ss[|steps|].cancelled
    ensures Count(ss[|steps|].success, d) + Count(ss[|steps|].failed, d) == ItemCount(items, d)
  {
    hide Inv, DecodeInv;
    RunKeepsInv(c, ss, steps, items, workers, |steps|);
    assert steps[..|steps|] == steps;
    var s := ss[|steps|];
    FinalAccounts(c, s, items, false, d);
    CursorExhausted(c, ss, steps, items, workers, |steps|);
    InvDecodes(c, s, items, d);
    ExhaustedCount(s, items, d);
  }

  lemma InvDecodes(c: Cfg, s: Pipe, items: seq<Item>, d: Doc)
    requires Inv(c, s, items, false)
    ensures DecodeInv(s, items, d, false)
    ensures s.main.Returned? ==> s.streamer.Ended?
  {
  }

  lemma ExhaustedCount(s: Pipe, items: seq<Item>, d: Doc)
    requires DecodeInv(s, items, d, false) && s.rest == []
    ensures Count(s.decoded, d) == ItemCount(items, d)
  {
  }

  /** A streamer that ended without error or cancellation has read everything. */
  lemma {:induction false} CursorExhausted(c: Cfg, ss: seq<Pipe>, steps: seq<Step>, items: seq<Item>,
                                           workers: nat, n: nat)
    requires Run(c, ss, steps) && Init(ss[0], items, workers) && !CursorBroke(steps) && n <= |steps|
    ensures ss[n].streamer.Ended? && !ss[n].cancelled ==> ss[n].rest == []
  {
    if n > 0 {
      CursorExhausted(c, ss, steps, items, workers, n - 1);
      assert !BreaksOff(steps[n - 1]);
      var step := steps[n - 1];
      if step.Work? {
        WorkKeepsCursor(c, ss[n - 1], step.i, step.job);
        WorkGrows(c, ss[n - 1], step.i, step.job);
        WorkKeepsStreamer(c, ss[n - 1], step.i, step.job);
      }
    }
  }

  lemma WorkKeepsStreamer(c: Cfg, s: Pipe, i: nat, job: WorkAct)
    requires IsWorker(s, i) && WorkEnabled(c, s, s.workers[i], job)
    ensures NextWork(c, s, i, job).streamer == s.streamer && NextWork(c, s, i, job).cancelled == s.cancelled
  {
  }

  lemma InvControls(c: Cfg, s: Pipe, items: seq<Item>, brokeOff: bool)
    requires Inv(c, s, items, brokeOff)
    ensures ControlInv(c, s)
  {
    hide ControlInv;
  }

  /** No run is longer than the measure of its start, and one that has not returned can go on. */
  lemma {:induction false} RunsEnd(c: Cfg, ss: seq<Pipe>, steps: seq<Step>, items: seq<Item>, workers: nat, n: nat)
    requires Run(c, ss, steps) && Init(ss[0], items, workers) && n <= |steps|
    ensures n + Measure(ss[n]) <= Measure(ss[0])
    ensures !ss[n].main.Returned? ==> exists step :: Enabled(c, ss[n], step) && step != Finish(Cancel)
  {
    hide Measure, ControlInv, Inv, Init, Enabled, Next;
    RunKeepsInv(c, ss, steps, items, workers, n);
    InvControls(c, ss[n], items, CursorBroke(steps[..n]));
    if !ss[n].main.Returned? {
      var step := NoDeadlock(c, ss[n]);
    }
    if n > 0 {
      RunsEnd(c, ss, steps, items, workers, n - 1);
      RunKeepsInv(c, ss, steps, items, workers, n - 1);
      InvControls(c, ss[n - 1], items, CursorBroke(steps[..n - 1]));
      StepLowersMeasure(c, ss[n - 1], steps[n - 1]);
    }
  }

  /** With room for at least one error, a run without cancellation shows an error message exactly
      when some publish, flag update or cursor read failed; a message is never made up. */
  lemma ErrorsAreReported(c: Cfg, ss: seq<Pipe>, steps: seq<Step>, items: seq<Item>, workers: nat)
    requires Run(c, ss, steps) && Init(ss[0], items, workers)
    ensures ss[|steps|].errorMsg != "" ==> ss[|steps|].failures > 0
    ensures c.buffer >= 1 && ss[|steps|].main.Returned? && !ss[|steps|].cancelled ==>
              (ss[|steps|].errorMsg != "" <==> ss[|steps|].failures > 0)
  {
    RunKeepsInv(c, ss, steps, items, workers, |steps|);
  }
}
