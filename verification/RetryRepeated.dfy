/** Repeated retry runs over one Collections store, and what an unbuffered error channel costs. */
module RetryRepeated {
  import opened Numbers
  import opened RetryPipeline
  import opened RetryAccounts
  import opened RetryTheorems

  /** The aggregation matches publishedToKafka == false; each document comes once. */
  ghost predicate Selects(items: seq<Item>, docs: set<Doc>, flagged: set<Doc>) {
    forall d :: ItemCount(items, d) == if d in docs && d !in flagged then 1 else 0
  }

  /** One run, complete or cut off anywhere, from the selection to its last state. */
  ghost predicate Pass(docs: set<Doc>, flagged: set<Doc>, end: Pipe) {
    exists c, ss, steps, items, workers ::
      && Run(c, ss, steps) && Init(ss[0], items, workers) && end == ss[|steps|]
      && Selects(items, docs, flagged)
  }

  /** flags[k] are the flagged documents before pass k. */
  ghost predicate Passes(docs: set<Doc>, flags: seq<set<Doc>>, ends: seq<Pipe>) {
    && |flags| == |ends| + 1
    && forall k :: 0 <= k < |ends| ==>
         Pass(docs, flags[k], ends[k]) && flags[k + 1] == flags[k] + ends[k].flagged
  }

  lemma PassIsSound(docs: set<Doc>, flagged: set<Doc>, end: Pipe, d: Doc)
    requires Pass(docs, flagged, end)
    ensures d in end.flagged ==> d in end.accepted
    ensures d in end.accepted ==> d in docs && d !in flagged
    ensures Count(end.success, d) + Count(end.failed, d) <= 1
  {
    var c, ss, steps, items, workers :|
      Run(c, ss, steps) && Init(ss[0], items, workers) && end == ss[|steps|] && Selects(items, docs, flagged);
    ReportsAreSound(c, ss, steps, items, workers, d);
    CountIsMultiplicity(end.accepted, d);
    assert ItemCount(items, d) == if d in docs && d !in flagged then 1 else 0;
  }

  /** Over any number of runs, cut off or cancelled anywhere: a document that carries the flag
      without having had it before was accepted by Kafka in an earlier run. */
  lemma {:induction false} FlagsMeanAccepted(docs: set<Doc>, flags: seq<set<Doc>>, ends: seq<Pipe>, k: nat, d: Doc)
    requires Passes(docs, flags, ends) && k <= |ends| && d in flags[k] && d !in flags[0]
    ensures exists j :: 0 <= j < k && d in ends[j].accepted
  {
    if d in flags[k - 1] {
      FlagsMeanAccepted(docs, flags, ends, k - 1, d);
    } else {
      PassIsSound(docs, flags[k - 1], ends[k - 1], d);
      assert d in ends[k - 1].accepted;
    }
  }

  /** A document Kafka never accepted stays unflagged, so every run selects it again. */
  lemma UnacceptedIsSelectedAgain(docs: set<Doc>, flags: seq<set<Doc>>, ends: seq<Pipe>, k: nat, d: Doc,
                                  items: seq<Item>)
    requires Passes(docs, flags, ends) && k <= |ends| && d in docs && d !in flags[0]
    requires forall j :: 0 <= j < k ==> d !in ends[j].accepted
    requires Selects(items, docs, flags[k])
    ensures d !in flags[k] && ItemCount(items, d) == 1
  {
    if d in flags[k] {
      FlagsMeanAccepted(docs, flags, ends, k, d);
    }
    assert ItemCount(items, d) == if d in docs && d !in flags[k] then 1 else 0;
  }

  // ----- the error channel needs room -----

  /** A publish fails while the collector is busy elsewhere: with buffer 0 the error is dropped. */
  const LOSING_SCHEDULE: seq<Step> := [
    Stream(Decode), Stream(Offer(Some(0))), Stream(EndStream(None, true)),
    Work(0, Publish(Rejected("broker down"), false)), Work(0, EndBatch), Work(0, SendBad), Work(0, SeeClosed),
    Finish(Advance), Finish(Advance), Finish(Advance), Finish(Advance), Finish(Advance),
    Finish(CollectOk), Finish(CollectBad), Finish(CollectErr), Finish(StopCollector), Finish(Advance)]

  const UNBUFFERED := Cfg(0, 1)

  predicate Leads(s: Pipe, step: Step, t: Pipe) {
    Enabled(UNBUFFERED, s, step) && Next(UNBUFFERED, s, step) == t
  }

  const START := Pipe([Decodable(7)], Reading, [], [Collecting([])], [], [], [], Running(true, true, true),
                      AwaitStreamer, [], [], "", false, [], [], {}, 0, [], [])

  function Held(w: Worker): Pipe {
    START.(rest := [], streamer := Ended, decoded := [7], workers := [w])
  }

  function Lost(main: Main, collector: Collector): Pipe {
    Held(Exited).(failures := 1, failed := [7], main := main, collector := collector)
  }

  const OFFERING := START.(rest := [], streamer := Offering(7), decoded := [7])
  const RECEIVED := Held(Publishing([7], [], [], false)).(streamer := Reading)
  const REJECTED := Held(Publishing([], [], [7], false)).(failures := 1)
  const REPORTING := Held(SendingBad([7], false)).(failures := 1)
  const REPORTED := Held(Collecting([])).(failures := 1, failed := [7])

  lemma StreamerDelivers()
    ensures Leads(START, LOSING_SCHEDULE[0], OFFERING)
    ensures Leads(OFFERING, LOSING_SCHEDULE[1], RECEIVED)
    ensures Leads(RECEIVED, LOSING_SCHEDULE[2], Held(Publishing([7], [], [], false)))
  {
  }

  /** The error finds no room and no waiting collector. */
  lemma ErrorIsDropped()
    ensures Leads(Held(Publishing([7], [], [], false)), LOSING_SCHEDULE[3], REJECTED)
  {
    assert [7][1..] == [] && [] + [7] == [7];
    assert PublishOne(Publishing([7], [], [], false), Rejected("broker down")) == Publishing([], [], [7], false);
  }

  lemma BatchEnds()
    ensures Leads(REJECTED, LOSING_SCHEDULE[4], REPORTING)
  {
  }

  lemma FailureIsReported()
    ensures Leads(REPORTING, LOSING_SCHEDULE[5], REPORTED)
  {
  }

  lemma WorkerLeaves()
    ensures Leads(REPORTED, LOSING_SCHEDULE[6], Lost(AwaitStreamer, Running(true, true, true)))
  {
  }

  lemma PublishLosesError() returns (ss: seq<Pipe>)
    ensures |ss| == 8 && ss[0] == START && ss[7] == Lost(AwaitStreamer, Running(true, true, true))
    ensures forall i :: 0 <= i < 7 ==> Leads(ss[i], LOSING_SCHEDULE[i], ss[i + 1])
  {
    hide Leads;
    ss := [START, OFFERING, RECEIVED, Held(Publishing([7], [], [], false)), REJECTED, REPORTING, REPORTED,
           Lost(AwaitStreamer, Running(true, true, true))];
    StreamerDelivers();
    ErrorIsDropped();
    BatchEnds();
    FailureIsReported();
    WorkerLeaves();
  }

  /** The channels close, the collector sees them closed, the run returns. */
  lemma RestCloses() returns (ss: seq<Pipe>)
    ensures |ss| == 11 && ss[0] == Lost(AwaitStreamer, Running(true, true, true)) && ss[10] == Lost(Returned, Stopped)
    ensures forall i :: 0 <= i < 10 ==> Leads(ss[i], LOSING_SCHEDULE[7 + i], ss[i + 1])
  {
    var all := Running(true, true, true);
    ss := [Lost(AwaitStreamer, all), Lost(AwaitWorkers, all), Lost(CloseOk, all), Lost(CloseBad, all),
           Lost(CloseErr, all), Lost(AwaitCollector, all),
           Lost(AwaitCollector, Running(false, true, true)), Lost(AwaitCollector, Running(false, false, true)),
           Lost(AwaitCollector, Running(false, false, false)), Lost(AwaitCollector, Stopped), Lost(Returned, Stopped)];
  }

  lemma LeadsIsRun(ss: seq<Pipe>, steps: seq<Step>)
    requires |ss| == |steps| + 1
    requires forall i :: 0 <= i < |steps| ==> Leads(ss[i], steps[i], ss[i + 1])
    ensures Run(UNBUFFERED, ss, steps)
  {
    forall i | 0 <= i < |steps|
      ensures Enabled(UNBUFFERED, ss[i], steps[i]) && ss[i + 1] == Next(UNBUFFERED, ss[i], steps[i])
    {
      assert Leads(ss[i], steps[i], ss[i + 1]);
    }
  }

  /** Without room in the error channel an uncancelled run can return with a failed publish and
      no error message, so the buffer of ErrorsAreReported cannot be dropped. */
  lemma UnbufferedRunCanHideErrors()
    returns (c: Cfg, ss: seq<Pipe>)
    ensures c.buffer == 0 && Run(c, ss, LOSING_SCHEDULE) && Init(ss[0], [Decodable(7)], 1)
    ensures var s := ss[|LOSING_SCHEDULE|];
            s.main.Returned? && !s.cancelled && s.failures == 1 && s.errorMsg == "" && s.failed == [7]
  {
    c := UNBUFFERED;
    var first := PublishLosesError();
    var rest := RestCloses();
    ss := first + rest[1..];
    assert seq(1, _ => Collecting([])) == [Collecting([])];
    hide Leads;
    forall i | 0 <= i < |LOSING_SCHEDULE|
      ensures Leads(ss[i], LOSING_SCHEDULE[i], ss[i + 1])
    {
      if i >= 7 {
        assert Leads(rest[i - 7], LOSING_SCHEDULE[7 + (i - 7)], rest[i - 7 + 1]);
      } else {
        assert Leads(first[i], LOSING_SCHEDULE[i], first[i + 1]);
      }
    }
    LeadsIsRun(ss, LOSING_SCHEDULE);
  }
}
