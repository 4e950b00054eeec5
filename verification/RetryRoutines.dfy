/** The loops of the retry service as written: the batching worker, the publishing of one batch
    and the collector.  What a select statement or Kafka answers arrives as a sequence. */
module RetryRoutines {
  import opened RetryPipeline

  // ----- processAndPublishBatch -----

  /** What happens with one document; `done`: a rejected publish finds the context done. */
  datatype Reply = Reply(answer: PublishAnswer, done: bool)

  predicate Aborts(r: Reply) {
    r.answer.Rejected? && r.done
  }

  /** The documents of a batch with the given fate, in order. */
  function Chosen(batch: seq<Doc>, replies: seq<Reply>, accepted: bool): seq<Doc>
    requires |batch| == |replies|
  {
    if batch == [] then []
    else
      var n := |batch| - 1;
      Chosen(batch[..n], replies[..n], accepted)
      + (if replies[n].answer.Accepted? == accepted then [batch[n]] else [])
  }

  /** The pipeline's worker after the same answers. */
  function Published(batch: seq<Doc>, replies: seq<Reply>, last: bool): Worker
    requires |batch| == |replies|
    ensures Published(batch, replies, last).Publishing?
    decreases |replies|
  {
    if batch == [] then Publishing([], [], [], last)
    else
      var n := |batch| - 1;
      var w := Published(batch[..n], replies[..n], last);
      PublishOne(Publishing([batch[n]], w.ok, w.bad, last), replies[n].answer)
  }

  lemma {:induction false} PublishedIsChosen(batch: seq<Doc>, replies: seq<Reply>, last: bool)
    requires |batch| == |replies|
    ensures Published(batch, replies, last)
            == Publishing([], Chosen(batch, replies, true), Chosen(batch, replies, false), last)
  {
    if batch != [] {
      var n := |batch| - 1;
      PublishedIsChosen(batch[..n], replies[..n], last);
      assert Chosen(batch[..n], replies[..n], true) + [] == Chosen(batch[..n], replies[..n], true);
      assert Chosen(batch[..n], replies[..n], false) + [] == Chosen(batch[..n], replies[..n], false);
    }
  }

  lemma OneInEither(ok: seq<Doc>, bad: seq<Doc>, batch: seq<Doc>, d: Doc)
    requires multiset(ok) + multiset(bad) == multiset(batch)
    ensures multiset(ok + [d]) + multiset(bad + []) == multiset(batch + [d])
    ensures multiset(ok + []) + multiset(bad + [d]) == multiset(batch + [d])
  {
    assert ok + [] == ok && bad + [] == bad;
  }

  /** Each document of the batch ends up in exactly one of the two lists. */
  lemma {:induction false} ChosenPartition(batch: seq<Doc>, replies: seq<Reply>)
    requires |batch| == |replies|
    ensures multiset(Chosen(batch, replies, true)) + multiset(Chosen(batch, replies, false)) == multiset(batch)
  {
    if batch != [] {
      var n := |batch| - 1;
      ChosenPartition(batch[..n], replies[..n]);
      assert batch == batch[..n] + [batch[n]];
      OneInEither(Chosen(batch[..n], replies[..n], true), Chosen(batch[..n], replies[..n], false),
                  batch[..n], batch[n]);
    }
  }

  /** The success and failure lists of one batch, or an early return that hands over nothing. */
  method ProcessAndPublishBatch(batch: seq<Doc>, replies: seq<Reply>, ghost last: bool)
    returns (successIds: seq<Doc>, failedIds: seq<Doc>, aborted: bool)
    requires |batch| == |replies|
    ensures aborted <==> exists i :: 0 <= i < |replies| && Aborts(replies[i])
    ensures aborted ==> successIds == [] && failedIds == []
    ensures !aborted ==> Publishing([], successIds, failedIds, last) == Published(batch, replies, last)
    ensures !aborted ==> multiset(successIds) + multiset(failedIds) == multiset(batch)
    ensures !aborted ==> (forall i :: 0 <= i < |batch| && replies[i].answer.Accepted? ==> batch[i] in successIds)
  {
    successIds, failedIds, aborted := [], [], false;
    for i := 0 to |batch|
      invariant forall k :: 0 <= k < i ==> !Aborts(replies[k])
      invariant successIds == Chosen(batch[..i], replies[..i], true)
      invariant failedIds == Chosen(batch[..i], replies[..i], false)
      invariant forall k :: 0 <= k < i && replies[k].answer.Accepted? ==> batch[k] in successIds
    {
      assert batch[..i + 1][..i] == batch[..i] && replies[..i + 1][..i] == replies[..i];
      if replies[i].answer.Accepted? {
        successIds := successIds + [batch[i]];
      } else {
        failedIds := failedIds + [batch[i]];
        if Aborts(replies[i]) {
          return [], [], true;
        }
      }
    }
    assert batch[..|batch|] == batch && replies[..|batch|] == replies;
    PublishedIsChosen(batch, replies, last);
    ChosenPartition(batch, replies);
  }

  // ----- processDocumentsWorker -----

  datatype Event = Got(doc: Doc) | Closed | TickerFired | ContextDone

  function Received(events: seq<Event>): seq<Doc> {
    if events == [] then []
    else Received(events[..|events| - 1])
         + (if events[|events| - 1].Got? then [events[|events| - 1].doc] else [])
  }

  function Flatten(batches: seq<seq<Doc>>): seq<Doc> {
    if batches == [] then [] else Flatten(batches[..|batches| - 1]) + batches[|batches| - 1]
  }

  lemma ReceivedMore(events: seq<Event>, n: nat)
    requires n < |events|
    ensures Received(events[..n + 1]) == Received(events[..n]) + (if events[n].Got? then [events[n].doc] else [])
  {
    assert events[..n + 1][..n] == events[..n];
  }

  /** No batch is empty and none is above the limit. */
  predicate Sized(batches: seq<seq<Doc>>, maxBatch: nat) {
    forall b :: b in batches ==> b != [] && |b| <= if maxBatch == 0 then 1 else maxBatch
  }

  predicate Stops(e: Event) {
    e.Closed? || e.ContextDone?
  }

  /** The same cutting with the pipeline's worker: batches handed over, and the one being filled. */
  function Cut(events: seq<Event>, maxBatch: nat): (seq<seq<Doc>>, seq<Doc>) {
    if events == [] then ([], [])
    else
      var (batches, batch) := Cut(events[..|events| - 1], maxBatch);
      match events[|events| - 1]
      case Got(d) => Handed(batches, Append(batch, d, maxBatch))
      case TickerFired => Handed(batches, Flush(batch, false))
      case _ => Handed(batches, Flush(batch, true))
  }

  /** What a worker has handed over once it moved. */
  function Handed(batches: seq<seq<Doc>>, w: Worker): (seq<seq<Doc>>, seq<Doc>) {
    if w.Publishing? then (batches + [w.todo], [])
    else if w.Collecting? then (batches, w.batch)
    else (batches, [])
  }

  lemma CutMore(events: seq<Event>, n: nat, maxBatch: nat)
    requires n < |events|
    ensures var (batches, batch) := Cut(events[..n], maxBatch);
            Cut(events[..n + 1], maxBatch)
            == match events[n]
               case Got(d) => Handed(batches, Append(batch, d, maxBatch))
               case TickerFired => Handed(batches, Flush(batch, false))
               case _ => Handed(batches, Flush(batch, true))
  {
    assert events[..n + 1][..n] == events[..n];
  }

  /** The batches handed to processAndPublishBatch, empty ones left out: cut from the received
      documents in order, nothing left behind when the worker returns, none above the limit. */
  method ProcessDocumentsWorker(events: seq<Event>, maxBatch: nat) returns (batches: seq<seq<Doc>>, used: nat)
    requires exists i :: 0 <= i < |events| && Stops(events[i])
    ensures used < |events| && Stops(events[used]) && (forall i :: 0 <= i < used ==> !Stops(events[i]))
    ensures Flatten(batches) == Received(events[..used])
    ensures Sized(batches, maxBatch)
    ensures (batches, []) == Cut(events[..used + 1], maxBatch)
  {
    hide Flatten, Received, Sized, Cut;
    batches, used := [], 0;
    var batch: seq<Doc> := [];
    NothingYet(events, maxBatch);
    while !Stops(events[used])
      invariant used < |events|
      invariant exists i :: used <= i < |events| && Stops(events[i])
      invariant forall i :: 0 <= i < used ==> !Stops(events[i])
      invariant Flatten(batches) + batch == Received(events[..used])
      invariant Sized(batches, maxBatch)
      invariant batch == [] || |batch| < maxBatch
      invariant (batches, batch) == Cut(events[..used], maxBatch)
      decreases |events| - used
    {
      ReceivedMore(events, used);
      CutMore(events, used, maxBatch);
      if events[used].Got? {
        batch := batch + [events[used].doc];
        if |batch| >= maxBatch {
          CutBatch(batches, batch, maxBatch);
          batches, batch := batches + [batch], [];
        }
      } else if batch != [] {
        CutBatch(batches, batch, maxBatch);
        batches, batch := batches + [batch], [];
      }
      used := used + 1;
    }
    CutMore(events, used, maxBatch);
    if batch != [] {
      CutBatch(batches, batch, maxBatch);
      batches := batches + [batch];
    }
  }

  lemma NothingYet(events: seq<Event>, maxBatch: nat)
    ensures Flatten([]) == [] && Received(events[..0]) == [] && Sized([], maxBatch)
    ensures Cut(events[..0], maxBatch) == ([], [])
  {
  }

  lemma CutBatch(batches: seq<seq<Doc>>, batch: seq<Doc>, maxBatch: nat)
    requires Sized(batches, maxBatch) && batch != [] && |batch| <= (if maxBatch == 0 then 1 else maxBatch)
    ensures Flatten(batches + [batch]) == Flatten(batches) + batch && Sized(batches + [batch], maxBatch)
  {
  }

  // ----- collectResults -----

  datatype Message = OkIds(ids: seq<Doc>) | BadIds(ids: seq<Doc>) | Error(text: string)
                   | OkEnd | BadEnd | ErrEnd | Cancelled

  /** KafkaRetryResponse. */
  class Response {
    var successIds: seq<Doc>
    var failedIds: seq<Doc>
    var errorMsg: string

    constructor ()
      ensures successIds == [] && failedIds == [] && errorMsg == ""
    {
      successIds, failedIds, errorMsg := [], [], "";
    }
  }

  function AllOk(ms: seq<Message>): seq<Doc> {
    if ms == [] then []
    else AllOk(ms[..|ms| - 1]) + (if ms[|ms| - 1].OkIds? then ms[|ms| - 1].ids else [])
  }

  function AllBad(ms: seq<Message>): seq<Doc> {
    if ms == [] then []
    else AllBad(ms[..|ms| - 1]) + (if ms[|ms| - 1].BadIds? then ms[|ms| - 1].ids else [])
  }

  /** The first error text, "" if there is none. */
  function FirstText(ms: seq<Message>): string {
    if ms == [] then ""
    else
      var before := FirstText(ms[..|ms| - 1]);
      var m := ms[|ms| - 1];
      if before == "" && m.Error? then m.text else before
  }

  lemma {:induction false} FirstTextIsFirst(ms: seq<Message>, k: nat)
    requires k < |ms| && ms[k].Error? && ms[k].text != ""
    requires forall i :: 0 <= i < k ==> !(ms[i].Error? && ms[i].text != "")
    ensures FirstText(ms) == ms[k].text
  {
    var n := |ms| - 1;
    if k < n {
      FirstTextIsFirst(ms[..n], k);
    } else {
      NoText(ms[..n]);
    }
  }

  lemma {:induction false} NoText(ms: seq<Message>)
    requires forall i :: 0 <= i < |ms| ==> !(ms[i].Error? && ms[i].text != "")
    ensures FirstText(ms) == ""
  {
    if ms != [] { NoText(ms[..|ms| - 1]); }
  }

  /** What a select over the open channels can deliver: nothing after a channel's end. */
  predicate FromOpenChannels(ms: seq<Message>) {
    forall i, j :: 0 <= i < j < |ms| ==>
      && (ms[i].OkEnd? ==> !ms[j].OkEnd? && !ms[j].OkIds?)
      && (ms[i].BadEnd? ==> !ms[j].BadEnd? && !ms[j].BadIds?)
      && (ms[i].ErrEnd? ==> !ms[j].ErrEnd? && !ms[j].Error?)
  }

  predicate Ends(ms: seq<Message>) {
    Cancelled in ms || (OkEnd in ms && BadEnd in ms && ErrEnd in ms)
  }

  /** Appends every id list in arrival order, keeps the first error text, and returns when all
      three channels have ended or the context is done. */
  method CollectResults(response: Response, ms: seq<Message>) returns (used: nat)
    requires response.successIds == [] && response.failedIds == [] && response.errorMsg == ""
    requires FromOpenChannels(ms) && Ends(ms)
    modifies response
    ensures used <= |ms|
    ensures response.successIds == AllOk(ms[..used]) && response.failedIds == AllBad(ms[..used])
    ensures response.errorMsg == FirstText(ms[..used])
    ensures (used > 0 && ms[used - 1].Cancelled?)
            || (OkEnd in ms[..used] && BadEnd in ms[..used] && ErrEnd in ms[..used] && Cancelled !in ms[..used])
  {
    hide AllOk, AllBad, FirstText, FromOpenChannels, Ends;
    used := 0;
    NothingTaken(ms);
    var okOpen, badOpen, errOpen, closedCount := true, true, true, 0;
    while closedCount < 3
      invariant used <= |ms|
      invariant Cancelled !in ms[..used]
      invariant okOpen == (OkEnd !in ms[..used]) && badOpen == (BadEnd !in ms[..used])
      invariant errOpen == (ErrEnd !in ms[..used])
      invariant closedCount == (if okOpen then 0 else 1) + (if badOpen then 0 else 1) + (if errOpen then 0 else 1)
      invariant response.successIds == AllOk(ms[..used]) && response.failedIds == AllBad(ms[..used])
      invariant response.errorMsg == FirstText(ms[..used])
      decreases |ms| - used
    {
      NotAtEnd(ms, used);
      var m := ms[used];
      OneMore(ms, used);
      used := used + 1;
      match m
      case OkIds(ids) => response.successIds := response.successIds + ids;
      case BadIds(ids) => response.failedIds := response.failedIds + ids;
      case Error(text) =>
        if response.errorMsg == "" {
          response.errorMsg := text;
        }
      case OkEnd => okOpen, closedCount := false, closedCount + 1;
      case BadEnd => badOpen, closedCount := false, closedCount + 1;
      case ErrEnd => errOpen, closedCount := false, closedCount + 1;
      case Cancelled => return;
    }
  }

  lemma NothingTaken(ms: seq<Message>)
    ensures AllOk(ms[..0]) == [] && AllBad(ms[..0]) == [] && FirstText(ms[..0]) == ""
  {
  }

  lemma NotAtEnd(ms: seq<Message>, n: nat)
    requires Ends(ms) && n <= |ms| && Cancelled !in ms[..n]
    requires OkEnd !in ms[..n] || BadEnd !in ms[..n] || ErrEnd !in ms[..n]
    ensures n < |ms|
  {
  }

  /** One more message taken from the channels that are still open. */
  lemma OneMore(ms: seq<Message>, n: nat)
    requires FromOpenChannels(ms) && n < |ms|
    ensures var m := ms[n]; var a := ms[..n]; var b := ms[..n + 1];
            && (forall x :: x in b <==> x in a || x == m)
            && (m.OkEnd? ==> OkEnd !in a) && (m.BadEnd? ==> BadEnd !in a) && (m.ErrEnd? ==> ErrEnd !in a)
            && AllOk(b) == AllOk(a) + (if m.OkIds? then m.ids else [])
            && AllBad(b) == AllBad(a) + (if m.BadIds? then m.ids else [])
            && FirstText(b) == (if FirstText(a) == "" && m.Error? then m.text else FirstText(a))
  {
    assert ms[..n + 1] == ms[..n] + [ms[n]] && ms[..n + 1][..n] == ms[..n];
  }
}
