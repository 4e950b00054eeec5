/** The Kafka retry run as interleaved steps: one cursor streamer, any number of batching
    workers, three bounded result channels, one collector and the main routine that closes the
    channels.  A channel of capacity 0 hands over only to a receiver that is ready. */
module RetryPipeline {
  import opened Numbers

  type Doc = nat   // the _id of a Collections document

  /** Error texts are non-empty, as those of the Kafka client and the wrapped ones are. */
  type Text = s: string | s != "" witness "error"

  datatype Cfg = Cfg(buffer: nat, maxBatch: nat)

  datatype Item = Decodable(doc: Doc) | Undecodable

  datatype Streamer =
    | Reading
    | Offering(doc: Doc)      // decoded, blocked on docChan
    | Ended                   // returned, docChan closed

  datatype Worker =
    | Collecting(batch: seq<Doc>)
    | Publishing(todo: seq<Doc>, ok: seq<Doc>, bad: seq<Doc>, last: bool)
    | SendingOk(ok: seq<Doc>, bad: seq<Doc>, last: bool)
    | Flagging(ok: seq<Doc>, bad: seq<Doc>, last: bool)
    | SendingErr(text: Text, bad: seq<Doc>, last: bool)
    | SendingBad(bad: seq<Doc>, last: bool)
    | Exited

  datatype Collector = Running(okOpen: bool, badOpen: bool, errOpen: bool) | Stopped

  /** Where RetryKafkaCollectionMessages stands. */
  datatype Main = AwaitStreamer | AwaitWorkers | CloseOk | CloseBad | CloseErr | AwaitCollector | Returned

  datatype Pipe = Pipe(
    rest: seq<Item>, streamer: Streamer, docs: seq<Doc>,
    workers: seq<Worker>,
    oks: seq<seq<Doc>>, bads: seq<seq<Doc>>, errs: seq<Text>,
    collector: Collector, main: Main,
    success: seq<Doc>, failed: seq<Doc>, errorMsg: string,
    cancelled: bool,
    // what the outside world and an observer have seen
    decoded: seq<Doc>,          // documents the streamer decoded
    accepted: seq<Doc>,         // documents Kafka accepted
    flagged: set<Doc>,          // publishedToKafka set by this run
    failures: nat,              // failed publishes, flag updates and cursor reads
    lost: seq<Doc>,             // not accepted by Kafka and given up because of cancellation
    lostOk: seq<Doc>)           // accepted by Kafka but given up before they were reported

  function OkClosed(m: Main): bool { m.CloseBad? || BadClosed(m) }
  function BadClosed(m: Main): bool { m.CloseErr? || ErrClosed(m) }
  function ErrClosed(m: Main): bool { m.AwaitCollector? || m.Returned? }

  datatype PublishAnswer = Unprepared | Accepted | Rejected(text: Text)

  datatype StreamAct =
    | Decode
    | SkipUndecodable
    | Offer(to: Option<nat>)            // send to docChan; Some(i): handed straight to worker i
    | AbandonOffer
    | EndStream(error: Option<Text>, heard: bool)   // `heard`: a ready channel wins over cancellation

  datatype WorkAct =
    | Receive
    | SeeClosed
    | Tick
    | SeeCancel
    | Publish(answer: PublishAnswer, collectorReady: bool)
    | AbortPublish                      // publish error while cancelled: processAndPublishBatch returns
    | EndBatch
    | SendOk
    | Flag(updated: set<Doc>, error: Option<Text>)
    | SendErr
    | SendBad
    | AbandonSend

  datatype EndAct =
    | Cancel
    | CollectOk
    | CollectBad
    | CollectErr
    | StopCollector
    | Advance                           // main routine

  datatype Step = Stream(act: StreamAct) | Work(i: nat, job: WorkAct) | Finish(move: EndAct)

  // ----- local transitions of a worker -----

  function Flush(batch: seq<Doc>, last: bool): Worker {
    if batch != [] then Publishing(batch, [], [], last) else AfterBatch(last)
  }

  function AfterBatch(last: bool): Worker {
    if last then Exited else Collecting([])
  }

  function Append(batch: seq<Doc>, doc: Doc, maxBatch: nat): Worker {
    var b := batch + [doc];
    if |b| >= maxBatch then Flush(b, false) else Collecting(b)
  }

  function PublishOne(w: Worker, answer: PublishAnswer): Worker
    requires w.Publishing? && w.todo != []
  {
    if answer.Accepted? then Publishing(w.todo[1..], w.ok + [w.todo[0]], w.bad, w.last)
    else Publishing(w.todo[1..], w.ok, w.bad + [w.todo[0]], w.last)
  }

  function AfterOk(bad: seq<Doc>, last: bool): Worker {
    if bad != [] then SendingBad(bad, last) else AfterBatch(last)
  }

  function AfterPublishing(w: Worker): Worker
    requires w.Publishing?
  {
    if w.ok != [] then SendingOk(w.ok, w.bad, w.last) else AfterOk(w.bad, w.last)
  }

  // ----- channels -----

  /** The collector takes one message. */
  function TakeOk(s: Pipe): Pipe
    requires s.oks != []
  {
    s.(oks := s.oks[1..], success := s.success + s.oks[0])
  }

  function TakeBad(s: Pipe): Pipe
    requires s.bads != []
  {
    s.(bads := s.bads[1..], failed := s.failed + s.bads[0])
  }

  function TakeErr(s: Pipe): Pipe
    requires s.errs != []
  {
    s.(errs := s.errs[1..], errorMsg := if s.errorMsg == "" then s.errs[0] else s.errorMsg)
  }

  /** A send that finds the buffer full is possible only by handing over to a ready receiver,
      which then takes the message in the same step. */
  predicate CanSendOk(c: Cfg, s: Pipe) {
    |s.oks| < c.buffer || (s.oks == [] && s.collector.Running? && s.collector.okOpen)
  }

  predicate CanSendBad(c: Cfg, s: Pipe) {
    |s.bads| < c.buffer || (s.bads == [] && s.collector.Running? && s.collector.badOpen)
  }

  predicate CanSendErr(c: Cfg, s: Pipe) {
    |s.errs| < c.buffer || (s.errs == [] && s.collector.Running? && s.collector.errOpen)
  }

  function PutOk(c: Cfg, s: Pipe, ids: seq<Doc>): Pipe {
    var s1 := s.(oks := s.oks + [ids]);
    if |s.oks| < c.buffer then s1 else TakeOk(s1)
  }

  function PutBad(c: Cfg, s: Pipe, ids: seq<Doc>): Pipe {
    var s1 := s.(bads := s.bads + [ids]);
    if |s.bads| < c.buffer then s1 else TakeBad(s1)
  }

  function PutErr(c: Cfg, s: Pipe, text: Text): Pipe {
    var s1 := s.(errs := s.errs + [text]);
    if |s.errs| < c.buffer then s1 else TakeErr(s1)
  }

  /** select with default: dropped unless there is room, or a receiver that happens to wait. */
  function TryErr(c: Cfg, s: Pipe, text: Text, collectorReady: bool): Pipe {
    if |s.errs| < c.buffer || (collectorReady && CanSendErr(c, s)) then PutErr(c, s, text) else s
  }

  // ----- steps -----

  predicate IsWorker(s: Pipe, i: nat) { i < |s.workers| }

  predicate StreamEnabled(c: Cfg, s: Pipe, act: StreamAct) {
    match act
    case Decode => s.streamer.Reading? && s.rest != [] && s.rest[0].Decodable?
    case SkipUndecodable => s.streamer.Reading? && s.rest != [] && s.rest[0].Undecodable?
    case Offer(to) =>
      s.streamer.Offering? &&
      (match to
       case None => |s.docs| < c.buffer
       case Some(i) => s.docs == [] && IsWorker(s, i) && s.workers[i].Collecting?)
    case AbandonOffer => s.streamer.Offering? && s.cancelled
    case EndStream(error, _) => s.streamer.Reading? && (s.rest == [] || error.Some?)
  }

  predicate WorkEnabled(c: Cfg, s: Pipe, w: Worker, job: WorkAct) {
    match job
    case Receive => w.Collecting? && s.docs != []
    case SeeClosed => w.Collecting? && s.docs == [] && s.streamer.Ended?
    case Tick => w.Collecting? && w.batch != []
    case SeeCancel => w.Collecting? && s.cancelled
    case Publish(_, _) => w.Publishing? && w.todo != []
    case AbortPublish => w.Publishing? && w.todo != [] && s.cancelled
    case EndBatch => w.Publishing? && w.todo == []
    case SendOk => w.SendingOk? && CanSendOk(c, s)
    case Flag(updated, _) => w.Flagging? && (forall d :: d in updated ==> d in w.ok)
    case SendErr => w.SendingErr? && CanSendErr(c, s)
    case SendBad => w.SendingBad? && CanSendBad(c, s)
    case AbandonSend => s.cancelled && (w.SendingOk? || w.SendingErr? || w.SendingBad?)
  }

  predicate EndEnabled(s: Pipe, move: EndAct) {
    match move
    case Cancel => !s.cancelled
    case CollectOk => s.collector.Running? && s.collector.okOpen && (s.oks != [] || OkClosed(s.main))
    case CollectBad => s.collector.Running? && s.collector.badOpen && (s.bads != [] || BadClosed(s.main))
    case CollectErr => s.collector.Running? && s.collector.errOpen && (s.errs != [] || ErrClosed(s.main))
    case StopCollector =>
      s.collector.Running? && (s.cancelled || (!s.collector.okOpen && !s.collector.badOpen && !s.collector.errOpen))
    case Advance =>
      (match s.main
       case AwaitStreamer => s.streamer.Ended?
       case AwaitWorkers => forall i :: 0 <= i < |s.workers| ==> s.workers[i].Exited?
       case AwaitCollector => s.collector.Stopped?
       case Returned => false
       case _ => true)
  }

  predicate Enabled(c: Cfg, s: Pipe, step: Step) {
    match step
    case Stream(act) => StreamEnabled(c, s, act)
    case Work(i, job) => IsWorker(s, i) && WorkEnabled(c, s, s.workers[i], job)
    case Finish(move) => EndEnabled(s, move)
  }

  function Put(s: Pipe, i: nat, w: Worker): Pipe
    requires IsWorker(s, i)
  {
    s.(workers := s.workers[i := w])
  }

  function NextMain(m: Main): Main {
    match m
    case AwaitStreamer => AwaitWorkers
    case AwaitWorkers => CloseOk
    case CloseOk => CloseBad
    case CloseBad => CloseErr
    case CloseErr => AwaitCollector
    case AwaitCollector => Returned
    case Returned => Returned
  }

  /** Documents in a worker's hands that Kafka accepted and that are not reported yet. */
  function HeldOk(w: Worker): seq<Doc> {
    if w.Publishing? || w.SendingOk? then w.ok else []
  }

  /** The other documents a worker still has to account for. */
  function HeldRest(w: Worker): seq<Doc> {
    match w
    case Collecting(batch) => batch
    case Publishing(todo, _, bad, _) => todo + bad
    case Exited => []
    case _ => w.bad
  }

  /** The worker gives its batch up. */
  function Abandon(s: Pipe, i: nat): Pipe
    requires IsWorker(s, i) && !s.workers[i].Collecting? && !s.workers[i].Exited?
  {
    var w := s.workers[i];
    Put(s.(lost := s.lost + HeldRest(w), lostOk := s.lostOk + HeldOk(w)), i, AfterBatch(w.last))
  }

  function NextStream(c: Cfg, s: Pipe, act: StreamAct): Pipe
    requires StreamEnabled(c, s, act)
  {
    match act
    case Decode =>
      var d := s.rest[0].doc;
      s.(rest := s.rest[1..], streamer := Offering(d), decoded := s.decoded + [d])
    case SkipUndecodable => s.(rest := s.rest[1..])
    case Offer(to) =>
      var d := s.streamer.doc;
      (match to
       case None => s.(streamer := Reading, docs := s.docs + [d])
       case Some(i) => Put(s.(streamer := Reading), i, Append(s.workers[i].batch, d, c.maxBatch)))
    case AbandonOffer => s.(streamer := Ended, lost := s.lost + [s.streamer.doc])
    case EndStream(error, heard) =>
      var s1 := s.(streamer := Ended, rest := []);
      (match error
       case None => s1
       case Some(text) =>
         var s2 := s1.(failures := s.failures + 1);
         if s.cancelled && !heard then s2 else TryErr(c, s2, text, heard))
  }

  function NextWork(c: Cfg, s: Pipe, i: nat, job: WorkAct): Pipe
    requires IsWorker(s, i) && WorkEnabled(c, s, s.workers[i], job)
  {
    var w := s.workers[i];
    match job
    case Receive => Put(s.(docs := s.docs[1..]), i, Append(w.batch, s.docs[0], c.maxBatch))
    case SeeClosed => Put(s, i, Flush(w.batch, true))
    case Tick => Put(s, i, Flush(w.batch, false))
    case SeeCancel => Put(s, i, Flush(w.batch, true))
    case Publish(answer, collectorReady) =>
      var s1 := Put(s, i, PublishOne(w, answer));
      (match answer
       case Unprepared => s1
       case Accepted => s1.(accepted := s.accepted + [w.todo[0]])
       case Rejected(text) => TryErr(c, s1.(failures := s.failures + 1), text, collectorReady))
    case AbortPublish => Abandon(s.(failures := s.failures + 1), i)
    case EndBatch => Put(s, i, AfterPublishing(w))
    case SendOk => PutOk(c, Put(s, i, Flagging(w.ok, w.bad, w.last)), w.ok)
    case Flag(updated, error) =>
      var s1 := s.(flagged := s.flagged + updated);
      (match error
       case None => Put(s1, i, AfterOk(w.bad, w.last))
       case Some(text) => Put(s1.(failures := s.failures + 1), i, SendingErr(text, w.bad, w.last)))
    case SendErr => PutErr(c, Put(s, i, AfterOk(w.bad, w.last)), w.text)
    case SendBad => PutBad(c, Put(s, i, AfterBatch(w.last)), w.bad)
    case AbandonSend => Abandon(s, i)
  }

  function NextEnd(s: Pipe, move: EndAct): Pipe
    requires EndEnabled(s, move)
  {
    match move
    case Cancel => s.(cancelled := true)
    case CollectOk => if s.oks != [] then TakeOk(s) else s.(collector := s.collector.(okOpen := false))
    case CollectBad => if s.bads != [] then TakeBad(s) else s.(collector := s.collector.(badOpen := false))
    case CollectErr => if s.errs != [] then TakeErr(s) else s.(collector := s.collector.(errOpen := false))
    case StopCollector => s.(collector := Stopped)
    case Advance => s.(main := NextMain(s.main))
  }

  function Next(c: Cfg, s: Pipe, step: Step): Pipe
    requires Enabled(c, s, step)
  {
    match step
    case Stream(act) => NextStream(c, s, act)
    case Work(i, job) => NextWork(c, s, i, job)
    case Finish(move) => NextEnd(s, move)
  }

  ghost predicate Init(s: Pipe, items: seq<Item>, workers: nat) {
    && workers > 0
    && s == Pipe(items, Reading, [], seq(workers, _ => Collecting([])), [], [], [],
                 Running(true, true, true), AwaitStreamer, [], [], "", false,
                 [], [], {}, 0, [], [])
  }

  ghost predicate Run(c: Cfg, ss: seq<Pipe>, steps: seq<Step>) {
    && |ss| == |steps| + 1
    && forall i :: 0 <= i < |steps| ==> Enabled(c, ss[i], steps[i]) && ss[i + 1] == Next(c, ss[i], steps[i])
  }
}
