/** loan-availment's availment report: the window is read in chunks, and any failed query starts
    the whole window again with a larger chunk. */
module Report {
  import opened Numbers

  type Time = int   // milliseconds

  const HOUR: Time := 3600000
  const MAX_RETRIES := 5

  datatype Doc = Doc(id: nat, createdAt: Time)

  /** The $match stage, in the order of the collection. */
  function Query(docs: seq<Doc>, from: Time, to: Time): seq<Doc> {
    if docs == [] then [] else Pick(docs[0], from, to) + Query(docs[1..], from, to)
  }

  function Pick(d: Doc, from: Time, to: Time): seq<Doc> {
    if from <= d.createdAt < to then [d] else []
  }

  ghost predicate Sorted(docs: seq<Doc>) {
    forall i, j :: 0 <= i < j < |docs| ==> docs[i].createdAt <= docs[j].createdAt
  }

  /** Neighbouring windows neither miss nor repeat a document. */
  lemma {:induction false} AdjacentWindows(docs: seq<Doc>, a: Time, b: Time, c: Time)
    requires a <= b <= c
    ensures multiset(Query(docs, a, b) + Query(docs, b, c)) == multiset(Query(docs, a, c))
  {
    if docs != [] {
      AdjacentWindows(docs[1..], a, b, c);
      var rest1, rest2 := Query(docs[1..], a, b), Query(docs[1..], b, c);
      assert multiset(rest1 + rest2) == multiset(rest1) + multiset(rest2);
      assert multiset(Query(docs, a, b) + Query(docs, b, c))
          == multiset(Query(docs, a, b)) + multiset(Query(docs, b, c));
    }
  }

  lemma {:induction false} NothingBefore(docs: seq<Doc>, a: Time, b: Time)
    requires forall i :: 0 <= i < |docs| ==> b <= docs[i].createdAt
    ensures Query(docs, a, b) == []
  {
    if docs != [] { NothingBefore(docs[1..], a, b); }
  }

  /** On a collection read in the order of createdAt even the order is that of one query. */
  lemma {:induction false} AdjacentSorted(docs: seq<Doc>, a: Time, b: Time, c: Time)
    requires a <= b <= c && Sorted(docs)
    ensures Query(docs, a, b) + Query(docs, b, c) == Query(docs, a, c)
  {
    if docs != [] {
      hide Sorted, Query, Pick;
      SortedTail(docs, b);
      AdjacentSorted(docs[1..], a, b, c);
      if b <= docs[0].createdAt { NothingBefore(docs[1..], a, b); }
      FirstPick(docs, a, b, c);
      JoinPicks(Pick(docs[0], a, b), Query(docs[1..], a, b), Pick(docs[0], b, c), Query(docs[1..], b, c));
    }
  }

  lemma FirstPickOf(docs: seq<Doc>, from: Time, to: Time)
    requires docs != []
    ensures Query(docs, from, to) == Pick(docs[0], from, to) + Query(docs[1..], from, to)
  {
  }

  lemma FirstPick(docs: seq<Doc>, a: Time, b: Time, c: Time)
    requires docs != [] && a <= b <= c
    ensures Query(docs, a, b) == Pick(docs[0], a, b) + Query(docs[1..], a, b)
    ensures Query(docs, b, c) == Pick(docs[0], b, c) + Query(docs[1..], b, c)
    ensures Query(docs, a, c) == Pick(docs[0], a, b) + Pick(docs[0], b, c) + Query(docs[1..], a, c)
    ensures docs[0].createdAt < b ==> Pick(docs[0], b, c) == []
  {
    hide Query;
    FirstPickOf(docs, a, b);
    FirstPickOf(docs, b, c);
    FirstPickOf(docs, a, c);
  }

  /** Two sequences of picks side by side; in order if nothing is out of place between them. */
  lemma JoinPicks(first: seq<Doc>, rest: seq<Doc>, second: seq<Doc>, more: seq<Doc>)
    requires second == [] || rest == []
    ensures (first + rest) + (second + more) == (first + second) + (rest + more)
  {
  }

  lemma SortedTail(docs: seq<Doc>, b: Time)
    requires Sorted(docs) && docs != []
    ensures Sorted(docs[1..])
    ensures b <= docs[0].createdAt ==> forall i :: 0 <= i < |docs[1..]| ==> b <= docs[1..][i].createdAt
  {
  }

  /** A query finds each document of its half-open window as often as the collection holds it, and
      no other, in the order of the collection. */
  lemma {:induction false} QueryFindsWindow(docs: seq<Doc>, from: Time, to: Time, d: Doc)
    ensures multiset(Query(docs, from, to))[d] == if from <= d.createdAt < to then multiset(docs)[d] else 0
  {
    if docs != [] {
      QueryFindsWindow(docs[1..], from, to, d);
      assert docs == [docs[0]] + docs[1..];
    }
  }

  /** It keeps the order of the collection. */
  lemma {:induction false} QueryKeepsOrder(docs: seq<Doc>, from: Time, to: Time)
    requires Sorted(docs)
    ensures Sorted(Query(docs, from, to))
  {
    if docs != [] {
      var rest := Query(docs[1..], from, to);
      QueryKeepsOrder(docs[1..], from, to);
      QueryWithin(docs[1..], from, to);
      assert forall x :: x in rest ==> docs[0].createdAt <= x.createdAt;
      assert forall i :: 0 <= i < |rest| ==> rest[i] in rest;
    }
  }

  lemma {:induction false} QueryWithin(docs: seq<Doc>, from: Time, to: Time)
    ensures forall x :: x in Query(docs, from, to) ==> x in docs
  {
    if docs != [] { QueryWithin(docs[1..], from, to); }
  }

  // ----- the loop, attempt by attempt -----

  /** `size`: hours of a chunk in the first attempt, 24 / REPORT_CHUNKS. */
  datatype Plan = Plan(start: Time, end: Time, size: int)

  /** Queries an attempt needs to get past `gap`. */
  function Chunks(gap: Time, step: Time): nat
    requires step >= 1
    decreases if gap > 0 then gap else 0
  {
    if gap <= 0 then 0 else 1 + Chunks(gap - step, step)
  }

  /** The first failing one of n queries. */
  function FirstFail(fails: nat -> bool, call: nat, n: nat): (j: Option<nat>)
    ensures j.Some? ==> j.value < n && fails(call + j.value)
    decreases n
  {
    if n == 0 then None
    else if fails(call) then Some(0)
    else match FirstFail(fails, call + 1, n - 1)
      case None => None
      case Some(j) => Some(j + 1)
  }

  datatype Verdict = Complete | GivenUp | Unfinished

  /** Length of a chunk in attempt k. */
  function Step(p: Plan, k: nat): (step: Time)
    ensures p.size + k >= 1 <==> step >= 1
  {
    (p.size + k) * HOUR
  }

  /** Attempt k needs this many queries; a chunk of no positive size never gets anywhere. */
  function Needed(p: Plan, k: nat): Option<nat> {
    if p.start >= p.end then Some(0)
    else if p.size + k >= 1 then Some(Chunks(p.end - p.start, Step(p, k)))
    else None
  }

  /** Queries of attempt k at most, from query number `call` on. */
  function Window(p: Plan, limit: nat, k: nat, call: nat): (n: nat)
    requires call <= limit
    ensures n <= limit - call
  {
    var need := Needed(p, k);
    if need.Some? && need.value < limit - call then need.value else limit - call
  }

  /** Where the loop stands after at most `limit` queries, seen from attempt k, which starts with
      query number `call`. */
  function Judge(p: Plan, fails: nat -> bool, limit: nat, k: nat, call: nat): Verdict
    requires call <= limit && k <= MAX_RETRIES
    decreases MAX_RETRIES - k
  {
    match FirstFail(fails, call, Window(p, limit, k, call))
    case Some(j) => if k == MAX_RETRIES then GivenUp else Judge(p, fails, limit, k + 1, call + j + 1)
    case None => if Needed(p, k).Some? && Needed(p, k).value <= limit - call then Complete else Unfinished
  }

  lemma {:induction false} NoFail(fails: nat -> bool, call: nat, n: nat)
    requires FirstFail(fails, call, n).None? && !fails(call + n)
    ensures FirstFail(fails, call, n + 1).None?
    decreases n
  {
    if n > 0 { NoFail(fails, call + 1, n - 1); }
  }

  lemma {:induction false} FailAt(fails: nat -> bool, call: nat, j: nat, n: nat)
    requires FirstFail(fails, call, j).None? && fails(call + j) && j < n
    ensures FirstFail(fails, call, n) == Some(j)
    decreases j
  {
    if j > 0 { FailAt(fails, call + 1, j - 1, n - 1); }
  }

  datatype Outcome = Rows(rows: seq<Doc>) | MaxRetriesReached | DivisionByZero | StillRunning

  /** The rows are those of one query over [start, end). */
  ghost predicate IsWholeWindow(docs: seq<Doc>, rows: seq<Doc>, start: Time, end: Time) {
    && multiset(rows) == multiset(Query(docs, start, end))
    && (Sorted(docs) ==> rows == Query(docs, start, end))
  }

  lemma WindowGrows(docs: seq<Doc>, rows: seq<Doc>, start: Time, at: Time, to: Time)
    requires start <= at <= to && IsWholeWindow(docs, rows, start, at)
    ensures IsWholeWindow(docs, rows + Query(docs, at, to), start, to)
  {
    AdjacentWindows(docs, start, at, to);
    assert multiset(rows + Query(docs, at, to)) == multiset(rows) + multiset(Query(docs, at, to));
    assert multiset(Query(docs, start, at) + Query(docs, at, to))
        == multiset(Query(docs, start, at)) + multiset(Query(docs, at, to));
    if Sorted(docs) { AdjacentSorted(docs, start, at, to); }
  }

  lemma EmptyWindow(docs: seq<Doc>, start: Time, end: Time)
    requires end <= start
    ensures Query(docs, start, end) == []
  {
  }

  /** The answer to query number `call`: an error, or the documents of the chunk. */
  function AggregateAll(docs: seq<Doc>, from: Time, to: Time, failing: bool): Option<seq<Doc>> {
    if failing then None else Some(Query(docs, from, to))
  }

  /** What is still to be read in an attempt after `done` queries. */
  ghost predicate Progress(docs: seq<Doc>, p: Plan, k: nat, at: Time, done: nat, rows: seq<Doc>) {
    if p.start >= p.end then at == p.start && done == 0 && rows == []
    else if p.size + k >= 1 then
      && p.start <= at <= p.end
      && Chunks(p.end - at, Step(p, k)) + done == Chunks(p.end - p.start, Step(p, k))
      && IsWholeWindow(docs, rows, p.start, at)
    else at <= p.start
  }

  function ChunkEnd(p: Plan, k: nat, at: Time): Time {
    if at + Step(p, k) > p.end then p.end else at + Step(p, k)
  }

  lemma ChunkProgress(docs: seq<Doc>, p: Plan, k: nat, at: Time, done: nat, rows: seq<Doc>)
    requires Progress(docs, p, k, at, done, rows) && at < p.end
    ensures Progress(docs, p, k, ChunkEnd(p, k, at), done + 1, rows + Query(docs, at, ChunkEnd(p, k, at)))
  {
    hide Step, Chunks, Query, IsWholeWindow;
    if p.size + k >= 1 && p.start < p.end {
      NextChunk(p.end - at, Step(p, k));
      WindowGrows(docs, rows, p.start, at, ChunkEnd(p, k, at));
    }
  }

  /** The last chunk is cut at the end of the window. */
  lemma NextChunk(gap: Time, step: Time)
    requires gap > 0 && step >= 1
    ensures 1 + Chunks(if step > gap then 0 else gap - step, step) == Chunks(gap, step)
  {
  }

  lemma AttemptStarts(docs: seq<Doc>, p: Plan, k: nat)
    ensures Progress(docs, p, k, p.start, 0, [])
  {
    EmptyWindow(docs, p.start, p.start);
  }

  /** A query fails: the next attempt decides, or there is none. */
  lemma AttemptFails(docs: seq<Doc>, p: Plan, fails: nat -> bool, limit: nat, k: nat, call: nat,
                     done: nat, at: Time, rows: seq<Doc>)
    requires k <= MAX_RETRIES && call + done < limit && at < p.end
    requires Progress(docs, p, k, at, done, rows) && FirstFail(fails, call, done).None? && fails(call + done)
    ensures Judge(p, fails, limit, k, call)
            == if k == MAX_RETRIES then GivenUp else Judge(p, fails, limit, k + 1, call + done + 1)
  {
    hide FirstFail, IsWholeWindow, Progress, Needed;
    StillToRead(docs, p, limit, k, call, done, at, rows);
    FailAt(fails, call, done, Window(p, limit, k, call));
  }

  lemma StillToRead(docs: seq<Doc>, p: Plan, limit: nat, k: nat, call: nat,
                     done: nat, at: Time, rows: seq<Doc>)
    requires call + done <= limit && Progress(docs, p, k, at, done, rows)
    ensures at < p.end ==> Needed(p, k).None? || done < Needed(p, k).value
    ensures at >= p.end ==> Needed(p, k) == Some(done)
    ensures at >= p.end ==> IsWholeWindow(docs, rows, p.start, p.end)
  {
    hide Step;
    if p.start >= p.end { EmptyWindow(docs, p.start, p.end); }
  }

  /** No query failed: the attempt is complete, or its queries have used up the limit. */
  lemma AttemptHolds(docs: seq<Doc>, p: Plan, fails: nat -> bool, limit: nat, k: nat, call: nat,
                     done: nat, at: Time, rows: seq<Doc>)
    requires k <= MAX_RETRIES && call + done <= limit
    requires Progress(docs, p, k, at, done, rows) && FirstFail(fails, call, done).None?
    ensures at >= p.end ==> Judge(p, fails, limit, k, call) == Complete && IsWholeWindow(docs, rows, p.start, p.end)
    ensures at < p.end && call + done == limit ==> Judge(p, fails, limit, k, call) == Unfinished
  {
    hide FirstFail, IsWholeWindow, Progress, Needed;
    StillToRead(docs, p, limit, k, call, done, at, rows);
  }

  datatype Attempt = Done(rows: seq<Doc>) | Failed | OutOfLimit

  /** The inner loop: the chunks of attempt k, from query number `call` on. */
  method ReadChunks(docs: seq<Doc>, startTime: Time, endTime: Time, chunkSize: int, fails: nat -> bool, limit: nat,
                    call: nat, ghost p: Plan, ghost k: nat)
    returns (r: Attempt, calls: nat)
    requires p.start == startTime && p.end == endTime && chunkSize == p.size + k
    requires k <= MAX_RETRIES && call <= limit
    ensures call <= calls <= limit
    ensures var verdict := Judge(p, fails, limit, k, call);
            match r
            case Done(rows) => verdict == Complete && IsWholeWindow(docs, rows, startTime, endTime)
            case Failed => startTime < endTime
                           && verdict == if k == MAX_RETRIES then GivenUp else Judge(p, fails, limit, k + 1, calls)
            case OutOfLimit => verdict == Unfinished
  {
    hide Judge, Progress, FirstFail, IsWholeWindow;
    var chunkStart := startTime;
    var tempResult: seq<Doc> := [];
    calls := call;
    AttemptStarts(docs, p, k);
    NothingFailedYet(fails, call);
    while chunkStart < endTime
      invariant call <= calls <= limit
      invariant Progress(docs, p, k, chunkStart, calls - call, tempResult)
      invariant FirstFail(fails, call, calls - call).None?
      decreases limit - calls
    {
      if calls == limit {
        AttemptHolds(docs, p, fails, limit, k, call, calls - call, chunkStart, tempResult);
        return OutOfLimit, calls;
      }
      var chunkEnd := chunkStart + chunkSize * HOUR;
      if chunkEnd > endTime {
        chunkEnd := endTime;
      }
      var chunkResults := AggregateAll(docs, chunkStart, chunkEnd, fails(calls));
      calls := calls + 1;
      if chunkResults.None? {
        StartBeforeEnd(docs, p, k, chunkStart, calls - 1 - call, tempResult);
        AttemptFails(docs, p, fails, limit, k, call, calls - 1 - call, chunkStart, tempResult);
        return Failed, calls;
      }
      NoFail(fails, call, calls - 1 - call);
      ChunkProgress(docs, p, k, chunkStart, calls - 1 - call, tempResult);
      tempResult := tempResult + chunkResults.value;
      chunkStart := chunkEnd;
    }
    AttemptHolds(docs, p, fails, limit, k, call, calls - call, chunkStart, tempResult);
    return Done(tempResult), calls;
  }

  lemma NothingFailedYet(fails: nat -> bool, call: nat)
    ensures FirstFail(fails, call, 0).None?
  {
  }

  lemma WindowFound(docs: seq<Doc>, rows: seq<Doc>, start: Time, end: Time)
    requires IsWholeWindow(docs, rows, start, end)
    ensures forall d :: multiset(rows)[d] == if start <= d.createdAt < end then multiset(docs)[d] else 0
  {
    forall d: Doc
      ensures multiset(rows)[d] == if start <= d.createdAt < end then multiset(docs)[d] else 0
    {
      QueryFindsWindow(docs, start, end, d);
    }
  }

  /** AvailmentReports, watched for its first `limit` queries; `fails` tells which of them fail. */
  method AvailmentReports(docs: seq<Doc>, startTime: Time, everyHours: int, reportChunks: int,
                          fails: nat -> bool, limit: nat)
    returns (r: Outcome)
    ensures r.DivisionByZero? <==> reportChunks == 0
    ensures reportChunks != 0 ==>
              var p := Plan(startTime, startTime + everyHours * HOUR, 24 / reportChunks);
              match Judge(p, fails, limit, 0, 0)
              case Complete => r.Rows? && IsWholeWindow(docs, r.rows, p.start, p.end)
              case GivenUp => r == MaxRetriesReached
              case Unfinished => r == StillRunning
    ensures r.Rows? ==>
              forall d :: multiset(r.rows)[d]
                          == if startTime <= d.createdAt < startTime + everyHours * HOUR then multiset(docs)[d] else 0
  {
    hide Judge, IsWholeWindow;
    if reportChunks == 0 {
      return DivisionByZero;
    }
    var chunkSize := 24 / reportChunks;
    var endTime := startTime + everyHours * HOUR;
    ghost var p := Plan(startTime, endTime, chunkSize);
    var retries := 0;
    var calls := 0;
    while true
      invariant 0 <= retries <= MAX_RETRIES && chunkSize == p.size + retries && calls <= limit
      invariant Judge(p, fails, limit, retries, calls) == Judge(p, fails, limit, 0, 0)
      decreases MAX_RETRIES - retries
    {
      var attempt;
      attempt, calls := ReadChunks(docs, startTime, endTime, chunkSize, fails, limit, calls, p, retries);
      match attempt
      case Done(rows) =>
        WindowFound(docs, rows, startTime, endTime);
        return Rows(rows);
      case OutOfLimit => return StillRunning;
      case Failed =>
        chunkSize := chunkSize + 1;
        retries := retries + 1;
        if retries > MAX_RETRIES {
          return MaxRetriesReached;
        }
    }
  }

  lemma StartBeforeEnd(docs: seq<Doc>, p: Plan, k: nat, at: Time, done: nat, rows: seq<Doc>)
    requires Progress(docs, p, k, at, done, rows) && at < p.end
    ensures p.start < p.end
  {
  }
}
