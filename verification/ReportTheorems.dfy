/** When the report loop ends, and when it succeeds. */
module ReportTheorems {
  import opened Numbers
  import opened Report

  lemma {:induction false} ChunksMonotone(g: Time, gap: Time, small: Time, large: Time)
    requires 1 <= small <= large && g <= gap
    ensures Chunks(g, large) <= Chunks(gap, small)
    decreases if gap > 0 then gap else 0
  {
    if g > 0 { ChunksMonotone(g - large, gap - small, small, large); }
  }

  /** Chunk sizes only grow, so no attempt needs more queries than hourly chunks would. */
  lemma NeededBound(p: Plan, k: nat)
    requires p.size + k >= 1 || p.start >= p.end
    ensures Needed(p, k).Some? && Needed(p, k).value <= Chunks(p.end - p.start, HOUR)
  {
    if p.start < p.end {
      assert Step(p, k) == (p.size + k) * HOUR >= HOUR;
      ChunksMonotone(p.end - p.start, p.end - p.start, HOUR, Step(p, k));
    }
  }

  lemma {:induction false} AttemptsEnd(p: Plan, fails: nat -> bool, limit: nat, k: nat, call: nat)
    requires p.size >= 1 || p.start >= p.end
    requires k <= MAX_RETRIES && call + (MAX_RETRIES + 1 - k) * Chunks(p.end - p.start, HOUR) <= limit
    ensures Judge(p, fails, limit, k, call) != Unfinished
    decreases MAX_RETRIES - k
  {
    var most := Chunks(p.end - p.start, HOUR);
    NeededBound(p, k);
    assert (MAX_RETRIES + 1 - k) * most == most + (MAX_RETRIES - k) * most;
    var j := FirstFail(fails, call, Window(p, limit, k, call));
    if j.Some? && k < MAX_RETRIES {
      AttemptsEnd(p, fails, limit, k + 1, call + j.value + 1);
    }
  }

  /** However the queries fail, the loop is over after a fixed number of them. */
  ghost predicate AlwaysEnds(p: Plan) {
    exists bound: nat :: EndsWithin(p, bound)
  }

  ghost predicate EndsWithin(p: Plan, bound: nat) {
    forall fails: nat -> bool, limit: nat :: limit >= bound ==> Judge(p, fails, limit, 0, 0) != Unfinished
  }

  /** A chunk of no positive size never advances: without errors the loop runs for ever. */
  lemma StuckWithoutErrors(p: Plan, limit: nat)
    requires p.size <= 0 && p.start < p.end
    ensures Judge(p, _ => false, limit, 0, 0) == Unfinished
  {
  }

  /** The loop ends whatever fails, within six times the hours of the window, exactly when
      REPORT_CHUNKS is between 1 and 24 or the window is empty. */
  lemma TerminationIff(p: Plan, reportChunks: int)
    requires reportChunks != 0 && p.size == 24 / reportChunks
    ensures AlwaysEnds(p) <==> 1 <= reportChunks <= 24 || p.start >= p.end
    ensures AlwaysEnds(p) ==> EndsWithin(p, 6 * Chunks(p.end - p.start, HOUR))
  {
    ChunkSizePositive(reportChunks);
    if p.size >= 1 || p.start >= p.end {
      var bound := 6 * Chunks(p.end - p.start, HOUR);
      forall fails: nat -> bool, limit: nat | limit >= bound
        ensures Judge(p, fails, limit, 0, 0) != Unfinished
      {
        AttemptsEnd(p, fails, limit, 0, 0);
      }
      assert EndsWithin(p, bound);
    } else if AlwaysEnds(p) {
      var bound: nat :| EndsWithin(p, bound);
      StuckWithoutErrors(p, bound);
      assert false;
    }
  }

  lemma ChunkSizePositive(n: int)
    requires n != 0
    ensures 24 / n >= 1 <==> 1 <= n <= 24
  {
  }

  // ----- how many errors it takes -----

  function Errors(fails: nat -> bool, from: nat, n: nat): nat
    decreases n
  {
    if n == 0 then 0 else (if fails(from) then 1 else 0) + Errors(fails, from + 1, n - 1)
  }

  lemma {:induction false} ErrorsSplit(fails: nat -> bool, from: nat, j: nat, n: nat)
    requires j < n && fails(from + j)
    ensures Errors(fails, from, n) >= 1 + Errors(fails, from + j + 1, n - j - 1)
    decreases j
  {
    if j > 0 { ErrorsSplit(fails, from + 1, j - 1, n - 1); }
  }

  lemma {:induction false} GivingUpTakesErrors(p: Plan, fails: nat -> bool, limit: nat, k: nat, call: nat)
    requires k <= MAX_RETRIES && call <= limit
    requires Judge(p, fails, limit, k, call) == GivenUp
    ensures Errors(fails, call, limit - call) >= MAX_RETRIES + 1 - k
    decreases MAX_RETRIES - k
  {
    hide Needed, Window, FirstFail, Errors;
    var j := FirstFail(fails, call, Window(p, limit, k, call)).value;
    ErrorsSplit(fails, call, j, limit - call);
    if k < MAX_RETRIES {
      GivingUpTakesErrors(p, fails, limit, k + 1, call + j + 1);
    }
  }

  /** Up to five failing queries are tolerated wherever they fall: the report is then complete. */
  lemma FiveErrorsAreTolerated(p: Plan, fails: nat -> bool, limit: nat)
    requires p.size >= 1 || p.start >= p.end
    requires limit >= 6 * Chunks(p.end - p.start, HOUR) && Errors(fails, 0, limit) <= MAX_RETRIES
    ensures Judge(p, fails, limit, 0, 0) == Complete
  {
    AttemptsEnd(p, fails, limit, 0, 0);
    if Judge(p, fails, limit, 0, 0) == GivenUp { GivingUpTakesErrors(p, fails, limit, 0, 0); }
  }

  /** Six are not, when each ends an attempt: with every query failing the report gives up after six. */
  lemma {:induction false} SixErrorsEndIt(p: Plan, limit: nat, k: nat)
    requires p.start < p.end && p.size >= 1 && k <= MAX_RETRIES && limit >= 6
    ensures Judge(p, _ => true, limit, k, k) == GivenUp
    decreases MAX_RETRIES - k
  {
    assert Step(p, k) >= 1;
    assert Window(p, limit, k, k) >= 1;
    assert FirstFail(_ => true, k, Window(p, limit, k, k)) == Some(0);
    if k < MAX_RETRIES { SixErrorsEndIt(p, limit, k + 1); }
  }
}
