/** What one delivery does, told by the answers' own fields. */
module DeliveryOutcomes {
  import opened Ledger
  import opened WorkerHandler

  // ----- the number 9000 -----

  function WithoutZeros(s: string): string {
    if s != "" && s[0] == '0' then WithoutZeros(s[1..]) else s
  }

  /** A decimal text of value 9000: an optional plus sign, any zeros, then 9000. */
  predicate Means9000(s: string) {
    WithoutZeros(if s != "" && s[0] == '+' then s[1..] else s) == "9000"
  }

  predicate AllDigits(s: string) {
    forall i :: 0 <= i < |s| ==> '0' <= s[i] <= '9'
  }

  lemma {:induction false} ZeroInFront(s: string)
    requires AllDigits(s) && s != "" && s[0] == '0'
    ensures Digits(s) == Digits(s[1..])
  {
    var n := |s| - 1;
    if n > 0 {
      ZeroInFront(s[..n]);
      assert s[1..][..n - 1] == s[..n][1..];
    } else {
      assert s[..n] == "" && s[1..] == "";
    }
  }

  lemma {:induction false} ValueBounds(s: string)
    requires AllDigits(s)
    ensures Digits(s) >= 0
    ensures s != "" && s[0] != '0' ==> Digits(s) >= 1
  {
    if s != "" {
      ValueBounds(s[..|s| - 1]);
    }
  }

  /** The last digit and the rest of the value. */
  lemma LastDigit(s: string, n: nat, d: nat)
    requires AllDigits(s) && d < 10 && n > 0 && Digits(s) == 10 * n + d
    ensures s != "" && Digits(s[..|s| - 1]) == n && s[|s| - 1] as int == '0' as int + d
  {
    ValueBounds(s[..|s| - 1]);
  }

  /** Without a zero in front the text of 9000 is unique. */
  lemma OnlyText(s: string)
    requires AllDigits(s) && s != "" && s[0] != '0' && Digits(s) == 9000
    ensures s == "9000"
  {
    hide Digits;
    LastDigit(s, 900, 0);
    var a := s[..|s| - 1];
    LastDigit(a, 90, 0);
    var b := a[..|a| - 1];
    LastDigit(b, 9, 0);
    var c := b[..|b| - 1];
    OneDigit(c);
    assert s == c + "000";
  }

  lemma OneDigit(c: string)
    requires AllDigits(c) && c != "" && c[0] != '0' && Digits(c) == 9
    ensures c == "9"
  {
    var d := c[..|c| - 1];
    ValueBounds(d);
    assert c == d + [c[|c| - 1]];
  }

  lemma ValueOf9000()
    ensures Digits("9000") == 9000
  {
    var s := "9000";
    assert s[..3] == "900" && s[..3][..2] == "90" && s[..3][..2][..1] == "9";
    assert Digits("9") == 9 && Digits("90") == 90 && Digits("900") == 900;
  }

  lemma {:induction false} Value9000(s: string)
    ensures WithoutZeros(s) == "9000" <==> IsDigits(s) && Digits(s) == 9000
  {
    if s != "" && s[0] == '0' {
      Value9000(s[1..]);
      if IsDigits(s) { ZeroInFront(s); }
      assert IsDigits(s[1..]) ==> IsDigits(s) by { assert s == [s[0]] + s[1..]; }
      assert IsDigits(s) && Digits(s) == 9000 ==> s[1..] != "";
    } else {
      ValueOf9000();
      if IsDigits(s) && Digits(s) == 9000 { OnlyText(s); }
    }
  }

  lemma AtoiIs9000(s: string)
    ensures Atoi(s) == 9000 <==> Means9000(s)
  {
    hide Digits, WithoutZeros;
    Value9000(s);
    if s != "" {
      Value9000(s[1..]);
      if IsDigits(s[1..]) { ValueBounds(s[1..]); }
    }
  }

  // ----- the action, by fields -----

  /** The wallet answered with an error that names a code or a text. */
  predicate Refusal(a: Answers) {
    && a.decodes && a.wallet.Failed?
    && var e := a.wallet.error;
    && e.statusCode != -1
    && (e.errorCode != "" || e.errorDetails != "" || e.resultCode != "" || e.description != "")
  }

  /** A refusal the wallet may answer differently later. */
  predicate Temporary(e: WalletError) {
    || e.errorCode == "OUTBOUND_CONN_ERROR"
    || Means9000(if e.statusCode != 200 then e.errorCode else e.resultCode)
  }

  /** The wallet did not answer and the bucket found shows less taken than was to be deducted. */
  predicate SeenUntouched(msg: Msg, a: Answers) {
    && a.decodes && a.wallet.Failed? && a.wallet.error.statusCode == -1 && a.usage.Bucket?
    && 1024.0 * (msg.wallet as real - msg.data) < a.usage.volumeRemaining as real
  }

  /** When a message is nacked, left for redelivery or acknowledged. */
  lemma ActionsByField(msg: Msg, a: Answers)
    ensures ActionOf(CourseOf(msg, a)) == Nack <==> !a.decodes || SeenUntouched(msg, a)
    ensures ActionOf(CourseOf(msg, a)) == Ignore <==> Refusal(a) && Temporary(a.wallet.error)
  {
    if a.wallet.Failed? { AtoiIs9000(CodeOf(a.wallet.error)); }
  }

  /** A refusal: redelivered with its entry held, or acknowledged with its entry deleted; the
      ledger keeps its balances, and the record carries the text its status selects. */
  lemma RefusalOutcome(db: Db, msg: Msg, a: Answers, now: Time)
    requires Refusal(a)
    ensures var e := a.wallet.error;
            var again := Temporary(e);
            var db' := LedgerAfter(db, msg, a, now);
            && ActionOf(CourseOf(msg, a)) == (if again then Ignore else Ack)
            && (Frees(db, msg, a) <==> !again && a.delete)
            && db'.loans == db.loans && db'.unpaid == db.unpaid && db'.closed == db.closed
            && db'.collections == db.collections + (if a.record then [Last(db'.collections)] else [])
            && (a.record ==>
                  Last(db'.collections).errorText == (if e.statusCode != 200 then e.errorDetails else e.description))
  {
    ActionsByField(msg, a);
    AtoiIs9000(CodeOf(a.wallet.error));
  }

  /** When the deduction is taken to have happened, and when the entry of an acknowledged message
      is freed, by fields. */
  predicate TakenAsDone(msg: Msg, a: Answers) {
    && a.decodes
    && (a.wallet.Decremented?
        || (a.wallet.error.statusCode == -1 && a.usage.Bucket?
            && 1024.0 * (msg.wallet as real - msg.data) >= a.usage.volumeRemaining as real))
  }

  lemma PostingByField(db: Db, msg: Msg, a: Answers)
    ensures CourseOf(msg, a) == Deducted <==> TakenAsDone(msg, a)
  {
  }
}
