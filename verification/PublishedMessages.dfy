/** What the producer publishes, and when, told by the fields of the loan, its versions and the event. */
module PublishedMessages {
  import opened Numbers
  import opened Deduction
  import opened Ledger
  import opened Protocol

  // ----- the version read -----

  /** Version k is the first open one and its amounts fit int32 fields. */
  predicate ReadableOpen(docs: seq<UnpaidDoc>, k: nat) {
    && k < |docs| && docs[k].open && (forall i :: 0 <= i < k ==> !docs[i].open)
    && Whole(docs[k].unpaid) && Whole(docs[k].fee) && Whole(docs[k].loanTotal)
  }

  lemma {:induction false} FirstOpen(docs: seq<UnpaidDoc>)
    ensures FindOpen(docs).None? ==> forall i :: 0 <= i < |docs| ==> !docs[i].open
    ensures FindOpen(docs).Some? ==>
              exists k :: 0 <= k < |docs| && docs[k] == FindOpen(docs).value && docs[k].open
                          && forall i :: 0 <= i < k ==> !docs[i].open
  {
    if docs != [] {
      if docs[0].open {
        assert docs[0] == FindOpen(docs).value;
      } else {
        FirstOpen(docs[1..]);
        if FindOpen(docs[1..]).Some? {
          var k :| 0 <= k < |docs[1..]| && docs[1..][k] == FindOpen(docs[1..]).value && docs[1..][k].open
                   && forall i :: 0 <= i < k ==> !docs[1..][i].open;
          assert docs[k + 1] == FindOpen(docs).value;
        }
        assert forall i :: 1 <= i < |docs| ==> docs[i] == docs[1..][i - 1];
      }
    }
  }

  /** GetUnpaidLoansByLoanId: the first open version, if the store answers and it can be decoded. */
  lemma ReadIsFirstOpen(db: Db, l: LoanId, answered: bool)
    ensures ReadOpen(db, l, answered).Some? <==>
              answered && l in db.unpaid && exists k: nat :: ReadableOpen(db.unpaid[l], k)
    ensures forall k: nat :: answered && l in db.unpaid && ReadableOpen(db.unpaid[l], k) ==>
              ReadOpen(db, l, answered) == Some(db.unpaid[l][k])
  {
    if l in db.unpaid {
      var docs := db.unpaid[l];
      FirstOpen(docs);
      if FindOpen(docs).Some? {
        var j :| 0 <= j < |docs| && docs[j] == FindOpen(docs).value && docs[j].open
                 && forall i :: 0 <= i < j ==> !docs[i].open;
        assert WholeDoc(docs[j]) ==> ReadableOpen(docs, j);
        assert forall k: nat :: ReadableOpen(docs, k) ==> k == j;
      }
    }
  }

  // ----- the message -----

  /** What the event offers, beside the loan. */
  datatype Offer = Offer(cfg: Config, wallet: int, readOk: bool, repairOk: bool, id: MsgId, meta: Meta)

  function Rules(db: Db, m: Msisdn, o: Offer): (Db, Outcome) {
    CollectionRules(db, m, o.cfg, o.wallet, o.readOk, o.repairOk, o.id, o.meta)
  }

  /** M*P, in MB. */
  function Cap(o: Offer): real {
    o.cfg.maxPercent * o.wallet as real
  }

  /** The open version can be read. */
  ghost predicate Reads(db: Db, l: LoanId, o: Offer) {
    o.readOk && l in db.unpaid && exists k: nat :: ReadableOpen(db.unpaid[l], k)
  }

  /** The subscriber's loan, read with a whole total, owes b: by its own field, or by the open
      version, which then is written into the loan. */
  ghost predicate Owes(db: Db, m: Msisdn, o: Offer, b: real) {
    && m in db.loans && Whole(db.loans[m].total) && b != 0.0
    && var loan := db.loans[m];
    && (loan.unpaid == b
        || (loan.unpaid == 0.0 && o.readOk && o.repairOk && loan.id in db.unpaid
            && exists k: nat :: ReadableOpen(db.unpaid[loan.id], k) && db.unpaid[loan.id][k].unpaid == b))
  }

  lemma BalanceIsOwed(db: Db, m: Msisdn, o: Offer)
    requires m in db.loans && Whole(db.loans[m].total)
    ensures var loan := db.loans[m];
            var total := TotalUnpaid(loan, ReadOpen(db, loan.id, o.readOk), o.repairOk);
            && (total.Some? ==>
                  total.value == loan.(unpaid := total.value.unpaid) && Owes(db, m, o, total.value.unpaid))
            && (forall b :: Owes(db, m, o, b) ==> total == Some(loan.(unpaid := b)))
  {
    var loan := db.loans[m];
    ReadIsFirstOpen(db, loan.id, o.readOk);
    hide ReadableOpen, ReadOpen;
  }

  /** A message is sent exactly when the loan can be read and owes something, carries a rate, and
      the allowance covers the debt or reaches the minimum. */
  lemma SendIff(db: Db, m: Msisdn, o: Offer)
    requires m in db.loans ==> db.loans[m].rate >= 0.0
    ensures Rules(db, m, o).1.Send? <==>
              exists b :: Owes(db, m, o, b) && db.loans[m].rate > 0.0
                          && (Cap(o) >= b * db.loans[m].rate || Cap(o) / db.loans[m].rate >= o.cfg.minAmount)
  {
    hide Owes, ReadOpen, Decide, Cap;
    if m in db.loans && Whole(db.loans[m].total) {
      BalanceIsOwed(db, m, o);
      var loan := db.loans[m];
      var total := TotalUnpaid(loan, ReadOpen(db, loan.id, o.readOk), o.repairOk);
      if total.Some? {
        DecidedIff(m, total.value, ReadOpen(db, loan.id, o.readOk), o);
      }
    } else {
      assert forall b :: !Owes(db, m, o, b) by { NothingOwed(db, m, o); }
    }
  }

  lemma NothingOwed(db: Db, m: Msisdn, o: Offer)
    requires m !in db.loans || !Whole(db.loans[m].total)
    ensures forall b :: !Owes(db, m, o, b)
  {
  }

  /** The loan's own rate decides: with rate 0 nothing is sent, whatever the matrix says. */
  lemma DecidedIff(m: Msisdn, loan: Loan, read: Option<UnpaidDoc>, o: Offer)
    requires loan.rate >= 0.0
    ensures Decided(m, loan, read, o.cfg, o.wallet, o.id, o.meta).Send? <==>
              loan.rate > 0.0 && (Cap(o) >= loan.unpaid * loan.rate || Cap(o) / loan.rate >= o.cfg.minAmount)
  {
    hide Decide, Cap;
    if loan.rate > 0.0 {
      OfferIsOptimal(loan, o);
    } else if ConversionRate(loan, o.cfg).Some? {
      var rate := ConversionRate(loan, o.cfg).value;
      NoTakeWithoutRate(o.cfg.maxPercent, o.wallet as real, o.cfg.minAmount, loan.unpaid, rate);
    }
  }

  function Choice(loan: Loan, o: Offer): Decision {
    Decide(o.cfg.maxPercent, o.wallet as real, o.cfg.minAmount, loan.unpaid, loan.rate, loan.rate)
  }

  lemma OfferIsOptimal(loan: Loan, o: Offer)
    requires loan.rate > 0.0
    ensures var d := Choice(loan, o); var debt := loan.unpaid * loan.rate;
            && Optimal(d, Cap(o), debt, loan.unpaid, loan.rate, o.cfg.minAmount)
            && (d.Take? <==> Cap(o) >= debt || Cap(o) / loan.rate >= o.cfg.minAmount)
            && (d.Take? ==> d.data == d.amount * loan.rate && d.data <= Cap(o) && (d.kind == Full <==> Cap(o) >= debt))
  {
    hide Decide, Optimal, Cap;
    CapIs(o);
    DecideIsOptimal(o.cfg.maxPercent, o.wallet as real, o.cfg.minAmount, loan.unpaid, loan.rate,
                    Cap(o), loan.unpaid * loan.rate);
    OptimalTakes(Choice(loan, o), Cap(o), loan.unpaid * loan.rate, loan.unpaid, loan.rate, o.cfg.minAmount);
  }

  lemma CapIs(o: Offer)
    ensures Cap(o) == o.cfg.maxPercent * o.wallet as real
  {
  }

  lemma OptimalTakes(d: Decision, cap: real, debt: real, balance: real, rate: real, minAmount: real)
    requires rate > 0.0 && Optimal(d, cap, debt, balance, rate, minAmount)
    ensures d.Take? <==> cap >= debt || cap / rate >= minAmount
    ensures d.Take? ==> d.data == d.amount * rate && d.data <= cap && (d.kind == Full <==> cap >= debt)
  {
  }

  lemma NoTakeWithoutRate(maxPercent: real, wallet: real, minAmount: real, balance: real, rate: real)
    ensures !Decide(maxPercent, wallet, minAmount, balance, 0.0, rate).Take?
  {
  }

  /** Every published message: identity, terms and balances are the loan's as it is stored
      afterwards; version and fee are the open version's, 0 after a failed read; wallet and the
      rest are the event's; kind, data and pesos are the optimal deduction. */
  lemma MessageFacts(db: Db, m: Msisdn, o: Offer)
    requires m in db.loans ==> db.loans[m].rate >= 0.0
    requires Rules(db, m, o).1.Send?
    ensures m in db.loans && m in Rules(db, m, o).0.loans
    ensures var (db', outcome) := Rules(db, m, o);
            var msg := outcome.msg; var loan := db'.loans[m];
            && loan == db.loans[m].(unpaid := loan.unpaid) && Owes(db, m, o, loan.unpaid)
            && msg.id == o.id && msg.msisdn == m && msg.loanId == loan.id && msg.total == loan.total
            && msg.fee == loan.fee && msg.unpaid == loan.unpaid
            && msg.wallet == o.wallet && msg.meta == o.meta.(guid := loan.guid)
            && (outcome.readOk <==> Reads(db, loan.id, o))
            && (!outcome.readOk ==> msg.version == 0 && msg.unpaidFee == 0.0)
            && (forall k: nat :: outcome.readOk && ReadableOpen(db.unpaid[loan.id], k) ==>
                  msg.version == db.unpaid[loan.id][k].version && msg.unpaidFee == db.unpaid[loan.id][k].fee)
            && loan.rate > 0.0 && msg.data == msg.amount * loan.rate && msg.data <= Cap(o)
            && (msg.kind == Full <==> Cap(o) >= loan.unpaid * loan.rate)
            && Optimal(Take(msg.kind, msg.data, msg.amount), Cap(o), loan.unpaid * loan.rate, loan.unpaid,
                       loan.rate, o.cfg.minAmount)
  {
    hide Owes, ReadOpen, Decide, Optimal, ReadableOpen, Cap;
    SendIff(db, m, o);
    SendNeedsLoan(db, m, o);
    var loan := db.loans[m];
    BalanceIsOwed(db, m, o);
    ReadIsFirstOpen(db, loan.id, o.readOk);
    var total := TotalUnpaid(loan, ReadOpen(db, loan.id, o.readOk), o.repairOk).value;
    DecidedIff(m, total, ReadOpen(db, loan.id, o.readOk), o);
    OfferIsOptimal(total, o);
    var d := Choice(total, o);
    assert d == Take(d.kind, d.data, d.amount);
  }

  lemma SendNeedsLoan(db: Db, m: Msisdn, o: Offer)
    requires Rules(db, m, o).1.Send?
    ensures m in db.loans && Whole(db.loans[m].total)
    ensures TotalUnpaid(db.loans[m], ReadOpen(db, db.loans[m].id, o.readOk), o.repairOk).Some?
  {
    hide ReadOpen, TotalUnpaid, Decided;
  }
}
