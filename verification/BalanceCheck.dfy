/** The check after a wallet timeout: the debit is ordered in KB of 1000 to the MB, the remaining
    volume is read back in KB of 1024 to the MB. */
module BalanceCheck {
  import opened Numbers
  import opened WorkerHandler

  /** mapToDecrementWalletSubscriptionRequest: the KB ordered for `data` MB. */
  function OrderedKb(data: real): int {
    RoundHalfEven(data * 1000.0)
  }

  /** The bucket holds 1000 KB to the MB and only this deduction touches it.  After the deduction
      the check says "happened" exactly when the unit drift of the whole wallet makes up for the
      drift of the deduction; before it, exactly when that drift alone covers the deduction. */
  lemma DecimalBucketIff(wallet: int, data: real)
    ensures DeductionHappened(wallet, 1000 * wallet - OrderedKb(data), data)
            <==> 24.0 * wallet as real >= 1024.0 * data - OrderedKb(data) as real
    ensures DeductionHappened(wallet, 1000 * wallet, data) <==> data <= 3.0 * wallet as real / 128.0
  {
  }

  /** So it recognises every deduction that leaves at least 1/48 MB, and no deduction above
      3/128 of the wallet is reported before it happened. */
  lemma DecimalBucketBounds(wallet: int, data: real)
    ensures data <= wallet as real - 1.0 / 48.0 ==> DeductionHappened(wallet, 1000 * wallet - OrderedKb(data), data)
    ensures data > 3.0 * wallet as real / 128.0 ==> !DeductionHappened(wallet, 1000 * wallet, data)
  {
  }

  /** The bound 1/48 cannot be improved: for half a KB above an even number of KB it is exact. */
  lemma DecimalBoundIsTight(wallet: int, kb: nat)
    requires kb % 2 == 0
    ensures var data := kb as real / 1000.0 + 1.0 / 2000.0;
            DeductionHappened(wallet, 1000 * wallet - OrderedKb(data), data) <==> data <= wallet as real - 1.0 / 48.0
  {
    var data := kb as real / 1000.0 + 1.0 / 2000.0;
    assert data * 1000.0 == kb as real + 0.5;
    FloorOf(data * 1000.0, kb);
    DecimalBucketIff(wallet, data);
  }

  /** A bucket of 1024 KB to the MB: the check denies every completed deduction above 1/48 MB,
      whatever the wallet, so a timed-out debit is then never posted. */
  lemma BinaryBucketDenies(wallet: int, data: real)
    requires data > 1.0 / 48.0
    ensures !DeductionHappened(wallet, 1024 * wallet - OrderedKb(data), data)
  {
  }
}
