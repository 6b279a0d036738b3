/** The Spot ratio rule (internal/utils/spotratio.go): who goes to Spot, and when the share is met. */
module SpotRatio {
  import opened Types

  /** The next Pod of a workload with `total` Pods, `spot` of them on Spot, goes to Spot. */
  predicate ShouldUseSpot(spot: int, total: int, ratio: int) {
    spot * 100 < (total + 1) * ratio
  }

  predicate SpotShareMet(spot: int, total: int, ratio: int) {
    total <= 0 || !ShouldUseSpot(spot, total - 1, ratio)
  }

  /** The least number of Spot Pods that is at least `ratio` percent of `total`. */
  function SpotTarget(total: nat, ratio: Pct): (t: nat)
    ensures t * 100 >= total * ratio && (t > 0 ==> (t - 1) * 100 < total * ratio)
  {
    (total * ratio + 99) / 100
  }

  function Max(a: int, b: int): int { if a < b then b else a }

  function Min(a: int, b: int): int { if a < b then a else b }

  /** The Spot count after admitting `n` more Pods one after the other. */
  function AdmitAll(spot: nat, total: nat, ratio: Pct, n: nat): nat
    decreases n
  {
    if n == 0 then spot
    else AdmitAll(if ShouldUseSpot(spot, total, ratio) then spot + 1 else spot, total + 1, ratio, n - 1)
  }

  lemma AdmitsUpToTarget(spot: int, total: nat, ratio: Pct)
    ensures ShouldUseSpot(spot, total, ratio) <==> spot < SpotTarget(total + 1, ratio)
    ensures SpotShareMet(spot, total, ratio) <==> total == 0 || spot >= SpotTarget(total, ratio)
  {
  }

  /** One more Pod raises the target by at most one, as a ratio is at most 100. */
  lemma {:induction false} TargetGrowsSlowly(total: nat, ratio: Pct, n: nat)
    ensures SpotTarget(total, ratio) <= SpotTarget(total + n, ratio) <= SpotTarget(total, ratio) + n
    ensures SpotTarget(total, ratio) <= total
  {
    assert total * ratio <= total * 100;
    assert (total + n) * ratio == total * ratio + n * ratio;
    assert 0 <= n * ratio <= n * 100;
  }

  /**
   * From any start, admissions all go to Spot until the target of the grown workload is reached, and from then on
   * keep the count on it.
   */
  lemma {:induction false} AdmissionTracksTarget(spot: nat, total: nat, ratio: Pct, n: nat)
    ensures AdmitAll(spot, total, ratio, n) == Min(spot + n, Max(spot, SpotTarget(total + n, ratio)))
    decreases n
  {
    if n > 0 {
      AdmitsUpToTarget(spot, total, ratio);
      TargetGrowsSlowly(total + 1, ratio, n - 1);
      AdmissionTracksTarget(
        if ShouldUseSpot(spot, total, ratio) then spot + 1 else spot, total + 1, ratio, n - 1);
      assert total + n == total + 1 + (n - 1);
    }
  }

  /** From no Pods at all the Spot count is exactly the ratio, rounded up. */
  lemma AdmissionFromZero(ratio: Pct, n: nat)
    ensures AdmitAll(0, 0, ratio, n) == SpotTarget(n, ratio)
  {
    AdmissionTracksTarget(0, 0, ratio, n);
    TargetGrowsSlowly(n, ratio, 0);
  }

  lemma AdmissionMeetsShare(spot: nat, total: nat, ratio: Pct, n: nat)
    ensures AdmitAll(spot, total, ratio, n) == spot + n
      || SpotShareMet(AdmitAll(spot, total, ratio, n), total + n, ratio)
    ensures AdmitAll(spot, total, ratio, n) <= Max(spot, SpotTarget(total + n, ratio))
  {
    AdmissionTracksTarget(spot, total, ratio, n);
    AdmitsUpToTarget(AdmitAll(spot, total, ratio, n), total + n, ratio);
  }

  /**
   * What an eviction is for: a Pod is moved while the share is unmet, and moving it one at a time meets the share
   * after exactly the deficit.
   */
  lemma DeficitMeetsShare(spot: nat, total: nat, ratio: Pct, moved: nat)
    ensures SpotShareMet(spot + moved, total, ratio) <==> total == 0 || moved >= SpotTarget(total, ratio) - spot
  {
    AdmitsUpToTarget(spot + moved, total, ratio);
  }
}
