/** The retry delay in signed 64-bit nanoseconds (internal/scheduler/scheduler.go,
    failTask): interval seconds times 2^retries, capped at five minutes, computed with
    wrap-around. */
module Backoff {
  import opened Tasks

  const TWO_63: int := 0x8000_0000_0000_0000
  const TWO_64: int := 0x1_0000_0000_0000_0000
  const MAX_RETRY_DELAY: int := 300 * SECOND

  /** The value of a 64-bit signed integer after wrap-around. */
  function Wrap64(x: int): (w: int)
    ensures -TWO_63 <= w < TWO_63 && (w - x) % TWO_64 == 0
    ensures -TWO_63 <= x < TWO_63 ==> w == x
  {
    (x + TWO_63) % TWO_64 - TWO_63
  }

  function Pow2(k: nat): nat {
    if k == 0 then 1 else 2 * Pow2(k - 1)
  }

  /** `1 << k` on a 64-bit signed integer: shifting by 64 or more leaves nothing. */
  function Shift(k: nat): int {
    if k >= 64 then 0 else Wrap64(Pow2(k))
  }

  function RawDelay(interval: int, retries: nat): int {
    Wrap64(Wrap64(interval * SECOND) * Shift(retries))
  }

  /** What failTask passes to PushDelayed. */
  function RetryDelay(interval: int, retries: nat): int {
    if RawDelay(interval, retries) > MAX_RETRY_DELAY then MAX_RETRY_DELAY else RawDelay(interval, retries)
  }

  function Min(a: int, b: int): int {
    if a < b then a else b
  }

  /** The exponential backoff that is meant: interval · 2^retries, at most five minutes. */
  function Ideal(interval: nat, retries: nat): int {
    Min(interval * SECOND * Pow2(retries), 300 * SECOND)
  }

  predicate Fits(interval: nat, retries: nat) {
    interval * SECOND * Pow2(retries) < TWO_63
  }

  lemma {:induction false} Pow2Grows(j: nat, k: nat)
    requires j <= k
    ensures 1 <= Pow2(j) <= Pow2(k)
    decreases k
  {
    if j < k { Pow2Grows(j, k - 1); } else if j > 0 { Pow2Grows(j - 1, k - 1); }
  }

  lemma Pow2Of62()
    ensures Pow2(62) == 0x4000_0000_0000_0000 && Pow2(63) == TWO_63
  {
    assert Pow2(10) == 1024;
    assert Pow2(20) == 1024 * 1024;
    assert Pow2(30) == 1024 * 1024 * 1024;
    assert Pow2(40) == 1024 * 1024 * 1024 * 1024;
    assert Pow2(50) == 1024 * 1024 * 1024 * 1024 * 1024;
    assert Pow2(60) == 1024 * 1024 * 1024 * 1024 * 1024 * 1024;
  }

  lemma MulGrows(a: nat, b: nat, c: nat)
    requires b <= c
    ensures a * b <= a * c
  {
  }

  lemma ShiftIsPower(k: nat)
    requires Pow2(k) < TWO_63
    ensures Shift(k) == Pow2(k)
  {
    if k >= 63 {
      Pow2Of62();
      Pow2Grows(63, k);
    }
  }

  lemma FactorsFit(base: nat, p: nat)
    requires base >= 1 && p >= 1 && base * p < TWO_63
    ensures base < TWO_63 && p < TWO_63
  {
  }

  lemma WrapOfProduct(base: int, p: int, shift: int)
    requires 0 <= base < TWO_63 && 0 <= base * p < TWO_63 && (base == 0 || shift == p)
    ensures Wrap64(Wrap64(base) * shift) == base * p
  {
  }

  lemma RawIsExact(interval: nat, retries: nat)
    requires Fits(interval, retries)
    ensures RawDelay(interval, retries) == interval * SECOND * Pow2(retries)
  {
    hide Wrap64, Pow2, Shift;
    var base, p := interval * SECOND, Pow2(retries);
    Pow2Grows(0, retries);
    if interval > 0 {
      FactorsFit(base, p);
      ShiftIsPower(retries);
    }
    WrapOfProduct(base, p, Shift(retries));
  }

  /** Main result: while the product fits into 64 bits the delay is the intended one. */
  lemma DelayIsIdeal(interval: nat, retries: nat)
    requires Fits(interval, retries)
    ensures RetryDelay(interval, retries) == Ideal(interval, retries)
  {
    RawIsExact(interval, retries);
  }

  lemma WrapIsRemainder(x: int) returns (q: int)
    ensures Wrap64(x) == x + q * TWO_64
  {
    q := (Wrap64(x) - x) / TWO_64;
  }

  lemma WrapIgnoresMultiples(x: int, q: int)
    ensures Wrap64(x + q * TWO_64) == Wrap64(x)
  {
    var y := x + TWO_63;
    assert (y + q * TWO_64) % TWO_64 == y % TWO_64;
  }

  /** Wrapping the factors first makes no difference. */
  lemma WrapOfFactors(a: int, b: int)
    ensures Wrap64(Wrap64(a) * Wrap64(b)) == Wrap64(a * b)
  {
    var p := WrapIsRemainder(a);
    var q := WrapIsRemainder(b);
    WrapIgnoresMultiples(a * b, a * q + p * b + p * q * TWO_64);
    hide Wrap64;
    Expand(a, b, p, q);
  }

  lemma Expand(a: int, b: int, p: int, q: int)
    ensures (a + p * TWO_64) * (b + q * TWO_64) == a * b + (a * q + p * b + p * q * TWO_64) * TWO_64
  {
    assert (a + p * TWO_64) * (b + q * TWO_64) == a * (b + q * TWO_64) + p * TWO_64 * (b + q * TWO_64);
    assert a * (b + q * TWO_64) == a * b + a * q * TWO_64;
    assert p * TWO_64 * (b + q * TWO_64) == p * b * TWO_64 + p * q * TWO_64 * TWO_64;
  }

  /** Below 64 retries the raw delay is the exact product, wrapped around once. */
  lemma RawIsWrapped(interval: int, retries: nat)
    requires retries < 64
    ensures RawDelay(interval, retries) == Wrap64(interval * SECOND * Pow2(retries))
  {
    hide Wrap64, Pow2;
    WrapOfFactors(interval * SECOND, Pow2(retries));
  }

  /** In general the delay is the intended one exactly when the product fits into 63 bits
      or wraps around to five minutes or more; from 64 retries on, when the interval is
      zero. */
  lemma DelayIsIdealIff(interval: nat, retries: nat)
    ensures RetryDelay(interval, retries) == Ideal(interval, retries) <==>
            if retries < 64 then Fits(interval, retries) || Wrap64(interval * SECOND * Pow2(retries)) >= MAX_RETRY_DELAY
            else interval == 0
  {
    hide RetryDelay, Ideal, Fits, Wrap64, Pow2;
    if retries >= 64 {
      LateRetriesAreImmediate(interval, retries);
      IdealIsPositive(interval, retries);
    } else {
      RawIsWrapped(interval, retries);
      IdealIfCutDown(interval, retries);
    }
  }

  lemma IdealIsPositive(interval: nat, retries: nat)
    ensures Ideal(interval, retries) == 0 <==> interval == 0
  {
    Pow2Grows(0, retries);
    hide Pow2;
    if interval > 0 {
      MulGrows(interval * SECOND, 1, Pow2(retries));
    } else {
      assert interval * SECOND * Pow2(retries) == 0;
    }
  }

  lemma IdealIfCutDown(interval: nat, retries: nat)
    ensures RetryDelay(interval, retries) == Ideal(interval, retries)
       <==> Fits(interval, retries) || RawDelay(interval, retries) >= MAX_RETRY_DELAY
  {
    if Fits(interval, retries) { DelayIsIdeal(interval, retries); }
    hide RawDelay, Pow2;
  }

  /** More retries never wait less, within the same range. */
  lemma DelayIsMonotone(interval: nat, j: nat, k: nat)
    requires j <= k && Fits(interval, k)
    ensures RetryDelay(interval, j) <= RetryDelay(interval, k)
  {
    Pow2Grows(j, k);
    MulGrows(interval * SECOND, Pow2(j), Pow2(k));
    DelayIsIdeal(interval, j);
    DelayIsIdeal(interval, k);
  }

  /** The waits before retries 1 to `n`. */
  function TotalDelay(interval: int, n: nat): int {
    if n == 0 then 0 else TotalDelay(interval, n - 1) + RetryDelay(interval, n)
  }

  /** Below the cap the first n retries wait interval · (2^(n+1) - 2) seconds in all. */
  lemma {:induction false} TotalBelowCap(interval: nat, n: nat)
    requires interval * SECOND * Pow2(n) <= MAX_RETRY_DELAY
    ensures TotalDelay(interval, n) == interval * (Pow2(n + 1) - 2) * SECOND
  {
    if n > 0 {
      Pow2Grows(n - 1, n);
      MulGrows(interval * SECOND, Pow2(n - 1), Pow2(n));
      TotalBelowCap(interval, n - 1);
      DelayIsIdeal(interval, n);
      Geometric(interval, Pow2(n));
    }
  }

  lemma Geometric(interval: nat, p: nat)
    ensures interval * (p - 2) * SECOND + interval * SECOND * p == interval * (2 * p - 2) * SECOND
  {
  }

  /** The service's one-second interval fits up to 33 retries. */
  lemma OneSecondFits(retries: nat)
    ensures Fits(1, retries) <==> retries <= 33
  {
    assert Pow2(10) == 1024;
    assert Pow2(20) == 1024 * 1024;
    assert Pow2(30) == 1024 * 1024 * 1024;
    assert Pow2(33) == 8 * 1024 * 1024 * 1024;
    assert Pow2(34) == 16 * 1024 * 1024 * 1024;
    if retries <= 33 { Pow2Grows(retries, 33); } else { Pow2Grows(34, retries); }
  }

  /** The wrap-around is real: the 34th retry at one second is due at once, because its
      delay is negative. */
  lemma ThirtyFourthRetryIsImmediate()
    ensures RetryDelay(1, 34) < 0 && Ideal(1, 34) == MAX_RETRY_DELAY
  {
    assert Pow2(10) == 1024;
    assert Pow2(20) == 1024 * 1024;
    assert Pow2(30) == 1024 * 1024 * 1024;
    assert Pow2(34) == 16 * 1024 * 1024 * 1024;
  }

  function OneSecond(k: nat): int {
    Wrap64(SECOND * Pow2(k))
  }

  lemma Doubles(k: nat)
    ensures OneSecond(k + 1) == Wrap64(2 * OneSecond(k))
  {
    var q := WrapIsRemainder(SECOND * Pow2(k));
    WrapIgnoresMultiples(SECOND * Pow2(k + 1), 2 * q);
    hide Wrap64;
  }

  lemma Next(k: nat, was: int, q: int)
    requires OneSecond(k) == was && -TWO_63 <= 2 * was + q * TWO_64 < TWO_63
    ensures OneSecond(k + 1) == 2 * was + q * TWO_64
  {
    Doubles(k);
    hide OneSecond;
    WrapIgnoresMultiples(2 * was, q);
  }

  lemma OneSecondAt33()
    ensures OneSecond(33) == 8589934592000000000
  {
    assert Pow2(10) == 1024;
    assert Pow2(20) == 1024 * 1024;
    assert Pow2(30) == 1024 * 1024 * 1024;
    assert Pow2(33) == 8589934592;
  }

  lemma OneSecondTo43()
    ensures OneSecond(34) == -1266874889709551616
    ensures OneSecond(35) == -2533749779419103232
    ensures OneSecond(36) == -5067499558838206464
    ensures OneSecond(37) == 8311744956033138688
    ensures OneSecond(38) == -1823254161643274240
    ensures OneSecond(39) == -3646508323286548480
    ensures OneSecond(40) == -7293016646573096960
    ensures OneSecond(41) == 3860710780563357696
    ensures OneSecond(42) == 7721421561126715392
    ensures OneSecond(43) == -3003900951456120832
  {
    hide OneSecond;
    OneSecondAt33();
    Next(33, 8589934592000000000, -1);
    Next(34, -1266874889709551616, 0);
    Next(35, -2533749779419103232, 0);
    Next(36, -5067499558838206464, 1);
    Next(37, 8311744956033138688, -1);
    Next(38, -1823254161643274240, 0);
    Next(39, -3646508323286548480, 0);
    Next(40, -7293016646573096960, 1);
    Next(41, 3860710780563357696, 0);
    Next(42, 7721421561126715392, -1);
  }

  lemma OneSecondTo53()
    ensures OneSecond(44) == -6007801902912241664
    ensures OneSecond(45) == 6431140267885068288
    ensures OneSecond(46) == -5584463537939415040
    ensures OneSecond(47) == 7277816997830721536
    ensures OneSecond(48) == -3891110078048108544
    ensures OneSecond(49) == -7782220156096217088
    ensures OneSecond(50) == 2882303761517117440
    ensures OneSecond(51) == 5764607523034234880
    ensures OneSecond(52) == -6917529027641081856
    ensures OneSecond(53) == 4611686018427387904
  {
    hide OneSecond;
    OneSecondTo43();
    Next(43, -3003900951456120832, 0);
    Next(44, -6007801902912241664, 1);
    Next(45, 6431140267885068288, -1);
    Next(46, -5584463537939415040, 1);
    Next(47, 7277816997830721536, -1);
    Next(48, -3891110078048108544, 0);
    Next(49, -7782220156096217088, 1);
    Next(50, 2882303761517117440, 0);
    Next(51, 5764607523034234880, -1);
    Next(52, -6917529027641081856, 1);
  }

  lemma OneSecondTo63()
    ensures OneSecond(54) == -9223372036854775808
    ensures OneSecond(55) == 0
    ensures OneSecond(56) == 0
    ensures OneSecond(57) == 0
    ensures OneSecond(58) == 0
    ensures OneSecond(59) == 0
    ensures OneSecond(60) == 0
    ensures OneSecond(61) == 0
    ensures OneSecond(62) == 0
    ensures OneSecond(63) == 0
  {
    hide OneSecond;
    OneSecondTo53();
    Next(53, 4611686018427387904, -1);
    Next(54, -9223372036854775808, 1);
    Next(55, 0, 0);
    Next(56, 0, 0);
    Next(57, 0, 0);
    Next(58, 0, 0);
    Next(59, 0, 0);
    Next(60, 0, 0);
    Next(61, 0, 0);
    Next(62, 0, 0);
  }

  /** At the service's interval the delay is the intended one for up to 33 retries and, by
      accident of the wrap-around, for eight larger numbers. */
  lemma OneSecondIsIdealIff(retries: nat)
    ensures RetryDelay(1, retries) == Ideal(1, retries)
       <==> retries <= 33 || retries in {37, 41, 42, 45, 47, 50, 51, 53}
  {
    hide RetryDelay, Ideal, Fits, OneSecond;
    DelayIsIdealIff(1, retries);
    OneSecondFits(retries);
    if 33 < retries < 64 {
      OneSecondIs(retries);
      if retries <= 43 {
        OneSecondTo43();
      } else if retries <= 53 {
        OneSecondTo53();
      } else {
        OneSecondTo63();
      }
      hide Wrap64, Pow2;
    }
  }

  lemma OneSecondIs(retries: nat)
    ensures Wrap64(1 * SECOND * Pow2(retries)) == OneSecond(retries)
  {
  }

  /** And from the 64th retry on every delay is zero. */
  lemma LateRetriesAreImmediate(interval: nat, retries: nat)
    requires retries >= 64
    ensures RetryDelay(interval, retries) == 0
  {
  }
}
