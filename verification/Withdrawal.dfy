/** Pricing and sizing of a covenant thread withdrawal (src/transaction/mass.rs,
    src/transaction/builder/planning/amounts.rs). */
module Withdrawal {
  import opened Common
  import opened Bits

  const STORAGE_MASS_C: uint64 := 1_000_000_000_000
  const MAX_STORAGE_MASS: uint64 := 500_000
  const COMPUTE_MASS: uint64 := 2_500
  const PAYOUT_SCRIPT_LEN: nat := 34
  const COVENANT_SCRIPT_LEN: nat := 35

  datatype PriceError = OutOfRange | RemainderTooSmall

  /** A transaction entry: its amount and storage plurality. */
  datatype Entry = Entry(amount: uint64, plurality: uint64)

  function Checked(value: nat): Result<uint64, PriceError> {
    if value <= MAX_UINT64 then Ok(value) else Err(OutOfRange)
  }

  function Max(a: nat, b: nat): nat {
    if a >= b then a else b
  }

  lemma Times(a: nat, b: nat, m: nat)
    requires a <= b
    ensures a * m <= b * m
  {
    assert b * m == a * m + (b - a) * m;
  }

  lemma TimesGrows(q: nat, m: nat)
    requires m > 0
    ensures q <= q * m
  {
    Times(1, m, q);
  }

  /** The quotient of unsigned integers. */
  function Div(x: nat, m: nat): (q: nat)
    requires m > 0
    ensures q * m <= x < q * m + m && q <= x
  {
    TimesGrows(x / m, m);
    x / m
  }

  lemma DivIs(x: nat, m: nat, q: nat)
    requires m > 0 && q * m <= x < q * m + m
    ensures Div(x, m) == q
  {
    hide Div;
    var d := Div(x, m);
    if d < q { Times(d + 1, q, m); }
    if q < d { Times(q + 1, d, m); }
  }

  lemma DivAtLeast(x: nat, m: nat, q: nat)
    requires m > 0 && q * m <= x
    ensures Div(x, m) >= q
  {
    hide Div;
    var d := Div(x, m);
    if d < q { Times(d + 1, q, m); }
  }

  // ----- Storage mass -----

  /** Hundreds of bytes an unspent output takes, rounded up. */
  function UtxoPlurality(scriptLen: nat, hasCovenantId: bool): (units: nat)
    ensures units <= scriptLen + 2
  {
    (63 + scriptLen + (if hasCovenantId then 32 else 0) + 99) / 100
  }

  function PluralityTotal(entries: seq<Entry>, total: uint64): Result<uint64, PriceError>
    decreases entries
  {
    if entries == [] then Ok(total)
    else
      var next :- Checked(total + entries[0].plurality);
      PluralityTotal(entries[1..], next)
  }

  function AmountTotal(entries: seq<Entry>, total: uint64): Result<uint64, PriceError>
    decreases entries
  {
    if entries == [] then Ok(total)
    else
      var next :- Checked(total + entries[0].amount);
      AmountTotal(entries[1..], next)
  }

  function StorageMassTerm(e: Entry): Result<uint64, PriceError> {
    var once :- Checked(STORAGE_MASS_C * e.plurality);
    var twice :- Checked(once * e.plurality);
    Ok(Div(twice, Max(e.amount, 1)))
  }

  function HarmonicMass(entries: seq<Entry>, total: uint64): Result<uint64, PriceError>
    decreases entries
  {
    if entries == [] then Ok(total)
    else
      var term :- StorageMassTerm(entries[0]);
      var next :- Checked(total + term);
      HarmonicMass(entries[1..], next)
  }

  function ArithmeticInputMass(ins: seq<Entry>, plurality: uint64): Result<uint64, PriceError> {
    var sum :- AmountTotal(ins, 0);
    Checked(plurality * Div(STORAGE_MASS_C, Max(Div(sum, Max(plurality, 1)), 1)))
  }

  predicate UsesRelaxedStorageMass(inputs: nat, outputs: nat) {
    inputs == 1 || outputs == 1 || (inputs == 2 && outputs == 2)
  }

  function StorageMassEstimate(ins: seq<Entry>, outs: seq<Entry>): Result<uint64, PriceError> {
    var outputs :- PluralityTotal(outs, 0);
    var inputs :- PluralityTotal(ins, 0);
    var harmonic :- HarmonicMass(outs, 0);
    var input :- if UsesRelaxedStorageMass(inputs, outputs) then HarmonicMass(ins, 0) else ArithmeticInputMass(ins, inputs);
    Ok(if harmonic >= input then harmonic - input else 0)
  }

  // ----- Pricing -----

  datatype Thread = Thread(amount: uint64, minimumFee: uint64, feeRate: uint64)

  function MassFee(mass: nat, rate: nat): nat {
    mass * rate
  }

  /** The fee of withdrawing `withdraw`, or a refusal. */
  function Calculate(t: Thread, withdraw: uint64): (r: Result<uint64, PriceError>)
    ensures r.Ok? ==> r.value >= t.minimumFee
  {
    var left := t.amount - withdraw - t.minimumFee;
    if left <= 0 || withdraw == 0 then Ok(t.minimumFee)
    else
      var covenant := UtxoPlurality(COVENANT_SCRIPT_LEN, true);
      var storage :- StorageMassEstimate([Entry(t.amount, covenant)],
                                         [Entry(withdraw, UtxoPlurality(PAYOUT_SCRIPT_LEN, false)), Entry(left, covenant)]);
      if storage > MAX_STORAGE_MASS then Err(RemainderTooSmall)
      else
        var fee :- Checked(MassFee(Max(storage, COMPUTE_MASS), t.feeRate));
        Ok(Max(fee, t.minimumFee))
  }

  predicate LeavesReturn(t: Thread, withdraw: uint64, minimumReturn: uint64) {
    var priced := Calculate(t, withdraw);
    priced.Ok? && withdraw + priced.value + minimumReturn <= t.amount
  }

  function SaturatingSub(a: uint64, b: uint64): uint64 {
    if b <= a then a - b else 0
  }

  function Ceiling(t: Thread, cap: uint64, minimumReturn: uint64): uint64 {
    var most := SaturatingSub(SaturatingSub(t.amount, minimumReturn), t.minimumFee);
    if most <= cap then most else cap
  }

  /** The amounts the search may answer with. */
  predicate Fits(t: Thread, cap: uint64, minimumReturn: uint64, withdraw: nat) {
    withdraw <= Ceiling(t, cap, minimumReturn) && LeavesReturn(t, withdraw, minimumReturn)
  }

  // ----- The search -----

  lemma Pow64()
    ensures Pow2(64) == 0x1_0000_0000_0000_0000
  {
    assert Pow2(8) == 0x100;
    assert Pow2(16) == 0x1_0000;
    assert Pow2(24) == 0x100_0000;
    assert Pow2(32) == 0x1_0000_0000;
    assert Pow2(40) == 0x100_0000_0000;
    assert Pow2(48) == 0x1_0000_0000_0000;
    assert Pow2(56) == 0x100_0000_0000_0000;
  }

  /** `x` with its `k` low bits cleared. */
  function Prefix(x: nat, k: nat): nat {
    if k == 0 then x else 2 * Prefix(x / 2, k - 1)
  }

  /** Every nonzero bit prefix of `x` fits. */
  ghost predicate PrefixesFit(fits: nat -> bool, x: nat, k: nat) {
    forall j :: 0 <= j < k && Prefix(x, j) != 0 ==> fits(Prefix(x, j))
  }

  /** Fixes the `k` low bits from the top. */
  function Search(fits: nat -> bool, best: nat, k: nat): nat
    decreases k
  {
    if k == 0 then best
    else
      var candidate := best + Pow2(k - 1);
      Search(fits, if fits(candidate) then candidate else best, k - 1)
  }

  function Fitting(t: Thread, cap: uint64, minimumReturn: uint64): nat -> bool {
    (x: nat) => Fits(t, cap, minimumReturn, x)
  }

  /** The amount the source answers with. */
  function MaximumWithdraw(t: Thread, cap: uint64, minimumReturn: uint64): nat {
    Search(Fitting(t, cap, minimumReturn), 0, 64)
  }

  method FindMaximumWithdraw(t: Thread, cap: uint64, minimumReturn: uint64) returns (best: nat)
    ensures best == MaximumWithdraw(t, cap, minimumReturn)
  {
    hide LeavesReturn, Ceiling, Pow2, Search, MaximumWithdraw;
    assert Search(Fitting(t, cap, minimumReturn), 0, 64) == MaximumWithdraw(t, cap, minimumReturn) by { SearchMeans(t, cap, minimumReturn); }
    var ceiling := Ceiling(t, cap, minimumReturn);
    best := 0;
    ghost var fits := Fitting(t, cap, minimumReturn);
    for bit := 64 downto 0
      invariant Search(fits, best, bit) == MaximumWithdraw(t, cap, minimumReturn)
    {
      SearchStep(fits, best, bit + 1);
      var candidate := best + Pow2(bit);
      if candidate <= ceiling && LeavesReturn(t, candidate, minimumReturn) {
        best := candidate;
      }
    }
    SearchDone(fits, best);
  }

  lemma SearchMeans(t: Thread, cap: uint64, minimumReturn: uint64)
    ensures MaximumWithdraw(t, cap, minimumReturn) == Search(Fitting(t, cap, minimumReturn), 0, 64)
  {
  }

  lemma SearchStep(fits: nat -> bool, best: nat, k: nat)
    requires k > 0
    ensures Search(fits, best, k) == Search(fits, if fits(best + Pow2(k - 1)) then best + Pow2(k - 1) else best, k - 1)
  {
  }

  lemma SearchDone(fits: nat -> bool, best: nat)
    ensures Search(fits, best, 0) == best
  {
  }

  // ----- What any search of this kind finds -----

  lemma {:induction false} PrefixBounds(x: nat, k: nat)
    ensures Prefix(x, k) <= x < Prefix(x, k) + Pow2(k)
  {
    if k > 0 { PrefixBounds(x / 2, k - 1); }
  }

  /** Prefixes nest. */
  lemma {:induction false} PrefixStep(x: nat, k: nat)
    ensures Prefix(x, k) == Prefix(x, k + 1) || Prefix(x, k) == Prefix(x, k + 1) + Pow2(k)
  {
    if k == 0 {
      assert Prefix(x, 1) == 2 * Prefix(x / 2, 0) == 2 * (x / 2);
    } else {
      PrefixStep(x / 2, k - 1);
    }
  }

  lemma {:induction false} SmallPrefix(x: nat, k: nat)
    requires x < Pow2(k)
    ensures Prefix(x, k) == 0
  {
    if k > 0 { SmallPrefix(x / 2, k - 1); }
  }

  /** With its `k` low bits clear. */
  predicate Clear(x: nat, k: nat) {
    Prefix(x, k) == x
  }

  lemma {:induction false} ClearHalf(best: nat, k: nat)
    requires Clear(best, k + 1)
    ensures Clear(best, k) && Clear(best + Pow2(k), k)
  {
    if k > 0 {
      assert best == 2 * Prefix(best / 2, k);
      ClearHalf(best / 2, k - 1);
      assert (best + Pow2(k)) / 2 == best / 2 + Pow2(k - 1);
    }
  }

  lemma {:induction false} ParentOf(r: nat, k: nat, best: nat)
    requires Clear(best, k + 1) && (Prefix(r, k) == best || Prefix(r, k) == best + Pow2(k))
    ensures Prefix(r, k + 1) == best
  {
    if k == 0 {
      assert Prefix(best, 1) == 2 * Prefix(best / 2, 0) == 2 * (best / 2);
      assert Prefix(r, 1) == 2 * Prefix(r / 2, 0) == 2 * (r / 2);
    } else {
      assert best == 2 * Prefix(best / 2, k);
      ParentOf(r / 2, k - 1, best / 2);
    }
  }

  lemma {:induction false} BelowClear(y: nat, k: nat, best: nat)
    requires Clear(best, k) && Prefix(y, k) < best
    ensures y < best
  {
    if k > 0 {
      assert best == 2 * Prefix(best / 2, k - 1);
      BelowClear(y / 2, k - 1, best / 2);
    }
  }

  /** The answer keeps what was fixed, and everything fixed on the way fits. */
  lemma {:induction false} SearchFits(fits: nat -> bool, best: nat, k: nat)
    requires Clear(best, k) && (best == 0 || fits(best))
    ensures var r := Search(fits, best, k);
            Prefix(r, k) == best && (r == 0 || fits(r)) && PrefixesFit(fits, r, k)
    decreases k
  {
    if k > 0 {
      hide Prefix;
      var candidate := best + Pow2(k - 1);
      var next := if fits(candidate) then candidate else best;
      ClearHalf(best, k - 1);
      SearchFits(fits, next, k - 1);
      ParentOf(Search(fits, next, k - 1), k - 1, best);
    }
  }

  /** No amount whose prefixes all fit is larger than the answer. */
  lemma {:induction false} SearchIsGreatest(fits: nat -> bool, best: nat, k: nat, y: nat)
    requires Clear(best, k) && Prefix(y, k) <= best && PrefixesFit(fits, y, k)
    ensures y <= Search(fits, best, k)
    decreases k
  {
    if k > 0 {
      var candidate := best + Pow2(k - 1);
      var next := if fits(candidate) then candidate else best;
      PrefixStep(y, k - 1);
      ClearHalf(best, k - 1);
      PrefixBounds(y, k - 1);
      if Prefix(y, k) < best { BelowClear(y, k, best); }
      hide Prefix;
      SearchIsGreatest(fits, next, k - 1, y);
    }
  }

  lemma {:induction false} ZeroIsClear(k: nat)
    ensures Clear(0, k)
  {
    if k > 0 { ZeroIsClear(k - 1); }
  }

  /** Exactly: the answer is the greatest 64-bit amount all of whose nonzero bit
      prefixes fit. */
  lemma SearchAnswer(fits: nat -> bool)
    ensures var r := Search(fits, 0, 64);
            && r < Pow2(64) && PrefixesFit(fits, r, 64) && (r == 0 || fits(r))
            && (forall y: nat :: y < Pow2(64) && PrefixesFit(fits, y, 64) ==> y <= r)
  {
    hide Search, Pow2, Prefix;
    ZeroIsClear(64);
    SearchFits(fits, 0, 64);
    PrefixBounds(Search(fits, 0, 64), 64);
    forall y: nat | y < Pow2(64) && PrefixesFit(fits, y, 64) ensures y <= Search(fits, 0, 64) {
      SmallPrefix(y, 64);
      SearchIsGreatest(fits, 0, 64, y);
    }
  }

  ghost predicate GreatestFit(fits: nat -> bool, x: nat) {
    fits(x) && forall y: nat :: y > x ==> !fits(y)
  }

  /** The search finds the greatest fitting amount exactly when every nonzero bit
      prefix of that amount fits too. */
  lemma FindsGreatestExactlyWhenPrefixesFit(fits: nat -> bool, greatest: nat)
    requires GreatestFit(fits, greatest) && greatest < Pow2(64)
    ensures Search(fits, 0, 64) == greatest <==> PrefixesFit(fits, greatest, 64)
  {
    SearchAnswer(fits);
    hide Search, Pow2, Prefix;
    var r := Search(fits, 0, 64);
    if PrefixesFit(fits, greatest, 64) {
      assert greatest <= r;
      assert r == 0 || fits(r);
    }
  }

  /** So a search among amounts that fit downward is exact. */
  lemma DownwardClosedIsExact(fits: nat -> bool, greatest: nat)
    requires GreatestFit(fits, greatest) && greatest < Pow2(64)
    requires forall x: nat, y: nat :: 0 < x <= y && fits(y) ==> fits(x)
    ensures Search(fits, 0, 64) == greatest
  {
    hide Search, Pow2;
    forall j | 0 <= j < 64 && Prefix(greatest, j) != 0 ensures fits(Prefix(greatest, j)) {
      PrefixBounds(greatest, j);
    }
    FindsGreatestExactlyWhenPrefixesFit(fits, greatest);
  }

  lemma {:induction false} PowGrows(j: nat, k: nat)
    requires j < k
    ensures 2 * Pow2(j) <= Pow2(k)
  {
    if j + 1 < k { PowGrows(j, k - 1); }
  }

  lemma {:induction false} PowPrefix(j: nat, k: nat)
    ensures Prefix(Pow2(j), k) == if k <= j then Pow2(j) else 0
  {
    if k > 0 {
      if j > 0 {
        PowPrefix(j - 1, k - 1);
      } else {
        ZeroIsClear(k - 1);
      }
    }
  }

  /** The place of the highest bit. */
  function TopBit(x: nat): (j: nat)
    requires x > 0
    ensures Pow2(j) <= x < 2 * Pow2(j)
  {
    if x == 1 then 0 else TopBit(x / 2) + 1
  }

  lemma {:induction false} TopPrefix(x: nat, j: nat)
    requires Pow2(j) <= x < 2 * Pow2(j)
    ensures Prefix(x, j) == Pow2(j)
  {
    if j > 0 { TopPrefix(x / 2, j - 1); }
  }

  lemma BitBelow(j: nat, k: nat)
    requires Pow2(j) < Pow2(k)
    ensures j < k
  {
    if j > k { PowGrows(k, j); }
  }

  lemma PowerFits(fits: nat -> bool, j: nat)
    requires j < 64 && fits(Pow2(j))
    ensures Search(fits, 0, 64) != 0
  {
    PowerIsBelowAnswer(fits, j);
  }

  /** The search gives up, answering zero, exactly when no power of two fits. */
  lemma ZeroExactlyWhenNoPowerFits(fits: nat -> bool)
    ensures Search(fits, 0, 64) == 0 <==> (forall j :: 0 <= j < 64 ==> !fits(Pow2(j)))
  {
    hide Search, Pow2;
    forall j | 0 <= j < 64 && fits(Pow2(j)) ensures Search(fits, 0, 64) != 0 {
      PowerFits(fits, j);
    }
    if Search(fits, 0, 64) != 0 {
      var j := AnswerTopPower(fits);
    }
  }

  lemma {:induction false} PrefixAtLeastTop(x: nat, k: nat)
    requires Prefix(x, k) != 0
    ensures x > 0 && Pow2(TopBit(x)) <= Prefix(x, k) <= x
  {
    PrefixBounds(x, k);
    if k > 0 {
      PrefixAtLeastTop(x / 2, k - 1);
      assert TopBit(x) == TopBit(x / 2) + 1;
    }
  }

  /** Everything from the highest power of two in `high` up to `high` fits. */
  ghost predicate FitsFromTopPower(fits: nat -> bool, high: nat)
    requires high > 0
  {
    forall x: nat :: Pow2(TopBit(high)) <= x <= high ==> fits(x)
  }

  /** Then the answer is at least `high`. */
  lemma SearchReaches(fits: nat -> bool, high: nat)
    requires 0 < high < Pow2(64) && FitsFromTopPower(fits, high)
    ensures high <= Search(fits, 0, 64)
  {
    SearchAnswer(fits);
    hide Search, Pow2, TopBit, Prefix;
    forall k | 0 <= k < 64 && Prefix(high, k) != 0 ensures fits(Prefix(high, k)) {
      PrefixAtLeastTop(high, k);
    }
    assert PrefixesFit(fits, high, 64);
  }

  /** Where nothing above `bound` fits, the answer is `bound` exactly when every
      nonzero bit prefix of `bound` fits. */
  lemma SearchReachesBoundExactly(fits: nat -> bool, bound: nat)
    requires bound < Pow2(64) && forall x: nat :: fits(x) ==> x <= bound
    ensures Search(fits, 0, 64) == bound <==> PrefixesFit(fits, bound, 64)
  {
    SearchAnswer(fits);
    hide Search, Pow2, Prefix;
    if PrefixesFit(fits, bound, 64) { assert bound <= Search(fits, 0, 64); }
  }

  /** The highest power of two in the answer is the highest one that fits. */
  lemma SearchFindsThePower(fits: nat -> bool, j: nat)
    requires j < 64 && fits(Pow2(j)) && forall k :: j < k < 64 ==> !fits(Pow2(k))
    ensures Pow2(j) <= Search(fits, 0, 64) < Pow2(j + 1)
  {
    hide Search, Pow2;
    PowerIsBelowAnswer(fits, j);
    var k := AnswerTopPower(fits);
    if j < k { assert false; }
    if k < j { PowGrows(k + 1, j + 1); }
  }

  lemma PowerIsBelowAnswer(fits: nat -> bool, j: nat)
    requires j < 64 && fits(Pow2(j))
    ensures Pow2(j) <= Search(fits, 0, 64)
  {
    SearchAnswer(fits);
    hide Search, Pow2, Prefix;
    PowGrows(j, 64);
    forall k | 0 <= k < 64 && Prefix(Pow2(j), k) != 0 ensures fits(Prefix(Pow2(j), k)) {
      PowPrefix(j, k);
    }
    assert PrefixesFit(fits, Pow2(j), 64);
  }

  lemma AnswerPrefixFits(fits: nat -> bool)
    ensures Search(fits, 0, 64) < Pow2(64) && PrefixesFit(fits, Search(fits, 0, 64), 64)
  {
    SearchAnswer(fits);
  }

  lemma AnswerTopPower(fits: nat -> bool) returns (k: nat)
    requires Search(fits, 0, 64) != 0
    ensures k < 64 && fits(Pow2(k)) && Search(fits, 0, 64) < Pow2(k + 1)
  {
    hide Search, Pow2, Prefix;
    AnswerPrefixFits(fits);
    var r := Search(fits, 0, 64);
    k := TopBit(r);
    PowGrows(k, k + 1);
    BitBelow(k, 64);
    TopPrefix(r, k);
    assert fits(Prefix(r, k));
  }

  // ----- Withdrawals -----

  lemma CeilingIsCapped(t: Thread, cap: uint64, minimumReturn: uint64)
    ensures Ceiling(t, cap, minimumReturn) <= cap
  {
  }

  /** A non-zero answer is within the cap, and its priced fee leaves what must
      stay in the covenant. */
  lemma AnswerIsSafe(t: Thread, cap: uint64, minimumReturn: uint64)
    ensures var w := MaximumWithdraw(t, cap, minimumReturn);
            w != 0 ==> w <= cap && LeavesReturn(t, w, minimumReturn)
  {
    hide LeavesReturn, Ceiling, Search, Pow2;
    CeilingIsCapped(t, cap, minimumReturn);
    SearchAnswer(Fitting(t, cap, minimumReturn));
  }

  /** The answer is the greatest withdrawal that fits exactly when every nonzero
      bit prefix of that withdrawal fits as well. */
  lemma AnswerIsGreatestExactlyWhenPrefixesFit(t: Thread, cap: uint64, minimumReturn: uint64, greatest: nat)
    requires GreatestFit(Fitting(t, cap, minimumReturn), greatest)
    ensures MaximumWithdraw(t, cap, minimumReturn) == greatest <==> PrefixesFit(Fitting(t, cap, minimumReturn), greatest, 64)
  {
    hide LeavesReturn, Ceiling, Search, MaximumWithdraw, Pow2;
    Pow64();
    var fits := Fitting(t, cap, minimumReturn);
    SearchMeans(t, cap, minimumReturn);
    assert fits(greatest);
    FindsGreatestExactlyWhenPrefixesFit(fits, greatest);
  }

  /** The mass of a withdrawal that leaves something, in closed form. */
  function StorageMass(amount: uint64, withdraw: uint64, left: uint64): nat
    requires withdraw > 0 && left > 0
  {
    var outputs := Div(STORAGE_MASS_C, withdraw) + Div(4 * STORAGE_MASS_C, left);
    var input := 2 * Div(STORAGE_MASS_C, Max(amount / 2, 1));
    if outputs >= input then outputs - input else 0
  }

  lemma EstimateIsStorageMass(amount: uint64, withdraw: uint64, left: uint64)
    requires withdraw > 0 && left > 0
    ensures StorageMassEstimate([Entry(amount, 2)], [Entry(withdraw, 1), Entry(left, 2)]) == Ok(StorageMass(amount, withdraw, left))
  {
    var ins, outs := [Entry(amount, 2)], [Entry(withdraw, 1), Entry(left, 2)];
    assert ins[1..] == [] && outs[1..] == [Entry(left, 2)] && outs[1..][1..] == [];
    assert PluralityTotal(outs[1..], 1) == Ok(3) && PluralityTotal(ins, 0) == Ok(2) && AmountTotal(ins, 0) == Ok(amount);
    DivIs(amount, 2, amount / 2);
    hide Div;
    var first, second := Div(STORAGE_MASS_C, withdraw), Div(4 * STORAGE_MASS_C, left);
    assert StorageMassTerm(outs[0]) == Ok(first) && StorageMassTerm(Entry(left, 2)) == Ok(second);
    assert HarmonicMass([], first + second) == Ok(first + second);
    assert HarmonicMass(outs[1..], first) == Ok(first + second);
    assert HarmonicMass(outs, 0) == Ok(first + second);
  }

  /** The price in closed form. */
  lemma Price(t: Thread, withdraw: uint64)
    ensures var left := t.amount - withdraw - t.minimumFee;
            Calculate(t, withdraw) ==
              if left <= 0 || withdraw == 0 then Ok(t.minimumFee)
              else if StorageMass(t.amount, withdraw, left) > MAX_STORAGE_MASS then Err(RemainderTooSmall)
              else if MassFee(Max(StorageMass(t.amount, withdraw, left), COMPUTE_MASS), t.feeRate) > MAX_UINT64 then Err(OutOfRange)
              else Ok(Max(MassFee(Max(StorageMass(t.amount, withdraw, left), COMPUTE_MASS), t.feeRate), t.minimumFee))
  {
    var left := t.amount - withdraw - t.minimumFee;
    if left > 0 && withdraw > 0 {
      EstimateIsStorageMass(t.amount, withdraw, left);
      hide StorageMassEstimate, StorageMass;
    }
  }

  // ----- What a caller can tell before the call -----

  /** The answer is the whole ceiling exactly when every nonzero bit prefix of the
      ceiling fits. */
  lemma AnswerIsCeilingExactly(t: Thread, cap: uint64, minimumReturn: uint64)
    ensures MaximumWithdraw(t, cap, minimumReturn) == Ceiling(t, cap, minimumReturn) <==>
            PrefixesFit(Fitting(t, cap, minimumReturn), Ceiling(t, cap, minimumReturn), 64)
  {
    hide LeavesReturn, Ceiling, Search, MaximumWithdraw, Pow2;
    Pow64();
    SearchMeans(t, cap, minimumReturn);
    SearchReachesBoundExactly(Fitting(t, cap, minimumReturn), Ceiling(t, cap, minimumReturn));
  }

  /** The answer has the same highest power of two as the largest power that fits. */
  lemma AnswerIsBetweenPowers(t: Thread, cap: uint64, minimumReturn: uint64, j: nat)
    requires j < 64 && Fits(t, cap, minimumReturn, Pow2(j))
    requires forall k :: j < k < 64 ==> !Fits(t, cap, minimumReturn, Pow2(k))
    ensures Pow2(j) <= MaximumWithdraw(t, cap, minimumReturn) < Pow2(j + 1)
  {
    hide LeavesReturn, Ceiling, Search, MaximumWithdraw, Pow2;
    SearchMeans(t, cap, minimumReturn);
    SearchFindsThePower(Fitting(t, cap, minimumReturn), j);
  }

  /** A bound on the storage mass of every withdrawal from `low` to `high`: what
      the payout costs at its smallest and the remainder at its smallest. */
  function MassBound(t: Thread, low: uint64, high: uint64): nat
    requires low > 0 && high + t.minimumFee < t.amount
  {
    var outputs := Div(STORAGE_MASS_C, low) + Div(4 * STORAGE_MASS_C, t.amount - high - t.minimumFee);
    var input := 2 * Div(STORAGE_MASS_C, Max(t.amount / 2, 1));
    if outputs >= input then outputs - input else 0
  }

  /** The fee at that bound. */
  function FeeBound(t: Thread, low: uint64, high: uint64): nat
    requires low > 0 && high + t.minimumFee < t.amount
  {
    Max(MassFee(Max(MassBound(t, low, high), COMPUTE_MASS), t.feeRate), t.minimumFee)
  }

  /** At both ends of the range the price is affordable. */
  predicate Affordable(t: Thread, minimumReturn: uint64, low: uint64, high: uint64) {
    && 0 < low <= high && high + t.minimumFee < t.amount
    && MassBound(t, low, high) <= MAX_STORAGE_MASS
    && FeeBound(t, low, high) <= MAX_UINT64
    && high + FeeBound(t, low, high) + minimumReturn <= t.amount
  }

  lemma DivFalls(x: nat, m: nat, n: nat)
    requires 0 < m <= n
    ensures Div(x, n) <= Div(x, m)
  {
    hide Div;
    Times(m, n, Div(x, n));
    DivAtLeast(x, m, Div(x, n));
  }

  lemma MassIsBounded(t: Thread, low: uint64, high: uint64, w: uint64)
    requires 0 < low <= w <= high && high + t.minimumFee < t.amount
    ensures StorageMass(t.amount, w, t.amount - w - t.minimumFee) <= MassBound(t, low, high)
  {
    hide Div;
    DivFalls(STORAGE_MASS_C, low, w);
    DivFalls(4 * STORAGE_MASS_C, t.amount - high - t.minimumFee, t.amount - w - t.minimumFee);
  }

  /** Then everything between is affordable too. */
  lemma RangeFits(t: Thread, cap: uint64, minimumReturn: uint64, low: uint64, high: uint64, w: uint64)
    requires Affordable(t, minimumReturn, low, high) && low <= w <= high <= Ceiling(t, cap, minimumReturn)
    ensures Fits(t, cap, minimumReturn, w)
  {
    hide Ceiling, Calculate, StorageMass, MassBound, MassFee;
    Price(t, w);
    MassIsBounded(t, low, high, w);
    FeeGrows(Max(StorageMass(t.amount, w, t.amount - w - t.minimumFee), COMPUTE_MASS),
             Max(MassBound(t, low, high), COMPUTE_MASS), t.feeRate);
  }

  lemma FeeGrows(m: nat, n: nat, rate: nat)
    requires m <= n
    ensures MassFee(m, rate) <= MassFee(n, rate)
  {
    Times(m, n, rate);
  }

  /** A sufficient condition in closed form: when the price is affordable at both
      ends of the range from the highest power of two in `high` to `high`, the
      answer is at least `high`; for the ceiling, it is the ceiling. */
  lemma AnswerReaches(t: Thread, cap: uint64, minimumReturn: uint64, high: uint64)
    requires 0 < high <= Ceiling(t, cap, minimumReturn)
    requires Affordable(t, minimumReturn, Pow2(TopBit(high)), high)
    ensures high <= MaximumWithdraw(t, cap, minimumReturn) <= Ceiling(t, cap, minimumReturn)
  {
    hide LeavesReturn, Ceiling, Search, MaximumWithdraw, Pow2, Affordable, TopBit;
    Pow64();
    SearchMeans(t, cap, minimumReturn);
    var fits := Fitting(t, cap, minimumReturn);
    forall x: nat | Pow2(TopBit(high)) <= x <= high ensures fits(x) {
      RangeFits(t, cap, minimumReturn, Pow2(TopBit(high)), high, x);
    }
    SearchReaches(fits, high);
    SearchAnswer(fits);
  }

  /** Fitting is not monotone: of ten billion sompi a large withdrawal fits where
      a single sompi does not. */
  lemma FittingIsNotMonotone()
    ensures var t := Thread(10_000_000_000, 1_000, 1);
            Fits(t, MAX_UINT64, 1_000, 500_000_000) && !Fits(t, MAX_UINT64, 1_000, 1)
  {
    hide Calculate, Div;
    var t := Thread(10_000_000_000, 1_000, 1);
    Price(t, 500_000_000);
    Price(t, 1);
    DivIs(STORAGE_MASS_C, 5_000_000_000, 200);
    DivIs(STORAGE_MASS_C, 500_000_000, 2_000);
    DivIs(4 * STORAGE_MASS_C, 9_499_999_000, 421);
    DivIs(STORAGE_MASS_C, 1, STORAGE_MASS_C);
  }

  const SMALL_THREAD: Thread := Thread(10_200_000, 1_000, 1)

  lemma SmallThreadMass(withdraw: uint64)
    requires 0 < withdraw < 10_199_000
    ensures var outputs := Div(STORAGE_MASS_C, withdraw) + Div(4 * STORAGE_MASS_C, 10_199_000 - withdraw);
            StorageMass(10_200_000, withdraw, 10_199_000 - withdraw) == if outputs >= 392_156 then outputs - 392_156 else 0
  {
    hide Div;
    DivIs(STORAGE_MASS_C, 5_100_000, 196_078);
  }

  lemma SmallThreadRefuses(withdraw: uint64)
    requires 0 < withdraw < 10_199_000
    requires Div(STORAGE_MASS_C, withdraw) + Div(4 * STORAGE_MASS_C, 10_199_000 - withdraw) > 892_156
    ensures !LeavesReturn(SMALL_THREAD, withdraw, 1_000)
  {
    hide Calculate, Div, StorageMass;
    Price(SMALL_THREAD, withdraw);
    SmallThreadMass(withdraw);
  }

  /** At most `2^20` the payout is too small to store, from `2^22` on the
      remainder, and at `2^21` both together. */
  lemma NoPowerFits(j: nat)
    ensures !Fits(SMALL_THREAD, MAX_UINT64, 1_000, Pow2(j))
  {
    hide Div, LeavesReturn;
    SomePowers();
    if j <= 20 {
      if j < 20 { PowGrows(j, 20); }
      var w := Pow2(j);
      hide Pow2;
      Times(w, 1_048_576, 900_000);
      DivAtLeast(STORAGE_MASS_C, w, 900_000);
      SmallThreadRefuses(w);
    } else if j == 21 {
      DivAtLeast(STORAGE_MASS_C, 2_097_152, 476_837);
      DivAtLeast(4 * STORAGE_MASS_C, 8_101_848, 493_714);
      SmallThreadRefuses(2_097_152);
    } else if j == 22 {
      DivAtLeast(STORAGE_MASS_C, 4_194_304, 238_418);
      DivAtLeast(4 * STORAGE_MASS_C, 6_004_696, 666_145);
      SmallThreadRefuses(4_194_304);
    } else if j == 23 {
      DivAtLeast(4 * STORAGE_MASS_C, 1_810_392, 2_000_000);
      SmallThreadRefuses(8_388_608);
    } else {
      if j > 24 { PowGrows(24, j); }
    }
  }

  lemma SomePowers()
    ensures Pow2(20) == 1_048_576 && Pow2(21) == 2_097_152 && Pow2(22) == 4_194_304
    ensures Pow2(23) == 8_388_608 && Pow2(24) == 16_777_216
  {
    assert Pow2(6) == 64;
    assert Pow2(12) == 4_096;
    assert Pow2(18) == 262_144;
  }

  /** And the answer can miss every fit: here no power of two fits, so the search
      reports that nothing can be withdrawn, while 3,300,000 sompi can. */
  lemma AnswerCanMissEveryFit()
    ensures Fits(SMALL_THREAD, MAX_UINT64, 1_000, 3_300_000) && MaximumWithdraw(SMALL_THREAD, MAX_UINT64, 1_000) == 0
  {
    hide Calculate, Div, Pow2, Search;
    Price(SMALL_THREAD, 3_300_000);
    SmallThreadMass(3_300_000);
    DivIs(STORAGE_MASS_C, 3_300_000, 303_030);
    DivIs(4 * STORAGE_MASS_C, 6_899_000, 579_794);
    var fits := Fitting(SMALL_THREAD, MAX_UINT64, 1_000);
    forall j | 0 <= j < 64 ensures !fits(Pow2(j)) {
      NoPowerFits(j);
    }
    ZeroExactlyWhenNoPowerFits(fits);
  }

  /** Nor do the amounts that fit form one stretch: between two that do lies one
      that does not, where the two quotients of the mass round apart. */
  lemma FittingHasGaps()
    ensures Fits(SMALL_THREAD, MAX_UINT64, 1_000, 2_916_048) && Fits(SMALL_THREAD, MAX_UINT64, 1_000, 3_300_000)
    ensures !Fits(SMALL_THREAD, MAX_UINT64, 1_000, 2_916_051)
  {
    hide Calculate, Div;
    Price(SMALL_THREAD, 2_916_048);
    SmallThreadMass(2_916_048);
    DivIs(STORAGE_MASS_C, 2_916_048, 342_929);
    DivIs(4 * STORAGE_MASS_C, 7_282_952, 549_227);
    Price(SMALL_THREAD, 3_300_000);
    SmallThreadMass(3_300_000);
    DivIs(STORAGE_MASS_C, 3_300_000, 303_030);
    DivIs(4 * STORAGE_MASS_C, 6_899_000, 579_794);
    DivIs(STORAGE_MASS_C, 2_916_051, 342_929);
    DivIs(4 * STORAGE_MASS_C, 7_282_949, 549_228);
    SmallThreadRefuses(2_916_051);
  }

  lemma TopBitIs(x: nat, k: nat)
    requires Pow2(k) <= x < 2 * Pow2(k)
    ensures x > 0 && TopBit(x) == k
  {
    hide Pow2, TopBit;
    var j := TopBit(x);
    if j < k {
      PowGrows(j, k);
    } else if k < j {
      PowGrows(k, j);
    }
  }

  /** A thread of a hundred kaspa that keeps one and can pay for its storage gives
      the whole ceiling. */
  lemma ALargeThreadGivesItsCeiling()
    ensures MaximumWithdraw(Thread(10_000_000_000, 50_000, 1), MAX_UINT64, 100_000_000) == 9_899_950_000
  {
    var t := Thread(10_000_000_000, 50_000, 1);
    hide MaximumWithdraw, Div, TopBit;
    assert Pow2(33) == 8_589_934_592 by {
      assert Pow2(8) == 0x100;
      assert Pow2(16) == 0x1_0000;
      assert Pow2(24) == 0x100_0000;
    }
    TopBitIs(9_899_950_000, 33);
    hide Pow2;
    DivIs(STORAGE_MASS_C, 8_589_934_592, 116);
    DivIs(4 * STORAGE_MASS_C, 100_000_000, 40_000);
    DivIs(STORAGE_MASS_C, 5_000_000_000, 200);
    AnswerReaches(t, MAX_UINT64, 100_000_000, 9_899_950_000);
  }
}
