/** The pure logic of the liquidity panel of a two-token AMM pool: which
    state the pool is in, the exact integer preview of a withdrawal, the
    checks that gate the add and remove submissions, and the conditions
    under which the action buttons are offered. Floating-point arithmetic
    and number formatting are not modelled; their results enter as
    parameters. */
module PoolMath {

  datatype Option<+T> = None | Some(value: T)

  /** The LP (liquidity) token always has 18 decimals. */
  const LP_DECIMALS: nat := 18
  /** Decimals assumed for token A and token B while (or if) the token does not report its own. */
  const DEFAULT_DECIMALS_A: nat := 18
  const DEFAULT_DECIMALS_B: nat := 6

  /** The number parsing the panel relies on, taken as given:
      `isPositive(s)` stands for `parseFloat(s) > 0` and `parseUnits(s, d)`
      for the decimal string `s` scaled by 10^d into an integer. Both are
      total: a string that `parseUnits` rejects by throwing is outside the
      model. */
  datatype Units = Units(isPositive: string -> bool, parseUnits: (string, nat) -> int)

  /** One snapshot of what the panel reads from the chain. Reserves, the
      total supply and the user's liquidity read as 0 while they are not
      loaded; allowances and decimals keep "not loaded" apart from 0
      because the panel treats the two alike only through truthiness. */
  datatype Ledger = Ledger(
    reserveA: nat, reserveB: nat, totalLiquidity: nat,
    userLiquidity: nat,
    allowanceA: Option<nat>, allowanceB: Option<nat>,
    decimalsA: Option<nat>, decimalsB: Option<nat>)

  // ---------------------------------------------------------------------
  // Pool state

  /** The next deposit creates the pool: both reserves are empty. */
  predicate IsFirstTime(l: Ledger) {
    l.reserveA == 0 && l.reserveB == 0
  }

  /** Both reserves are positive, so the pool has a price. */
  predicate IsPriced(l: Ledger) {
    l.reserveA > 0 && l.reserveB > 0
  }

  /** The pool's ratio of B to A, kept as an exact fraction; the panel
      converts it to a float, which is not modelled. */
  datatype Ratio = DefaultOneToOne | ReserveQuotient(numerator: nat, denominator: nat)

  function CurrentRatio(l: Ledger): (r: Ratio)
    ensures r.DefaultOneToOne? <==> !IsPriced(l)
    ensures r.ReserveQuotient? ==>
      r.denominator > 0 && r.numerator > 0 && r.numerator * l.reserveA == l.reserveB * r.denominator
  {
    if IsPriced(l) then ReserveQuotient(l.reserveB, l.reserveA) else DefaultOneToOne
  }

  /** Exactly one of: first time, priced, one-sided; a one-sided pool gets
      the default ratio although it is not a first deposit. */
  lemma PoolStates(l: Ledger)
    ensures IsFirstTime(l) ==> !IsPriced(l)
    ensures !IsFirstTime(l) && !IsPriced(l) <==> (l.reserveA == 0) != (l.reserveB == 0)
    ensures (l.reserveA == 0) != (l.reserveB == 0) ==> CurrentRatio(l) == DefaultOneToOne
  {
  }

  /** `decimals || default`: a token that reports 0 decimals is treated
      as if it had reported nothing. */
  function DecimalsOr(read: Option<nat>, default: nat): (d: nat)
    ensures read.Some? && read.value != 0 ==> d == read.value
    ensures read.None? || read.value == 0 ==> d == default
  {
    match read
    case Some(v) => if v != 0 then v else default
    case None => default
  }

  function DecimalsA(l: Ledger): nat {
    DecimalsOr(l.decimalsA, DEFAULT_DECIMALS_A)
  }

  function DecimalsB(l: Ledger): nat {
    DecimalsOr(l.decimalsB, DEFAULT_DECIMALS_B)
  }

  // ---------------------------------------------------------------------
  // Draft amounts and approvals

  /** A draft field holds a usable amount: it is not empty and parses to a
      positive number. */
  predicate IsValidAmount(u: Units, s: string) {
    s != "" && u.isPositive(s)
  }

  /** The scaled value of a draft field; an empty field counts as 0. */
  function ScaledOrZero(u: Units, s: string, decimals: nat): int {
    if s == "" then 0 else u.parseUnits(s, decimals)
  }

  /** An allowance is truthy when it has been read and is not 0. */
  predicate IsLoaded(allowance: Option<nat>) {
    allowance.Some? && allowance.value != 0
  }

  /** The guard of the ratio check: no diagnostic unless both amounts are
      usable; otherwise the diagnostic is the float tolerance comparison,
      which enters as `outOfTolerance`. */
  function ValidateRatio(u: Units, amountA: string, amountB: string, outOfTolerance: bool): (err: bool)
    ensures err ==> IsValidAmount(u, amountA) && IsValidAmount(u, amountB)
    ensures IsValidAmount(u, amountA) && IsValidAmount(u, amountB) ==> err == outOfTolerance
  {
    if !IsValidAmount(u, amountA) || !IsValidAmount(u, amountB) then false else outOfTolerance
  }

  // ---------------------------------------------------------------------
  // Submission gates

  /** The verdict of a gate: pass, or the first check that failed. */
  datatype Gate<+E> = Pass | Fail(reason: E)

  datatype AddRejection = EnterValidAmounts | MatchPoolRatio
  datatype RemoveRejection = EnterValidAmount | InsufficientLiquidity

  /** The checks of the add-liquidity handler, in order. */
  function AddGate(u: Units, amountA: string, amountB: string, firstTime: bool, ratioError: bool): Gate<AddRejection> {
    if !IsValidAmount(u, amountA) || !IsValidAmount(u, amountB) then Fail(EnterValidAmounts)
    else if !firstTime && ratioError then Fail(MatchPoolRatio)
    else Pass
  }

  /** The add gate passes exactly for two usable amounts that are either a
      first deposit or carry no ratio diagnostic; unusable amounts are
      rejected whatever the diagnostic says; a first deposit is never
      rejected for its ratio. */
  lemma AddGateVerdicts(u: Units, amountA: string, amountB: string, firstTime: bool, ratioError: bool)
    ensures AddGate(u, amountA, amountB, firstTime, ratioError) == Pass <==>
      IsValidAmount(u, amountA) && IsValidAmount(u, amountB) && (firstTime || !ratioError)
    ensures !IsValidAmount(u, amountA) || !IsValidAmount(u, amountB) ==>
      AddGate(u, amountA, amountB, firstTime, ratioError) == Fail(EnterValidAmounts)
    ensures AddGate(u, amountA, amountB, firstTime, ratioError) == Fail(MatchPoolRatio) ==>
      !firstTime && ratioError && IsValidAmount(u, amountA) && IsValidAmount(u, amountB)
  {
  }

  /** The checks of the remove-liquidity handler, in order; the LP amount is
      scaled by the fixed 18 LP decimals. */
  function RemoveGate(u: Units, removeAmount: string, userLiquidity: nat): Gate<RemoveRejection> {
    if !IsValidAmount(u, removeAmount) then Fail(EnterValidAmount)
    else if userLiquidity < u.parseUnits(removeAmount, LP_DECIMALS) then Fail(InsufficientLiquidity)
    else Pass
  }

  /** The remove gate passes exactly for a usable amount whose scaled value
      the user's liquidity covers; an unusable amount is rejected before
      the liquidity is compared. */
  lemma RemoveGateVerdicts(u: Units, removeAmount: string, userLiquidity: nat)
    ensures RemoveGate(u, removeAmount, userLiquidity) == Pass <==>
      IsValidAmount(u, removeAmount) && u.parseUnits(removeAmount, LP_DECIMALS) <= userLiquidity
    ensures !IsValidAmount(u, removeAmount) ==> RemoveGate(u, removeAmount, userLiquidity) == Fail(EnterValidAmount)
    ensures RemoveGate(u, removeAmount, userLiquidity) == Fail(InsufficientLiquidity) ==>
      IsValidAmount(u, removeAmount) && userLiquidity < u.parseUnits(removeAmount, LP_DECIMALS)
  {
  }

  // ---------------------------------------------------------------------
  // Withdrawal preview

  /** Dafny's division of a non-negative number by a positive one is the
      floor of the quotient. */
  lemma DivIsFloor(n: int, d: int)
    requires n >= 0 && d > 0
    ensures 0 <= n / d && (n / d) * d <= n < (n / d) * d + d
  {
    assert n == (n / d) * d + n % d;
  }

  /** BigInt division: the quotient is truncated toward zero. */
  function TruncDiv(a: int, b: int): (q: int)
    requires b > 0
    ensures a >= 0 ==> 0 <= q && q * b <= a < q * b + b
    ensures a < 0 ==> q <= 0 && q * b - b < a <= q * b
  {
    if a >= 0 then
      DivIsFloor(a, b);
      a / b
    else
      var m := (-a) / b;
      DivIsFloor(-a, b);
      assert (-m) * b == -(m * b);
      -m
  }

  /** The pro-rata share of a reserve paid for burning `scaled` LP units
      out of a supply of `total`. */
  function ProRata(scaled: int, reserve: nat, total: nat): (r: int)
    requires total > 0
    ensures scaled >= 0 ==> 0 <= r && r * total <= scaled * reserve < r * total + total
  {
    TruncDiv(scaled * reserve, total)
  }

  /** The preview of one payout: 0 while the field is empty or the pool has
      no supply, else the pro-rata share of the reserve. */
  function ExpectedPayout(u: Units, removeAmount: string, reserve: nat, totalLiquidity: nat): (r: int)
    ensures removeAmount == "" || totalLiquidity == 0 ==> r == 0
    ensures removeAmount != "" && totalLiquidity > 0 ==>
      r == ProRata(u.parseUnits(removeAmount, LP_DECIMALS), reserve, totalLiquidity)
  {
    if removeAmount != "" && totalLiquidity > 0 then
      ProRata(u.parseUnits(removeAmount, LP_DECIMALS), reserve, totalLiquidity)
    else
      0
  }

  /** Multiplying by a non-negative factor keeps an inequality. */
  lemma MulMonotone(a: int, b: int, c: int)
    requires a <= b && c >= 0
    ensures a * c <= b * c
  {
    assert b * c - a * c == (b - a) * c;
  }

  /** A product with a positive factor is non-negative only if the other
      factor is. */
  lemma CancelPositive(a: int, d: int)
    requires d > 0 && a * d >= 0
    ensures a >= 0
  {
  }

  /** If q * d never exceeds x, q is at most the floor of x / d. */
  lemma FloorIsGreatest(q: int, x: int, d: int)
    requires d > 0 && x >= 0 && q * d <= x
    ensures q <= TruncDiv(x, d)
  {
    var f := TruncDiv(x, d);
    var g := f + 1 - q;
    assert g * d == (f + 1) * d - q * d;
    assert (f + 1) * d == f * d + d;
    assert g * d >= 0;
    CancelPositive(g - 1, d);
  }

  /** Burning the whole supply pays out exactly the whole reserve. */
  lemma ProRataWholeSupply(reserve: nat, total: nat)
    requires total > 0
    ensures ProRata(total, reserve, total) == reserve
  {
    var r := ProRata(total, reserve, total);
    FloorIsGreatest(reserve, total * reserve, total);
    assert (reserve - r) * total == total * reserve - r * total;
    CancelPositive(reserve - r, total);
  }

  /** Burning more never previews less. */
  lemma ProRataMonotone(s1: int, s2: int, reserve: nat, total: nat)
    requires 0 <= s1 <= s2 && total > 0
    ensures ProRata(s1, reserve, total) <= ProRata(s2, reserve, total)
  {
    MulMonotone(s1, s2, reserve);
    FloorIsGreatest(ProRata(s1, reserve, total), s2 * reserve, total);
  }

  /** Burning no more than the whole supply never pays out more than the
      whole reserve. */
  lemma ProRataWithinReserve(scaled: int, reserve: nat, total: nat)
    requires 0 <= scaled <= total && total > 0
    ensures 0 <= ProRata(scaled, reserve, total) <= reserve
  {
    ProRataMonotone(scaled, total, reserve, total);
    ProRataWholeSupply(reserve, total);
  }

  /** Rounding favours the pool: splitting one withdrawal in two never
      previews more in total than making it at once. */
  lemma ProRataSplitNoGain(s1: int, s2: int, reserve: nat, total: nat)
    requires s1 >= 0 && s2 >= 0 && total > 0
    ensures ProRata(s1, reserve, total) + ProRata(s2, reserve, total) <= ProRata(s1 + s2, reserve, total)
  {
    var q1, q2 := ProRata(s1, reserve, total), ProRata(s2, reserve, total);
    assert (q1 + q2) * total == q1 * total + q2 * total;
    assert (s1 + s2) * reserve == s1 * reserve + s2 * reserve;
    FloorIsGreatest(q1 + q2, (s1 + s2) * reserve, total);
  }

  /** A withdrawal that passed its gate, on a ledger whose user liquidity is
      part of the total supply, previews at most the reserves. */
  lemma PassedWithdrawalWithinReserves(u: Units, l: Ledger, removeAmount: string)
    requires RemoveGate(u, removeAmount, l.userLiquidity) == Pass
    requires l.userLiquidity <= l.totalLiquidity
    requires u.parseUnits(removeAmount, LP_DECIMALS) >= 0
    ensures 0 <= ExpectedPayout(u, removeAmount, l.reserveA, l.totalLiquidity) <= l.reserveA
    ensures 0 <= ExpectedPayout(u, removeAmount, l.reserveB, l.totalLiquidity) <= l.reserveB
  {
    if l.totalLiquidity > 0 {
      var s := u.parseUnits(removeAmount, LP_DECIMALS);
      ProRataWithinReserve(s, l.reserveA, l.totalLiquidity);
      ProRataWithinReserve(s, l.reserveB, l.totalLiquidity);
    }
  }

  /** The total of a withdrawal split into parts. */
  function PartsTotal(parts: seq<nat>): nat {
    if |parts| == 0 then 0 else parts[0] + PartsTotal(parts[1..])
  }

  /** The previews `preview` gives the parts of a split withdrawal, added up. */
  function PartsPreview(preview: nat -> int, parts: seq<nat>): int {
    if |parts| == 0 then 0 else preview(parts[0]) + PartsPreview(preview, parts[1..])
  }

  /** A preview that never gains from a split in two never gains from a
      split into any number of parts. */
  lemma {:induction false} SplitManyNoGain(preview: nat -> int, parts: seq<nat>)
    requires preview(0) >= 0
    requires forall s1: nat, s2: nat :: preview(s1) + preview(s2) <= preview(s1 + s2)
    ensures PartsPreview(preview, parts) <= preview(PartsTotal(parts))
  {
    if |parts| > 0 {
      SplitManyNoGain(preview, parts[1..]);
      assert preview(parts[0]) + preview(PartsTotal(parts[1..])) <= preview(parts[0] + PartsTotal(parts[1..]));
    }
  }

  /** A withdrawal split into any number of parts never previews more in
      total than the same withdrawal at once. */
  lemma ProRataSplitManyNoGain(parts: seq<nat>, reserve: nat, total: nat)
    requires total > 0
    ensures PartsPreview(s => ProRata(s, reserve, total), parts) <= ProRata(PartsTotal(parts), reserve, total)
  {
    var preview: nat -> int := s => ProRata(s, reserve, total);
    forall s1: nat, s2: nat
      ensures preview(s1) + preview(s2) <= preview(s1 + s2)
    {
      ProRataSplitNoGain(s1, s2, reserve, total);
    }
    SplitManyNoGain(preview, parts);
  }

  /** An example: reserves 1000 and 2000 against a supply of 100 preview 100
      and 200 for a burn of 10; an empty supply or an empty field previews 0. */
  lemma PayoutExample(u: Units)
    ensures ProRata(10, 1000, 100) == 100
    ensures ProRata(10, 2000, 100) == 200
    ensures ExpectedPayout(u, "10", 1000, 0) == 0
    ensures ExpectedPayout(u, "", 1000, 100) == 0
  {
  }

  // ---------------------------------------------------------------------
  // Display

  /** Balance display: an absent or zero balance shows "0.0"; any other
      balance shows its float formatting, which enters as `formatted`. */
  function FormatBalance(balance: Option<int>, formatted: string): (text: string)
    ensures balance.None? || balance.value == 0 ==> text == "0.0"
    ensures balance.Some? && balance.value != 0 ==> text == formatted
  {
    if balance.None? || balance.value == 0 then "0.0" else formatted
  }

  /** The "You will receive" preview is shown only while the LP field is
      non-empty. */
  predicate PreviewShown(removeAmount: string) {
    removeAmount != ""
  }

  /** An empty field hides the preview; a shown preview against an empty
      supply displays "0.0" on both lines. */
  lemma RemovePreview(u: Units, removeAmount: string, l: Ledger, formattedA: string, formattedB: string)
    ensures removeAmount == "" ==> !PreviewShown(removeAmount)
    ensures PreviewShown(removeAmount) && l.totalLiquidity == 0 ==>
      && FormatBalance(Some(ExpectedPayout(u, removeAmount, l.reserveA, l.totalLiquidity)), formattedA) == "0.0"
      && FormatBalance(Some(ExpectedPayout(u, removeAmount, l.reserveB, l.totalLiquidity)), formattedB) == "0.0"
  {
  }

  // ---------------------------------------------------------------------
  // Action buttons

  /** "Approve" for a token is shown while that token is not approved. */
  predicate ApproveOffered(isApproved: bool) {
    !isApproved
  }

  /** "Approve" for a token can be clicked once its amount field is filled. */
  predicate ApproveEnabled(amount: string) {
    amount != ""
  }

  /** The add button is shown once both tokens are approved. */
  predicate AddOffered(isApprovedA: bool, isApprovedB: bool) {
    isApprovedA && isApprovedB
  }

  /** The add button can be clicked with both fields filled and no ratio
      diagnostic, unless the deposit creates the pool. */
  predicate AddEnabled(amountA: string, amountB: string, firstTime: bool, ratioError: bool) {
    amountA != "" && amountB != "" && (firstTime || !ratioError)
  }

  /** The remove button can be clicked with a usable amount. */
  predicate RemoveEnabled(u: Units, removeAmount: string) {
    IsValidAmount(u, removeAmount)
  }

  /** The add button does not look at positivity: for any parser that, like
      `parseFloat`, does not read "0" as positive, the add button of a new
      pool is enabled with "0" and "1" in the fields, yet the gate rejects
      the click with "Enter valid amounts". */
  lemma EnabledAddCanBeRejected(u: Units)
    requires !u.isPositive("0")
    ensures AddEnabled("0", "1", true, false) && AddGate(u, "0", "1", true, false) == Fail(EnterValidAmounts)
  {
  }

  /** The add gate passes exactly when the add button is enabled and both
      amounts are positive: the button does not check positivity, the gate
      does. */
  lemma AddGateRefinesButton(u: Units, amountA: string, amountB: string, firstTime: bool, ratioError: bool)
    ensures AddGate(u, amountA, amountB, firstTime, ratioError) == Pass <==>
      AddEnabled(amountA, amountB, firstTime, ratioError) && u.isPositive(amountA) && u.isPositive(amountB)
  {
  }

  /** The remove button is enabled exactly when the gate's first check
      passes; only the liquidity check can still reject the click. */
  lemma RemoveGateRefinesButton(u: Units, removeAmount: string, userLiquidity: nat)
    ensures RemoveEnabled(u, removeAmount) <==> RemoveGate(u, removeAmount, userLiquidity) != Fail(EnterValidAmount)
  {
  }
}
