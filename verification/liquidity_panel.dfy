/** The liquidity panel's editing state and the handlers that change it:
    the two linked deposit fields, the withdrawal field, the approval flags
    and the ratio diagnostic. Each handler runs to completion; the write
    calls to the chain are modelled by their outcome, passed in. */
module Panel {
  import opened PoolMath

  /** What the add handler did: rejected before any write, or called the
      write with the two scaled amounts and saw it succeed or fail. */
  datatype AddOutcome =
    | AddRejected(reason: AddRejection)
    | AddSubmitted(scaledA: int, scaledB: int, succeeded: bool)

  /** What the remove handler did, likewise, with the scaled LP amount. */
  datatype RemoveOutcome =
    | RemoveRejected(reason: RemoveRejection)
    | RemoveSubmitted(scaledLp: int, succeeded: bool)

  class LiquidityPanel {
    /** The number parsing in use for the whole session. */
    const units: Units
    /** The latest snapshot read from the chain. */
    var ledger: Ledger

    // the drafts
    var amountA: string
    var amountB: string
    var removeAmount: string
    var isApprovedA: bool
    var isApprovedB: bool
    var ratioError: bool

    /** A ratio diagnostic is only ever standing against two usable amounts. */
    ghost predicate Valid()
      reads this
    {
      ratioError ==> IsValidAmount(units, amountA) && IsValidAmount(units, amountB)
    }

    /** A fresh panel: every field empty, nothing approved, no diagnostic. */
    constructor (u: Units, l: Ledger)
      ensures Valid()
      ensures units == u && ledger == l
      ensures amountA == "" && amountB == "" && removeAmount == ""
      ensures !isApprovedA && !isApprovedB && !ratioError
    {
      units := u;
      ledger := l;
      amountA, amountB, removeAmount := "", "", "";
      isApprovedA, isApprovedB, ratioError := false, false, false;
    }

    /** A refreshed snapshot replaces the previous one; no draft changes. */
    method Observe(l: Ledger)
      modifies this`ledger
      ensures ledger == l
    {
      ledger := l;
    }

    /** Typing into the A field: A takes the value and the diagnostic is
        cleared; B is cleared for an unusable value, mirrors the value in
        a pool being created, takes the proposal (the float-computed
        auto-fill) in a priced pool, and is left alone in a one-sided pool. */
    method EditA(value: string, proposedB: string)
      requires Valid()
      modifies this`amountA, this`amountB, this`ratioError
      ensures Valid()
      ensures amountA == value && !ratioError
      ensures !IsValidAmount(units, value) ==> amountB == ""
      ensures IsValidAmount(units, value) && IsFirstTime(ledger) ==> amountB == value
      ensures IsValidAmount(units, value) && IsPriced(ledger) ==> amountB == proposedB
      ensures IsValidAmount(units, value) && !IsFirstTime(ledger) && !IsPriced(ledger) ==> amountB == old(amountB)
    {
      amountA := value;
      ratioError := false;
      if value != "" {
        if units.isPositive(value) {
          if IsFirstTime(ledger) {
            amountB := value;
          } else if IsPriced(ledger) {
            amountB := proposedB;
          }
        } else {
          amountB := "";
        }
      } else {
        amountB := "";
      }
    }

    /** Typing into the B field: the mirror image of EditA. */
    method EditB(value: string, proposedA: string)
      requires Valid()
      modifies this`amountA, this`amountB, this`ratioError
      ensures Valid()
      ensures amountB == value && !ratioError
      ensures !IsValidAmount(units, value) ==> amountA == ""
      ensures IsValidAmount(units, value) && IsFirstTime(ledger) ==> amountA == value
      ensures IsValidAmount(units, value) && IsPriced(ledger) ==> amountA == proposedA
      ensures IsValidAmount(units, value) && !IsFirstTime(ledger) && !IsPriced(ledger) ==> amountA == old(amountA)
    {
      amountB := value;
      ratioError := false;
      if value != "" {
        if units.isPositive(value) {
          if IsFirstTime(ledger) {
            amountA := value;
          } else if IsPriced(ledger) {
            amountA := proposedA;
          }
        } else {
          amountA := "";
        }
      } else {
        amountA := "";
      }
    }

    /** Typing into the LP field. */
    method EditRemove(value: string)
      modifies this`removeAmount
      ensures removeAmount == value
    {
      removeAmount := value;
    }

    /** The recomputation that follows any change of the amounts, the
        allowances or the pool state. With both allowances loaded and
        non-zero, each flag says whether its allowance covers the scaled
        amount, and in a pool that is not being created the diagnostic is
        re-derived for two filled fields (`outOfTolerance` is the float
        tolerance comparison). Otherwise the flags stay and the diagnostic
        is cleared. */
    method SyncApprovals(outOfTolerance: bool)
      requires Valid()
      modifies this`isApprovedA, this`isApprovedB, this`ratioError
      ensures Valid()
      ensures IsLoaded(ledger.allowanceA) && IsLoaded(ledger.allowanceB) ==>
        && isApprovedA == (ledger.allowanceA.value >= ScaledOrZero(units, amountA, DecimalsA(ledger)))
        && isApprovedB == (ledger.allowanceB.value >= ScaledOrZero(units, amountB, DecimalsB(ledger)))
        && ratioError == if !IsFirstTime(ledger) && amountA != "" && amountB != ""
                         then ValidateRatio(units, amountA, amountB, outOfTolerance)
                         else old(ratioError)
      ensures !(IsLoaded(ledger.allowanceA) && IsLoaded(ledger.allowanceB)) ==>
        isApprovedA == old(isApprovedA) && isApprovedB == old(isApprovedB) && !ratioError
    {
      if IsLoaded(ledger.allowanceA) && IsLoaded(ledger.allowanceB) {
        var scaledA := ScaledOrZero(units, amountA, DecimalsA(ledger));
        var scaledB := ScaledOrZero(units, amountB, DecimalsB(ledger));
        isApprovedA := ledger.allowanceA.value >= scaledA;
        isApprovedB := ledger.allowanceB.value >= scaledB;
        if !IsFirstTime(ledger) && amountA != "" && amountB != "" {
          ratioError := ValidateRatio(units, amountA, amountB, outOfTolerance);
        }
      } else {
        ratioError := false;
      }
    }

    /** The add-liquidity handler. A failed check rejects without a write
        and changes nothing; otherwise the write is called with the scaled
        amounts, a success clears both fields and the diagnostic, and a
        failure keeps every draft for a retry. */
    method AddLiquidity(writeSucceeds: bool) returns (outcome: AddOutcome)
      requires Valid()
      modifies this`amountA, this`amountB, this`ratioError
      ensures Valid()
      ensures old(AddGate(units, amountA, amountB, IsFirstTime(ledger), ratioError)).Fail? ==>
        && outcome == AddRejected(old(AddGate(units, amountA, amountB, IsFirstTime(ledger), ratioError)).reason)
        && amountA == old(amountA) && amountB == old(amountB) && ratioError == old(ratioError)
      ensures old(AddGate(units, amountA, amountB, IsFirstTime(ledger), ratioError)).Pass? ==>
        outcome == AddSubmitted(units.parseUnits(old(amountA), DecimalsA(ledger)),
                                units.parseUnits(old(amountB), DecimalsB(ledger)), writeSucceeds)
      ensures outcome.AddSubmitted? && outcome.succeeded ==>
        amountA == "" && amountB == "" && !ratioError
      ensures !(outcome.AddSubmitted? && outcome.succeeded) ==>
        amountA == old(amountA) && amountB == old(amountB) && ratioError == old(ratioError)
      ensures old(ratioError) ==> outcome != AddRejected(EnterValidAmounts)
    {
      var gate := AddGate(units, amountA, amountB, IsFirstTime(ledger), ratioError);
      if gate.Fail? {
        return AddRejected(gate.reason);
      }
      outcome := AddSubmitted(ScaledOrZero(units, amountA, DecimalsA(ledger)),
                              ScaledOrZero(units, amountB, DecimalsB(ledger)), writeSucceeds);
      if writeSucceeds {
        amountA := "";
        amountB := "";
        ratioError := false;
      }
    }

    /** The remove-liquidity handler. A failed check rejects without a
        write; otherwise the write is called with the LP amount scaled by
        18 decimals and only a success clears the LP field. */
    method RemoveLiquidity(writeSucceeds: bool) returns (outcome: RemoveOutcome)
      modifies this`removeAmount
      ensures old(RemoveGate(units, removeAmount, ledger.userLiquidity)).Fail? ==>
        && outcome == RemoveRejected(old(RemoveGate(units, removeAmount, ledger.userLiquidity)).reason)
        && removeAmount == old(removeAmount)
      ensures old(RemoveGate(units, removeAmount, ledger.userLiquidity)).Pass? ==>
        && outcome == RemoveSubmitted(units.parseUnits(old(removeAmount), LP_DECIMALS), writeSucceeds)
        && outcome.scaledLp <= ledger.userLiquidity
        && removeAmount == if writeSucceeds then "" else old(removeAmount)
    {
      var gate := RemoveGate(units, removeAmount, ledger.userLiquidity);
      if gate.Fail? {
        return RemoveRejected(gate.reason);
      }
      outcome := RemoveSubmitted(ScaledOrZero(units, removeAmount, LP_DECIMALS), writeSucceeds);
      if writeSucceeds {
        removeAmount := "";
      }
    }
  }

  // ---------------------------------------------------------------------
  // Sessions. Each starts with the recomputation the page runs once after
  // mounting; its fields are empty then, so no tolerance comparison is
  // made and `false` stands in for it. The recomputation then follows
  // every change of its inputs.

  /** Creating a pool: typing a usable amount into A proposes the same amount
      for B, and the recomputation that follows never raises a ratio
      diagnostic, whatever the tolerance comparison would say. */
  method FirstDepositAutoFill(u: Units, l: Ledger, value: string, proposedB: string, outOfTolerance: bool)
    returns (amountB: string, ratioError: bool)
    requires IsFirstTime(l) && IsValidAmount(u, value)
    ensures amountB == value && !ratioError
  {
    var panel := new LiquidityPanel(u, l);
    panel.SyncApprovals(false);
    panel.EditA(value, proposedB);
    panel.SyncApprovals(outOfTolerance);
    amountB, ratioError := panel.amountB, panel.ratioError;
  }

  /** Retrying a failed deposit: the drafts survive the failure, so the
      second attempt submits exactly what the first did and, on success,
      clears the fields. The recomputation runs after each edit and after
      the successful write, as the page's effect does; a failed write
      changes none of its inputs, so it does not run between the attempts.
      The tolerance comparison of each recomputation enters as
      `outOfToleranceA`, `outOfToleranceB` and `outOfToleranceDone`. */
  method RetryAfterFailedAdd(u: Units, l: Ledger, valueA: string, valueB: string, proposedA: string, proposedB: string,
                             outOfToleranceA: bool, outOfToleranceB: bool, outOfToleranceDone: bool)
    returns (first: AddOutcome, second: AddOutcome, amountA: string, amountB: string)
    ensures first.AddRejected? ==> second == first
    ensures first.AddSubmitted? ==>
      && !first.succeeded
      && second == AddSubmitted(first.scaledA, first.scaledB, true)
      && amountA == "" && amountB == ""
  {
    var panel := new LiquidityPanel(u, l);
    panel.SyncApprovals(false);
    panel.EditA(valueA, proposedB);
    panel.SyncApprovals(outOfToleranceA);
    panel.EditB(valueB, proposedA);
    panel.SyncApprovals(outOfToleranceB);
    first := panel.AddLiquidity(false);
    second := panel.AddLiquidity(true);
    panel.SyncApprovals(outOfToleranceDone);
    amountA, amountB := panel.amountA, panel.amountB;
  }

  /** Approving exactly the amount in the A field and seeing that allowance
      (and a non-zero allowance for B) in the next snapshot makes the
      recomputation mark A as approved, which hides "Approve A". */
  method ApproveThenRefresh(u: Units, l: Ledger, valueA: string, proposedB: string, allowanceB: nat, outOfTolerance: bool)
    returns (approveOffered: bool)
    requires ScaledOrZero(u, valueA, DecimalsA(l)) > 0 && allowanceB > 0
    ensures !approveOffered
  {
    var panel := new LiquidityPanel(u, l);
    panel.SyncApprovals(false);
    panel.EditA(valueA, proposedB);
    panel.SyncApprovals(outOfTolerance);
    var requested := ScaledOrZero(u, panel.amountA, DecimalsA(panel.ledger));
    panel.Observe(l.(allowanceA := Some(requested), allowanceB := Some(allowanceB)));
    panel.SyncApprovals(outOfTolerance);
    approveOffered := ApproveOffered(panel.isApprovedA);
  }

  /** An allowance of exactly 0 counts as not loaded, so once a deposit has
      used up the A allowance the recomputation leaves the earlier "approved"
      flag standing: A is shown as approved although its allowance no longer
      covers the amount typed. */
  method StaleApprovalAfterAllowanceSpent(u: Units, l: Ledger, valueA: string, proposedB: string, outOfTolerance: bool)
    returns (isApprovedA: bool, covered: bool)
    requires IsLoaded(l.allowanceA) && IsLoaded(l.allowanceB)
    requires 0 < ScaledOrZero(u, valueA, DecimalsA(l)) <= l.allowanceA.value
    ensures isApprovedA && !covered
  {
    var panel := new LiquidityPanel(u, l);
    panel.SyncApprovals(false);
    panel.EditA(valueA, proposedB);
    panel.SyncApprovals(outOfTolerance);
    panel.Observe(l.(allowanceA := Some(0)));
    panel.SyncApprovals(outOfTolerance);
    isApprovedA := panel.isApprovedA;
    covered := panel.ledger.allowanceA.value >= ScaledOrZero(u, panel.amountA, DecimalsA(panel.ledger));
  }

  /** Once both allowances are loaded, the buttons agree with the
      recomputed approval flags: a shown "Approve" button is never
      disabled, and the add button is shown exactly when both allowances
      cover the scaled amounts typed. */
  method ButtonsAfterEdits(u: Units, l: Ledger, valueA: string, valueB: string, proposedA: string, proposedB: string,
                           outOfToleranceA: bool, outOfToleranceB: bool)
    returns (amountA: string, amountB: string, isApprovedA: bool, isApprovedB: bool)
    requires IsLoaded(l.allowanceA) && IsLoaded(l.allowanceB)
    ensures ApproveOffered(isApprovedA) ==> ApproveEnabled(amountA)
    ensures ApproveOffered(isApprovedB) ==> ApproveEnabled(amountB)
    ensures AddOffered(isApprovedA, isApprovedB) <==>
      && l.allowanceA.value >= ScaledOrZero(u, amountA, DecimalsA(l))
      && l.allowanceB.value >= ScaledOrZero(u, amountB, DecimalsB(l))
  {
    var panel := new LiquidityPanel(u, l);
    panel.SyncApprovals(false);
    panel.EditA(valueA, proposedB);
    panel.SyncApprovals(outOfToleranceA);
    panel.EditB(valueB, proposedA);
    panel.SyncApprovals(outOfToleranceB);
    amountA, amountB := panel.amountA, panel.amountB;
    isApprovedA, isApprovedB := panel.isApprovedA, panel.isApprovedB;
  }
}
