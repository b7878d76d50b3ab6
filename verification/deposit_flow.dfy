/**
 * The deposit screen (`DepositModal`): a stage machine
 * input -> approving -> approved -> depositing -> success driven by the
 * button handlers, by effects that react to the approve and deposit
 * mutations, and by a watchdog and two safety timers. Every failure returns
 * the flow to `input` and raises the error modal.
 */
module DepositModal {
  import opened Wrappers
  import opened ErrorFormatter
  import opened Mutation

  datatype Stage = Input | Approving | Approved | Depositing | Success

  /** The watchdog timer in `timeoutRef`: the stage name it reports and its delay in ms. */
  datatype Watchdog = Watchdog(stageName: string, delay: nat)

  /** The result of the amount checks at the top of both handlers. */
  datatype AmountCheck = Accepted | NotPositive | Insufficient

  /** The primary button offered in the input stage. */
  datatype InputButton = ApproveButton | DepositButton

  const TransactionTimeout := 120000
  const DismissDelay := 3000
  const ApprovalLabel := "Approval"
  const DepositLabel := "Deposit"
  const ApprovalFailed := "Approval Failed"
  const DepositFailed := "Deposit Failed"
  const TimeoutTitle := "Transaction Timeout"
  const Interrupted := "Transaction was interrupted. Please try again."
  const TooLong := " is taking too long. Please try again."

  /** The progress bar value each stage sets. */
  function ProgressOf(stage: Stage): real {
    match stage
    case Input => 0.0
    case Approving => 0.2
    case Approved => 0.5
    case Depositing => 0.7
    case Success => 1.0
  }

  /**
   * The checks of `handleApprove` and `handleDeposit` on the parsed amount
   * (base units): positive first, then within the balance, a missing balance
   * counting as zero.
   */
  function CheckAmount(amount: int, balance: Option<nat>): (c: AmountCheck)
    ensures c == Accepted <==> balance.Some? && 0 < amount <= balance.value
    ensures c == NotPositive <==> amount <= 0
    ensures c == Insufficient <==> 0 < amount && (balance.None? || balance.value < amount)
  {
    if amount <= 0 then NotPositive
    else if amount > balance.GetOr(0) then Insufficient
    else Accepted
  }

  /** `needsApproval`: the allowance (missing counts as zero) is below the amount. */
  predicate NeedsApproval(allowance: Option<nat>, amount: int) {
    allowance.GetOr(0) < amount
  }

  /** The input stage offers Approve exactly when approval is needed, Deposit otherwise. */
  function InputAction(allowance: Option<nat>, amount: int): (b: InputButton)
    ensures b == ApproveButton <==>
      (allowance.None? && amount > 0) || (allowance.Some? && allowance.value < amount)
  {
    if NeedsApproval(allowance, amount) then ApproveButton else DepositButton
  }

  /** With an allowance covering the amount the user deposits straight from the input stage. */
  lemma CoveredAmountSkipsApproval(allowance: nat, amount: int)
    requires amount <= allowance
    ensures InputAction(Some(allowance), amount) == DepositButton
  {
  }

  /** Every accepted amount needs approval when no allowance has been read yet. */
  lemma MissingAllowanceNeedsApproval(amount: int, balance: Option<nat>)
    requires CheckAmount(amount, balance) == Accepted
    ensures InputAction(None, amount) == ApproveButton
  {
  }

  class DepositFlow {
    var stage: Stage
    var progress: real
    var showError: bool
    var errorTitle: string
    var errorMessage: string
    var showConfetti: bool
    var watchdog: Option<Watchdog>
    var approval: Status
    var deposit: Status
    /** Allowance refetches whose `.finally` has not run yet. */
    var pendingRefetches: nat
    /** The delay of the scheduled `navigation.goBack()`, once success is reached. */
    var dismissal: Option<nat>
    var mounted: bool
    /** The amounts passed to `approve(spender, amount)` and `deposit(amount, type)`, in order. */
    var approveCalls: seq<nat>
    var depositCalls: seq<nat>

    ghost predicate Valid()
      reads this
    {
      (watchdog.Some? ==> stage in {Approving, Approved, Depositing}) &&
      (watchdog.Some? ==> watchdog.value.delay == TransactionTimeout &&
                          watchdog.value.stageName in {ApprovalLabel, DepositLabel}) &&
      (!mounted ==> watchdog.None?) &&
      (showError ==> stage in {Input, Approved}) &&
      (progress == ProgressOf(stage) || (stage == Approved && progress == 0.0)) &&
      (stage == Success ==> showConfetti && dismissal == Some(DismissDelay) && !showError) &&
      (stage == Approving ==> |approveCalls| > 0 && !showError) &&
      (stage == Depositing ==> |depositCalls| > 0 && !showError)
    }

    /** The screen as it first renders. */
    constructor ()
      ensures Valid() && mounted
      ensures stage == Input && progress == 0.0 && !showError && !showConfetti
      ensures errorTitle == "" && errorMessage == ""
      ensures watchdog.None? && approval == Idle && deposit == Idle
      ensures pendingRefetches == 0 && dismissal.None?
      ensures approveCalls == [] && depositCalls == []
    {
      stage := Input;
      progress := 0.0;
      showError := false;
      errorTitle := "";
      errorMessage := "";
      showConfetti := false;
      watchdog := None;
      approval := Idle;
      deposit := Idle;
      pendingRefetches := 0;
      dismissal := None;
      mounted := true;
      approveCalls := [];
      depositCalls := [];
    }

    /** `handleError`: back to input with the error modal up and the watchdog cleared. */
    method HandleError(title: string, error: ErrorValue)
      requires Valid()
      modifies this
      ensures Valid()
      ensures stage == Input && progress == 0.0 && watchdog.None?
      ensures showError && errorTitle == title && errorMessage == FormatError(error)
      ensures showConfetti == old(showConfetti) && approval == old(approval) && deposit == old(deposit)
      ensures pendingRefetches == old(pendingRefetches) && dismissal == old(dismissal)
      ensures mounted == old(mounted)
      ensures approveCalls == old(approveCalls) && depositCalls == old(depositCalls)
    {
      errorTitle := title;
      errorMessage := FormatError(error);
      showError := true;
      stage := Input;
      progress := 0.0;
      watchdog := None;
    }

    /**
     * `handleApprove` with the parsed amount and the balance read at render.
     * A rejected amount changes nothing; an accepted one resets both
     * mutations, enters `approving`, re-arms the watchdog and issues one
     * approve call.
     */
    method HandleApprove(amount: int, balance: Option<nat>) returns (check: AmountCheck)
      requires Valid() && mounted
      modifies this
      ensures Valid()
      ensures check == CheckAmount(amount, balance)
      ensures check != Accepted ==> unchanged(this)
      ensures check == Accepted ==>
        stage == Approving && progress == 0.2 && !showError &&
        watchdog == Some(Watchdog(ApprovalLabel, TransactionTimeout)) &&
        approval == Mutate && deposit == Reset &&
        approveCalls == old(approveCalls) + [amount as nat] && depositCalls == old(depositCalls) &&
        errorTitle == old(errorTitle) && errorMessage == old(errorMessage) &&
        showConfetti == old(showConfetti) && pendingRefetches == old(pendingRefetches) &&
        dismissal == old(dismissal) && mounted
    {
      check := CheckAmount(amount, balance);
      if check != Accepted {
        return;
      }
      approval := Reset;
      deposit := Reset;
      showError := false;
      stage := Approving;
      progress := 0.2;
      watchdog := Some(Watchdog(ApprovalLabel, TransactionTimeout));
      approval := Mutate;
      approveCalls := approveCalls + [amount as nat];
    }

    /**
     * `handleDeposit`, offered from `input` when no approval is needed and
     * from `approved`. Only the deposit mutation is reset.
     */
    method HandleDeposit(amount: int, balance: Option<nat>) returns (check: AmountCheck)
      requires Valid() && mounted
      modifies this
      ensures Valid()
      ensures check == CheckAmount(amount, balance)
      ensures check != Accepted ==> unchanged(this)
      ensures check == Accepted ==>
        stage == Depositing && progress == 0.7 && !showError &&
        watchdog == Some(Watchdog(DepositLabel, TransactionTimeout)) &&
        approval == old(approval) && deposit == Mutate &&
        depositCalls == old(depositCalls) + [amount as nat] && approveCalls == old(approveCalls) &&
        errorTitle == old(errorTitle) && errorMessage == old(errorMessage) &&
        showConfetti == old(showConfetti) && pendingRefetches == old(pendingRefetches) &&
        dismissal == old(dismissal) && mounted
    {
      check := CheckAmount(amount, balance);
      if check != Accepted {
        return;
      }
      deposit := Reset;
      showError := false;
      stage := Depositing;
      progress := 0.7;
      watchdog := Some(Watchdog(DepositLabel, TransactionTimeout));
      deposit := Mutate;
      depositCalls := depositCalls + [amount as nat];
    }

    /** The approve mutation's progress as reported by the mutation cache. */
    method ApprovalEvent(e: Event)
      requires Valid()
      modifies this
      ensures Valid()
      ensures approval == Step(old(approval), e)
      ensures stage == old(stage) && progress == old(progress) && watchdog == old(watchdog)
      ensures showError == old(showError) && deposit == old(deposit)
      ensures errorTitle == old(errorTitle) && errorMessage == old(errorMessage)
      ensures showConfetti == old(showConfetti) && dismissal == old(dismissal)
      ensures pendingRefetches == old(pendingRefetches) && mounted == old(mounted)
      ensures approveCalls == old(approveCalls) && depositCalls == old(depositCalls)
    {
      approval := Step(approval, e);
    }

    /** The deposit mutation's progress as reported by the mutation cache. */
    method DepositEvent(e: Event)
      requires Valid()
      modifies this
      ensures Valid()
      ensures deposit == Step(old(deposit), e)
      ensures stage == old(stage) && progress == old(progress) && watchdog == old(watchdog)
      ensures showError == old(showError) && approval == old(approval)
      ensures errorTitle == old(errorTitle) && errorMessage == old(errorMessage)
      ensures showConfetti == old(showConfetti) && dismissal == old(dismissal)
      ensures pendingRefetches == old(pendingRefetches) && mounted == old(mounted)
      ensures approveCalls == old(approveCalls) && depositCalls == old(depositCalls)
    {
      deposit := Step(deposit, e);
    }

    /**
     * The approval-success effect: acted on only in `approving`; clears the
     * watchdog and starts an allowance refetch. It never issues a deposit.
     */
    method ApprovalConfirmedEffect()
      requires Valid() && mounted
      modifies this
      ensures Valid()
      ensures !(IsConfirmed(approval) && old(stage) == Approving) ==> unchanged(this)
      ensures IsConfirmed(approval) && old(stage) == Approving ==>
        watchdog.None? && pendingRefetches == old(pendingRefetches) + 1 &&
        stage == Approving && progress == old(progress) && showError == old(showError) &&
        errorTitle == old(errorTitle) && errorMessage == old(errorMessage) &&
        showConfetti == old(showConfetti) && dismissal == old(dismissal) &&
        approval == old(approval) && deposit == old(deposit) && mounted &&
        approveCalls == old(approveCalls) && depositCalls == old(depositCalls)
    {
      if IsConfirmed(approval) && stage == Approving {
        watchdog := None;
        pendingRefetches := pendingRefetches + 1;
      }
    }

    /**
     * The `.finally` of an allowance refetch, on success or failure alike. It
     * checks no stage: a refetch started before a cancel still moves the flow
     * to `approved`. After unmount its state updates are dropped.
     */
    method AllowanceRefetchSettled()
      requires Valid() && pendingRefetches > 0
      modifies this
      ensures Valid()
      ensures pendingRefetches == old(pendingRefetches) - 1
      ensures old(mounted) ==> stage == Approved && progress == 0.5
      ensures !old(mounted) ==> stage == old(stage) && progress == old(progress)
      ensures watchdog == old(watchdog) && showError == old(showError)
      ensures errorTitle == old(errorTitle) && errorMessage == old(errorMessage)
      ensures showConfetti == old(showConfetti) && dismissal == old(dismissal)
      ensures approval == old(approval) && deposit == old(deposit) && mounted == old(mounted)
      ensures approveCalls == old(approveCalls) && depositCalls == old(depositCalls)
    {
      pendingRefetches := pendingRefetches - 1;
      if mounted {
        progress := 0.5;
        stage := Approved;
      }
    }

    /**
     * The deposit-success effect: acted on only in `depositing`; success with
     * full progress, confetti, no watchdog and a dismissal after 3000 ms.
     */
    method DepositConfirmedEffect()
      requires Valid() && mounted
      modifies this
      ensures Valid()
      ensures !(IsConfirmed(deposit) && old(stage) == Depositing) ==> unchanged(this)
      ensures IsConfirmed(deposit) && old(stage) == Depositing ==>
        stage == Success && progress == 1.0 && watchdog.None? && showConfetti &&
        dismissal == Some(DismissDelay) && !showError &&
        errorTitle == old(errorTitle) && errorMessage == old(errorMessage) &&
        approval == old(approval) && deposit == old(deposit) &&
        pendingRefetches == old(pendingRefetches) && mounted &&
        approveCalls == old(approveCalls) && depositCalls == old(depositCalls)
    {
      if IsConfirmed(deposit) && stage == Depositing {
        watchdog := None;
        progress := 1.0;
        stage := Success;
        showConfetti := true;
        dismissal := Some(DismissDelay);
      }
    }

    /** The deposit-error effect: acted on only in `depositing`. */
    method DepositErrorEffect()
      requires Valid() && mounted
      modifies this
      ensures Valid()
      ensures !(HasError(deposit) && old(stage) == Depositing) ==> unchanged(this)
      ensures HasError(deposit) && old(stage) == Depositing ==>
        stage == Input && progress == 0.0 && watchdog.None? && showError &&
        errorTitle == DepositFailed && errorMessage == FormatError(deposit.error) &&
        showConfetti == old(showConfetti) && dismissal == old(dismissal) && pendingRefetches == old(pendingRefetches) &&
        approval == old(approval) && deposit == old(deposit) && mounted &&
        approveCalls == old(approveCalls) && depositCalls == old(depositCalls)
    {
      if HasError(deposit) && stage == Depositing {
        HandleError(DepositFailed, deposit.error);
      }
    }

    /** The approval-error effect: acted on only in `approving`. */
    method ApprovalErrorEffect()
      requires Valid() && mounted
      modifies this
      ensures Valid()
      ensures !(HasError(approval) && old(stage) == Approving) ==> unchanged(this)
      ensures HasError(approval) && old(stage) == Approving ==>
        stage == Input && progress == 0.0 && watchdog.None? && showError &&
        errorTitle == ApprovalFailed && errorMessage == FormatError(approval.error) &&
        showConfetti == old(showConfetti) && dismissal == old(dismissal) && pendingRefetches == old(pendingRefetches) &&
        approval == old(approval) && deposit == old(deposit) && mounted &&
        approveCalls == old(approveCalls) && depositCalls == old(depositCalls)
    {
      if HasError(approval) && stage == Approving {
        HandleError(ApprovalFailed, approval.error);
      }
    }

    /**
     * The 5 s safety timer of the approving stage fires: it is armed only
     * while the approval is neither loading, confirmed nor failed, and any
     * change of those cancels it.
     */
    method ApprovalSafetyExpired()
      requires Valid() && mounted
      requires stage == Approving && !IsLoading(approval) && !IsConfirmed(approval) && !HasError(approval)
      modifies this
      ensures Valid()
      ensures stage == Input && progress == 0.0 && watchdog.None? && showError
      ensures errorTitle == ApprovalFailed && errorMessage == FormatError(Thrown(Interrupted))
      ensures approval == Reset && deposit == old(deposit)
      ensures showConfetti == old(showConfetti) && dismissal == old(dismissal)
      ensures pendingRefetches == old(pendingRefetches) && mounted == old(mounted)
      ensures approveCalls == old(approveCalls) && depositCalls == old(depositCalls)
    {
      HandleError(ApprovalFailed, Thrown(Interrupted));
      approval := Reset;
    }

    /** The 5 s safety timer of the depositing stage fires. */
    method DepositSafetyExpired()
      requires Valid() && mounted
      requires stage == Depositing && !IsLoading(deposit) && !IsConfirmed(deposit) && !HasError(deposit)
      modifies this
      ensures Valid()
      ensures stage == Input && progress == 0.0 && watchdog.None? && showError
      ensures errorTitle == DepositFailed && errorMessage == FormatError(Thrown(Interrupted))
      ensures deposit == Reset && approval == old(approval)
      ensures showConfetti == old(showConfetti) && dismissal == old(dismissal)
      ensures pendingRefetches == old(pendingRefetches) && mounted == old(mounted)
      ensures approveCalls == old(approveCalls) && depositCalls == old(depositCalls)
    {
      HandleError(DepositFailed, Thrown(Interrupted));
      deposit := Reset;
    }

    /** The 120 s watchdog fires: a timeout error naming its stage, and both mutations reset. */
    method WatchdogExpired()
      requires Valid() && watchdog.Some?
      modifies this
      ensures Valid()
      ensures stage == Input && progress == 0.0 && watchdog.None? && showError
      ensures errorTitle == TimeoutTitle
      ensures errorMessage == FormatError(Thrown(old(watchdog).value.stageName + TooLong))
      ensures approval == Reset && deposit == Reset
      ensures showConfetti == old(showConfetti) && dismissal == old(dismissal)
      ensures pendingRefetches == old(pendingRefetches) && mounted == old(mounted)
      ensures approveCalls == old(approveCalls) && depositCalls == old(depositCalls)
    {
      var stageName := watchdog.value.stageName;
      HandleError(TimeoutTitle, Thrown(stageName + TooLong));
      approval := Reset;
      deposit := Reset;
    }

    /** `handleCancel`, offered in `approving`, `approved` and `depositing`. */
    method Cancel()
      requires Valid() && mounted && stage in {Approving, Approved, Depositing}
      modifies this
      ensures Valid()
      ensures stage == Input && progress == 0.0 && watchdog.None?
      ensures approval == Reset && deposit == Reset
      ensures showError == old(showError) && errorTitle == old(errorTitle)
      ensures errorMessage == old(errorMessage) && pendingRefetches == old(pendingRefetches)
      ensures mounted && approveCalls == old(approveCalls) && depositCalls == old(depositCalls)
      ensures showConfetti == old(showConfetti) && dismissal == old(dismissal)
    {
      watchdog := None;
      approval := Reset;
      deposit := Reset;
      stage := Input;
      progress := 0.0;
    }

    /** `handleRetry` from the error modal: hide it, zero the progress, reset both mutations. */
    method Retry()
      requires Valid() && mounted && showError
      modifies this
      ensures Valid()
      ensures !showError && progress == 0.0 && approval == Reset && deposit == Reset
      ensures stage == old(stage) && watchdog == old(watchdog)
      ensures errorTitle == old(errorTitle) && errorMessage == old(errorMessage)
      ensures showConfetti == old(showConfetti) && dismissal == old(dismissal)
      ensures pendingRefetches == old(pendingRefetches) && mounted
      ensures approveCalls == old(approveCalls) && depositCalls == old(depositCalls)
    {
      showError := false;
      progress := 0.0;
      approval := Reset;
      deposit := Reset;
    }

    /** The unmount cleanup clears a pending watchdog. */
    method Unmount()
      requires Valid() && mounted
      modifies this
      ensures Valid()
      ensures !mounted && watchdog.None?
      ensures stage == old(stage) && progress == old(progress) && showError == old(showError)
      ensures errorTitle == old(errorTitle) && errorMessage == old(errorMessage)
      ensures showConfetti == old(showConfetti) && dismissal == old(dismissal)
      ensures approval == old(approval) && deposit == old(deposit)
      ensures pendingRefetches == old(pendingRefetches)
      ensures approveCalls == old(approveCalls) && depositCalls == old(depositCalls)
    {
      watchdog := None;
      mounted := false;
    }
  }

  /**
   * Late callbacks are ignored: once a deposit is cancelled, the failure of
   * the abandoned deposit neither reaches the effects nor raises the error
   * modal.
   */
  method LateDepositFailureAfterCancel(f: DepositFlow, error: ErrorValue)
    requires f.Valid() && f.mounted && f.stage == Depositing
    modifies f
    ensures f.Valid()
    ensures f.stage == Input && !f.showError && f.deposit == Idle && f.watchdog.None?
  {
    f.Cancel();
    f.DepositEvent(Rejected(error));
    f.DepositErrorEffect();
  }

  /**
   * The refetch started by a confirmed approval is not tied to the stage: a
   * cancel before it settles is overridden, and the flow lands in `approved`
   * with both mutations reset.
   */
  method CancelDuringAllowanceRefetch(f: DepositFlow)
    requires f.Valid() && f.mounted && f.stage == Approving && IsConfirmed(f.approval)
    modifies f
    ensures f.Valid()
    ensures f.stage == Approved && f.progress == 0.5 && f.approval == Idle && f.deposit == Idle
  {
    f.ApprovalConfirmedEffect();
    f.Cancel();
    f.AllowanceRefetchSettled();
  }

  /** The happy path: approve, confirmation, refetch, deposit, confirmation. */
  method ApproveThenDeposit(f: DepositFlow, amount: nat, balance: nat)
    requires f.Valid() && f.mounted && f.stage == Input && 0 < amount <= balance
    modifies f
    ensures f.Valid()
    ensures f.stage == Success && f.progress == 1.0 && f.showConfetti && f.watchdog.None?
    ensures f.approveCalls == old(f.approveCalls) + [amount]
    ensures f.depositCalls == old(f.depositCalls) + [amount]
  {
    var c := f.HandleApprove(amount, Some(balance));
    f.ApprovalEvent(Started);
    f.ApprovalEvent(Resolved);
    f.ApprovalConfirmedEffect();
    f.AllowanceRefetchSettled();
    c := f.HandleDeposit(amount, Some(balance));
    f.DepositEvent(Started);
    f.DepositEvent(Resolved);
    f.DepositConfirmedEffect();
  }
}
