/**
 * The withdrawal screen (`WithdrawModal`): a stage machine
 * input -> processing -> success around one `requestWithdrawal` mutation,
 * with the same watchdog, safety timer, cancel and retry as the deposit
 * screen, and the holding of the selected vault read from the user's
 * position.
 */
module WithdrawModal {
  import opened Wrappers
  import opened ErrorFormatter
  import opened Mutation
  import opened VaultData

  datatype Stage = Input | Processing | Success

  datatype AmountCheck = Accepted | NotPositive | OverAvailable

  /** What the success overlay shows. */
  datatype WithdrawInfo = WithdrawInfo(amount: real, shares: real, vaultName: string)

  /** The user's shares and asset value in one vault, in whole USDC units. */
  datatype Holding = Holding(shares: real, value: real)

  const DismissDelay := 3000
  const Tolerance := 0.1
  const WithdrawalFailed := "Withdrawal Failed"
  const TimeoutTitle := "Transaction Timeout"
  const Interrupted := "Transaction was interrupted. Please try again."
  const TooLong := "Withdrawal request is taking too long. Please try again."

  function ProgressOf(stage: Stage): real {
    match stage
    case Input => 0.0
    case Processing => 0.5
    case Success => 1.0
  }

  /** `fromBigInt` with six decimals; an undefined value reads as zero. */
  function Units(w: Option<Word>): (r: real)
    ensures w.Some? && w.value.Num? ==> r * 1000000.0 == w.value.n as real
    ensures w.None? ==> r == 0.0
  {
    if w.Some? && w.value.Num? then w.value.n as real / 1000000.0 else 0.0
  }

  /** The stable, growth or turbo fields of the position that match the vault; zero without a position. */
  function HoldingIn(position: Option<UserPositionData>, vault: VaultType): (h: Holding)
    ensures position.None? ==> h == Holding(0.0, 0.0)
  {
    if position.None? then Holding(0.0, 0.0)
    else
      var p := position.value;
      match vault
      case Stable => Holding(Units(p.stableShares), Units(p.stableAssets))
      case Growth => Holding(Units(p.growthShares), Units(p.growthAssets))
      case Turbo => Holding(Units(p.turboShares), Units(p.turboAssets))
  }

  function VaultIndex(vault: VaultType): nat {
    match vault
    case Stable => 0
    case Growth => 1
    case Turbo => 2
  }

  /**
   * Read against the raw `getUserPosition` tuple, the holding of vault k is
   * the pair at positions 2k (shares) and 2k+1 (assets).
   */
  lemma HoldingFromTuple(t: seq<Word>, vault: VaultType)
    ensures var k := VaultIndex(vault);
      HoldingIn(DecodePosition(Tuple(t)), vault) == Holding(Units(At(t, 2 * k)), Units(At(t, 2 * k + 1)))
  {
  }

  /** A read that is not an array leaves the holding at zero. */
  lemma NoHoldingWithoutTuple(raw: ReadResult, vault: VaultType)
    requires !raw.Tuple?
    ensures HoldingIn(DecodePosition(raw), vault) == Holding(0.0, 0.0)
  {
  }

  /**
   * The checks of `handleWithdraw`: a positive amount (an empty field is 0),
   * at most the available value plus a 0.1 tolerance.
   */
  function CheckWithdrawal(amount: real, available: real): (c: AmountCheck)
    ensures c == Accepted <==> 0.0 < amount <= available + Tolerance
    ensures c == NotPositive <==> amount <= 0.0
  {
    if amount <= 0.0 then NotPositive
    else if amount > available + Tolerance then OverAvailable
    else Accepted
  }

  /** The shares passed to `requestWithdrawal`: the deposit preview of the amount, if loaded. */
  function SubmittedShares(preview: Preview): (shares: Option<int>)
    requires !preview.Throws?
    ensures shares.Some? <==> preview.Preview?
    ensures shares.Some? ==> shares.value == preview.value
  {
    if preview.Preview? then Some(preview.value) else None
  }

  /** The estimate shown and recorded: `fromBigInt` of the preview, zero when it is missing. */
  function EstimatedShares(preview: Preview): (r: real)
    requires !preview.Throws?
    ensures preview.NoPreview? ==> r == 0.0
    ensures preview.Preview? ==> r * 1000000.0 == preview.value as real
  {
    if preview.Preview? then Units(Some(Num(preview.value))) else 0.0
  }

  class WithdrawFlow {
    const vault: VaultType
    const vaultName: string
    var stage: Stage
    var progress: real
    var showError: bool
    var errorTitle: string
    var errorMessage: string
    var showConfetti: bool
    var watchdogArmed: bool
    var withdrawal: Status
    var withdrawInfo: Option<WithdrawInfo>
    var dismissal: Option<nat>
    var mounted: bool
    /** The share amounts passed to `requestWithdrawal`, in order (None: undefined). */
    var withdrawCalls: seq<Option<int>>

    ghost predicate Valid()
      reads this
    {
      progress == ProgressOf(stage) &&
      (watchdogArmed ==> stage == Processing && mounted) &&
      (showError ==> stage == Input) &&
      (stage == Processing ==> |withdrawCalls| > 0 && withdrawInfo.Some?) &&
      (stage == Success ==> showConfetti && dismissal == Some(DismissDelay) && withdrawInfo.Some?)
    }

    constructor (vault: VaultType, vaultName: string)
      ensures Valid() && mounted
      ensures this.vault == vault && this.vaultName == vaultName
      ensures stage == Input && progress == 0.0 && !showError && !showConfetti && !watchdogArmed
      ensures withdrawal == Idle && withdrawInfo.None? && dismissal.None? && withdrawCalls == []
      ensures errorTitle == "" && errorMessage == ""
    {
      this.vault := vault;
      this.vaultName := vaultName;
      stage := Input;
      progress := 0.0;
      showError := false;
      errorTitle := "";
      errorMessage := "";
      showConfetti := false;
      watchdogArmed := false;
      withdrawal := Idle;
      withdrawInfo := None;
      dismissal := None;
      mounted := true;
      withdrawCalls := [];
    }

    /** `handleError`: back to input with the error modal up and the watchdog cleared. */
    method HandleError(title: string, error: ErrorValue)
      requires Valid()
      modifies this
      ensures Valid()
      ensures stage == Input && progress == 0.0 && !watchdogArmed
      ensures showError && errorTitle == title && errorMessage == FormatError(error)
      ensures withdrawal == old(withdrawal) && withdrawInfo == old(withdrawInfo)
      ensures showConfetti == old(showConfetti) && dismissal == old(dismissal)
      ensures mounted == old(mounted) && withdrawCalls == old(withdrawCalls)
    {
      errorTitle := title;
      errorMessage := FormatError(error);
      showError := true;
      stage := Input;
      progress := 0.0;
      watchdogArmed := false;
    }

    /**
     * `handleWithdraw` with the parsed amount, the position and the deposit
     * preview of the amount read at render. A rejected amount changes
     * nothing; an accepted one records the withdrawal, enters `processing`,
     * arms the watchdog and requests the withdrawal of the previewed shares.
     */
    method HandleWithdraw(amount: real, position: Option<UserPositionData>, preview: Preview)
      returns (check: AmountCheck)
      requires Valid() && mounted && !preview.Throws?
      modifies this
      ensures Valid()
      ensures check == CheckWithdrawal(amount, HoldingIn(position, vault).value)
      ensures check != Accepted ==> unchanged(this)
      ensures check == Accepted ==>
        stage == Processing && progress == 0.5 && !showError && watchdogArmed &&
        withdrawInfo == Some(WithdrawInfo(amount, EstimatedShares(preview), vaultName)) &&
        withdrawal == Mutate && withdrawCalls == old(withdrawCalls) + [SubmittedShares(preview)] &&
        errorTitle == old(errorTitle) && errorMessage == old(errorMessage) &&
        showConfetti == old(showConfetti) && dismissal == old(dismissal) && mounted
    {
      check := CheckWithdrawal(amount, HoldingIn(position, vault).value);
      if check != Accepted {
        return;
      }
      withdrawal := Reset;
      showError := false;
      withdrawInfo := Some(WithdrawInfo(amount, EstimatedShares(preview), vaultName));
      stage := Processing;
      progress := 0.5;
      watchdogArmed := true;
      withdrawal := Mutate;
      withdrawCalls := withdrawCalls + [SubmittedShares(preview)];
    }

    /** The withdrawal mutation's progress as reported by the mutation cache. */
    method WithdrawalEvent(e: Event)
      requires Valid()
      modifies this
      ensures Valid()
      ensures withdrawal == Step(old(withdrawal), e)
      ensures stage == old(stage) && progress == old(progress) && watchdogArmed == old(watchdogArmed)
      ensures showError == old(showError) && mounted == old(mounted)
      ensures withdrawCalls == old(withdrawCalls) && withdrawInfo == old(withdrawInfo)
      ensures errorTitle == old(errorTitle) && errorMessage == old(errorMessage)
      ensures showConfetti == old(showConfetti) && dismissal == old(dismissal)
    {
      withdrawal := Step(withdrawal, e);
    }

    /** The success effect: acted on only in `processing`. */
    method ConfirmedEffect()
      requires Valid() && mounted
      modifies this
      ensures Valid()
      ensures !(IsConfirmed(withdrawal) && old(stage) == Processing) ==> unchanged(this)
      ensures IsConfirmed(withdrawal) && old(stage) == Processing ==>
        stage == Success && progress == 1.0 && !watchdogArmed && showConfetti &&
        dismissal == Some(DismissDelay) && showError == old(showError) &&
        errorTitle == old(errorTitle) && errorMessage == old(errorMessage) &&
        withdrawal == old(withdrawal) && withdrawInfo == old(withdrawInfo) &&
        withdrawCalls == old(withdrawCalls) && mounted
    {
      if IsConfirmed(withdrawal) && stage == Processing {
        watchdogArmed := false;
        progress := 1.0;
        stage := Success;
        showConfetti := true;
        dismissal := Some(DismissDelay);
      }
    }

    /** The error effect: acted on only in `processing`. */
    method ErrorEffect()
      requires Valid() && mounted
      modifies this
      ensures Valid()
      ensures !(HasError(withdrawal) && old(stage) == Processing) ==> unchanged(this)
      ensures HasError(withdrawal) && old(stage) == Processing ==>
        stage == Input && progress == 0.0 && !watchdogArmed && showError &&
        errorTitle == WithdrawalFailed && errorMessage == FormatError(withdrawal.error) &&
        withdrawInfo == old(withdrawInfo) && showConfetti == old(showConfetti) && dismissal == old(dismissal) &&
        withdrawal == old(withdrawal) && withdrawCalls == old(withdrawCalls) && mounted
    {
      if HasError(withdrawal) && stage == Processing {
        HandleError(WithdrawalFailed, withdrawal.error);
      }
    }

    /** The 5 s safety timer fires while the request is neither loading, confirmed nor failed. */
    method SafetyExpired()
      requires Valid() && mounted
      requires stage == Processing && !IsLoading(withdrawal) && !IsConfirmed(withdrawal) && !HasError(withdrawal)
      modifies this
      ensures Valid()
      ensures stage == Input && progress == 0.0 && !watchdogArmed && showError
      ensures errorTitle == WithdrawalFailed && errorMessage == FormatError(Thrown(Interrupted))
      ensures withdrawal == Reset && withdrawCalls == old(withdrawCalls)
      ensures withdrawInfo == old(withdrawInfo) && showConfetti == old(showConfetti) && dismissal == old(dismissal)
      ensures mounted == old(mounted)
    {
      HandleError(WithdrawalFailed, Thrown(Interrupted));
      withdrawal := Reset;
    }

    /** The 120 s watchdog fires: a timeout error, and the mutation reset. */
    method WatchdogExpired()
      requires Valid() && watchdogArmed
      modifies this
      ensures Valid()
      ensures stage == Input && progress == 0.0 && !watchdogArmed && showError
      ensures errorTitle == TimeoutTitle && errorMessage == FormatError(Thrown(TooLong))
      ensures withdrawal == Reset && withdrawCalls == old(withdrawCalls)
      ensures withdrawInfo == old(withdrawInfo) && showConfetti == old(showConfetti) && dismissal == old(dismissal)
      ensures mounted == old(mounted)
    {
      HandleError(TimeoutTitle, Thrown(TooLong));
      withdrawal := Reset;
    }

    /** `handleCancel`, offered while processing or while the request is loading. */
    method Cancel()
      requires Valid() && mounted && (stage == Processing || IsLoading(withdrawal))
      modifies this
      ensures Valid()
      ensures stage == Input && progress == 0.0 && !watchdogArmed && withdrawal == Reset
      ensures showError == old(showError) && errorTitle == old(errorTitle)
      ensures errorMessage == old(errorMessage) && withdrawInfo == old(withdrawInfo)
      ensures mounted && withdrawCalls == old(withdrawCalls)
      ensures showConfetti == old(showConfetti) && dismissal == old(dismissal)
    {
      watchdogArmed := false;
      withdrawal := Reset;
      stage := Input;
      progress := 0.0;
    }

    /** `handleRetry` from the error modal: hide it, zero the progress, reset the mutation. */
    method Retry()
      requires Valid() && mounted && showError
      modifies this
      ensures Valid()
      ensures !showError && progress == 0.0 && withdrawal == Reset
      ensures stage == old(stage) && watchdogArmed == old(watchdogArmed)
      ensures mounted && withdrawCalls == old(withdrawCalls) && withdrawInfo == old(withdrawInfo)
      ensures errorTitle == old(errorTitle) && errorMessage == old(errorMessage)
      ensures showConfetti == old(showConfetti) && dismissal == old(dismissal)
    {
      showError := false;
      progress := 0.0;
      withdrawal := Reset;
    }

    /** The unmount cleanup clears a pending watchdog. */
    method Unmount()
      requires Valid() && mounted
      modifies this
      ensures Valid()
      ensures !mounted && !watchdogArmed
      ensures stage == old(stage) && progress == old(progress) && showError == old(showError)
      ensures withdrawal == old(withdrawal) && withdrawCalls == old(withdrawCalls)
      ensures withdrawInfo == old(withdrawInfo) && errorTitle == old(errorTitle) && errorMessage == old(errorMessage)
      ensures showConfetti == old(showConfetti) && dismissal == old(dismissal)
    {
      watchdogArmed := false;
      mounted := false;
    }
  }

  /** Once cancelled, the failure of the abandoned request raises no error modal. */
  method LateFailureAfterCancel(f: WithdrawFlow, error: ErrorValue)
    requires f.Valid() && f.mounted && f.stage == Processing
    modifies f
    ensures f.Valid()
    ensures f.stage == Input && !f.showError && f.withdrawal == Idle && !f.watchdogArmed
  {
    f.Cancel();
    f.WithdrawalEvent(Rejected(error));
    f.ErrorEffect();
  }
}
