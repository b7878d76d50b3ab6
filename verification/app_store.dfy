/**
 * The persisted application store (`useAppStore`): a wallet slice, a list of
 * positions and the current transaction state, each replaced by its setter,
 * plus the projection of the slices that are persisted.
 */
module AppStore {
  import opened Wrappers

  datatype WalletState = WalletState(
    address: Option<string>,      // null when no wallet is connected
    isConnected: bool,
    usdcBalance: real,
    network: string,
    isCorrectNetwork: bool)

  /** `Partial<WalletState>`: a field is present (Some) or absent (None). */
  datatype WalletPatch = WalletPatch(
    address: Option<Option<string>>,
    isConnected: Option<bool>,
    usdcBalance: Option<real>,
    network: Option<string>,
    isCorrectNetwork: Option<bool>)

  datatype TxStatus = Idle | Approving | Depositing | Success | Error

  datatype TxState = TxState(
    status: TxStatus,
    txHash: Option<string>,
    error: Option<string>,
    amount: Option<real>)

  /**
   * `Partial<TransactionState>`. An optional field of the patch is absent
   * (None), set (Some(Some(v))) or explicitly `undefined` (Some(None)), which
   * clears it after the spread.
   */
  datatype TxPatch = TxPatch(
    status: Option<TxStatus>,
    txHash: Option<Option<string>>,
    error: Option<Option<string>>,
    amount: Option<Option<real>>)

  datatype UserPosition = UserPosition(vaultId: string, balance: real, shares: real, depositedAt: string)

  /** The slices the persist middleware writes out. */
  datatype Persisted = Persisted(wallet: WalletState, positions: seq<UserPosition>)

  const InitialWallet := WalletState(None, false, 0.0, "unknown", false)
  const IdleTx := TxState(Idle, None, None, None)

  /** `{ ...w, ...patch }`: a supplied field wins, every other field keeps its value. */
  function MergeWallet(w: WalletState, patch: WalletPatch): (r: WalletState)
    ensures r.address == patch.address.GetOr(w.address)
    ensures r.isConnected == patch.isConnected.GetOr(w.isConnected)
    ensures r.usdcBalance == patch.usdcBalance.GetOr(w.usdcBalance)
    ensures r.network == patch.network.GetOr(w.network)
    ensures r.isCorrectNetwork == patch.isCorrectNetwork.GetOr(w.isCorrectNetwork)
  {
    WalletState(
      if patch.address.Some? then patch.address.value else w.address,
      if patch.isConnected.Some? then patch.isConnected.value else w.isConnected,
      if patch.usdcBalance.Some? then patch.usdcBalance.value else w.usdcBalance,
      if patch.network.Some? then patch.network.value else w.network,
      if patch.isCorrectNetwork.Some? then patch.isCorrectNetwork.value else w.isCorrectNetwork)
  }

  /** `{ ...tx, ...patch }`. */
  function MergeTx(tx: TxState, patch: TxPatch): (r: TxState)
    ensures r.status == patch.status.GetOr(tx.status)
    ensures r.txHash == patch.txHash.GetOr(tx.txHash)
    ensures r.error == patch.error.GetOr(tx.error)
    ensures r.amount == patch.amount.GetOr(tx.amount)
  {
    TxState(
      if patch.status.Some? then patch.status.value else tx.status,
      if patch.txHash.Some? then patch.txHash.value else tx.txHash,
      if patch.error.Some? then patch.error.value else tx.error,
      if patch.amount.Some? then patch.amount.value else tx.amount)
  }

  /** The patch equivalent to applying `p` and then `q`: `q`'s fields win. */
  function Then<T>(p: Option<T>, q: Option<T>): Option<T> {
    if q.Some? then q else p
  }

  function ComposeWallet(p: WalletPatch, q: WalletPatch): WalletPatch {
    WalletPatch(Then(p.address, q.address), Then(p.isConnected, q.isConnected),
      Then(p.usdcBalance, q.usdcBalance), Then(p.network, q.network),
      Then(p.isCorrectNetwork, q.isCorrectNetwork))
  }

  /** Applying the same wallet patch twice gives the same wallet as applying it once. */
  lemma MergeWalletIdempotent(w: WalletState, patch: WalletPatch)
    ensures MergeWallet(MergeWallet(w, patch), patch) == MergeWallet(w, patch)
  {
  }

  /** Two successive wallet updates are one update by the composed patch. */
  lemma MergeWalletComposes(w: WalletState, p: WalletPatch, q: WalletPatch)
    ensures MergeWallet(MergeWallet(w, p), q) == MergeWallet(w, ComposeWallet(p, q))
  {
  }

  /** A patch naming no field leaves the wallet as it was. */
  lemma EmptyWalletPatchKeeps(w: WalletState)
    ensures MergeWallet(w, WalletPatch(None, None, None, None, None)) == w
  {
  }

  /** A status-only patch keeps a recorded error, hash and amount. */
  lemma StatusChangeKeepsError(tx: TxState, s: TxStatus)
    ensures MergeTx(tx, TxPatch(Some(s), None, None, None)) == tx.(status := s)
  {
  }

  /** The application state seen by the persist middleware. */
  datatype AppState = AppState(wallet: WalletState, positions: seq<UserPosition>, txState: TxState)

  /** `partialize`: only the wallet and the positions are persisted. */
  function Partialize(s: AppState): (p: Persisted)
    ensures p.wallet == s.wallet && p.positions == s.positions
  {
    Persisted(s.wallet, s.positions)
  }

  /** Two states differing only in the transaction state persist the same snapshot. */
  lemma PartializeIgnoresTxState(s: AppState, tx: TxState)
    ensures Partialize(s.(txState := tx)) == Partialize(s)
  {
  }

  /** Two states persist the same snapshot exactly when their wallet and positions agree. */
  lemma PartializeDeterminedBySlices(s: AppState, t: AppState)
    ensures Partialize(s) == Partialize(t) <==> (s.wallet == t.wallet && s.positions == t.positions)
  {
  }

  class Store {
    var wallet: WalletState
    var positions: seq<UserPosition>
    var txState: TxState

    /** The store as created: disconnected wallet, no positions, idle transaction. */
    constructor ()
      ensures wallet == InitialWallet
      ensures wallet.address.None? && !wallet.isConnected && wallet.usdcBalance == 0.0
      ensures wallet.network == "unknown" && !wallet.isCorrectNetwork
      ensures positions == []
      ensures txState == TxState(Idle, None, None, None)
    {
      wallet := InitialWallet;
      positions := [];
      txState := IdleTx;
    }

    function State(): AppState
      reads this
    {
      AppState(wallet, positions, txState)
    }

    /** `setWallet`: merge the supplied fields; positions and txState untouched. */
    method SetWallet(patch: WalletPatch)
      modifies this
      ensures wallet == MergeWallet(old(wallet), patch)
      ensures positions == old(positions) && txState == old(txState)
    {
      wallet := MergeWallet(wallet, patch);
    }

    /** `setPositions`: replace the positions and nothing else. */
    method SetPositions(ps: seq<UserPosition>)
      modifies this
      ensures positions == ps
      ensures wallet == old(wallet) && txState == old(txState)
    {
      positions := ps;
    }

    /** `setTxState`: merge into the previous transaction state. */
    method SetTxState(patch: TxPatch)
      modifies this
      ensures txState == MergeTx(old(txState), patch)
      ensures wallet == old(wallet) && positions == old(positions)
    {
      txState := MergeTx(txState, patch);
    }

    /** `resetTxState`: exactly `{status: "idle"}`, dropping hash, error and amount. */
    method ResetTxState()
      modifies this
      ensures txState == IdleTx
      ensures txState.txHash.None? && txState.error.None? && txState.amount.None?
      ensures wallet == old(wallet) && positions == old(positions)
    {
      txState := IdleTx;
    }

    /** The snapshot the persist middleware writes. */
    function Snapshot(): (p: Persisted)
      reads this
      ensures p.wallet == wallet && p.positions == positions
    {
      Partialize(State())
    }
  }
}
