/**
 * Reading the TM vault contract (`useTMVault`): positional decoding of the
 * tuples `getVaultStats` and `getUserPosition` return, normalisation of the
 * `previewDeposit`/`previewWithdraw` results, the `enabled` guards of those
 * queries and the block window of the history query.
 */
module VaultData {
  import opened Wrappers

  datatype VaultType = Stable | Growth | Turbo

  /** A value inside a contract return tuple; `as` casts do not convert it. */
  datatype Word = Num(n: int) | Text(s: string) | Flag(b: bool)

  /** What a read query holds: null/undefined, a single value, or an array. */
  datatype ReadResult = Nothing | Single(w: Word) | Tuple(items: seq<Word>)

  /** `items[i]`: an index past the end reads `undefined` (None). */
  function At(items: seq<Word>, i: nat): (r: Option<Word>)
    ensures i < |items| <==> r.Some?
    ensures r.Some? ==> r.value == items[i]
  {
    if i < |items| then Some(items[i]) else None
  }

  datatype VaultStats = VaultStats(
    name: Option<Word>, minAPY: Option<Word>, maxAPY: Option<Word>, tvl: Option<Word>,
    totalShares: Option<Word>, totalDeposits: Option<Word>, totalWithdrawals: Option<Word>,
    lockPeriod: Option<Word>)

  datatype UserPositionData = UserPositionData(
    stableShares: Option<Word>, stableAssets: Option<Word>,
    growthShares: Option<Word>, growthAssets: Option<Word>,
    turboShares: Option<Word>, turboAssets: Option<Word>,
    canWithdrawStable: Option<Word>, canWithdrawGrowth: Option<Word>, canWithdrawTurbo: Option<Word>)

  function StatsFields(s: VaultStats): seq<Option<Word>> {
    [s.name, s.minAPY, s.maxAPY, s.tvl, s.totalShares, s.totalDeposits, s.totalWithdrawals, s.lockPeriod]
  }

  function PositionFields(p: UserPositionData): seq<Option<Word>> {
    [p.stableShares, p.stableAssets, p.growthShares, p.growthAssets, p.turboShares,
     p.turboAssets, p.canWithdrawStable, p.canWithdrawGrowth, p.canWithdrawTurbo]
  }

  /** `stats` is defined only for an array result; field i is tuple position i. */
  function DecodeStats(raw: ReadResult): (stats: Option<VaultStats>)
    ensures stats.Some? <==> raw.Tuple?
    ensures stats.Some? ==>
      (forall i :: 0 <= i < 8 ==> StatsFields(stats.value)[i] == At(raw.items, i))
  {
    match raw
    case Tuple(t) =>
      Some(VaultStats(At(t, 0), At(t, 1), At(t, 2), At(t, 3), At(t, 4), At(t, 5), At(t, 6), At(t, 7)))
    case _ => None
  }

  /** `position` is defined only for an array result; field i is tuple position i. */
  function DecodePosition(raw: ReadResult): (position: Option<UserPositionData>)
    ensures position.Some? <==> raw.Tuple?
    ensures position.Some? ==>
      (forall i :: 0 <= i < 9 ==> PositionFields(position.value)[i] == At(raw.items, i))
  {
    match raw
    case Tuple(t) =>
      Some(UserPositionData(At(t, 0), At(t, 1), At(t, 2), At(t, 3), At(t, 4), At(t, 5),
        At(t, 6), At(t, 7), At(t, 8)))
    case _ => None
  }

  predicate StatsComplete(s: VaultStats) {
    s.name.Some? && s.minAPY.Some? && s.maxAPY.Some? && s.tvl.Some? && s.totalShares.Some? &&
    s.totalDeposits.Some? && s.totalWithdrawals.Some? && s.lockPeriod.Some?
  }

  predicate PositionComplete(p: UserPositionData) {
    p.stableShares.Some? && p.stableAssets.Some? && p.growthShares.Some? && p.growthAssets.Some? &&
    p.turboShares.Some? && p.turboAssets.Some? && p.canWithdrawStable.Some? &&
    p.canWithdrawGrowth.Some? && p.canWithdrawTurbo.Some?
  }

  /** The tuple the contract returns for the given stats (all fields present). */
  function EncodeStats(s: VaultStats): seq<Word>
    requires StatsComplete(s)
  {
    [s.name.value, s.minAPY.value, s.maxAPY.value, s.tvl.value, s.totalShares.value,
     s.totalDeposits.value, s.totalWithdrawals.value, s.lockPeriod.value]
  }

  function EncodePosition(p: UserPositionData): seq<Word>
    requires PositionComplete(p)
  {
    [p.stableShares.value, p.stableAssets.value, p.growthShares.value, p.growthAssets.value,
     p.turboShares.value, p.turboAssets.value, p.canWithdrawStable.value,
     p.canWithdrawGrowth.value, p.canWithdrawTurbo.value]
  }

  /** Decoding a full stats tuple gives back the stats it encodes. */
  lemma StatsRoundTrip(s: VaultStats)
    requires StatsComplete(s)
    ensures DecodeStats(Tuple(EncodeStats(s))) == Some(s)
  {
  }

  /** Decoding a full position tuple gives back the position it encodes. */
  lemma PositionRoundTrip(p: UserPositionData)
    requires PositionComplete(p)
    ensures DecodePosition(Tuple(EncodePosition(p))) == Some(p)
  {
  }

  /** A tuple of at least eight values decodes completely; values past the eighth are ignored. */
  lemma StatsFromLongTuple(t: seq<Word>)
    requires |t| >= 8
    ensures StatsComplete(DecodeStats(Tuple(t)).value)
    ensures EncodeStats(DecodeStats(Tuple(t)).value) == t[..8]
  {
  }

  /** A tuple of at least nine values decodes completely; values past the ninth are ignored. */
  lemma PositionFromLongTuple(t: seq<Word>)
    requires |t| >= 9
    ensures PositionComplete(DecodePosition(Tuple(t)).value)
    ensures EncodePosition(DecodePosition(Tuple(t)).value) == t[..9]
  {
  }

  /** A tuple shorter than the record leaves its trailing fields undefined. */
  lemma ShortTupleLeavesFieldsUndefined(t: seq<Word>, i: nat)
    requires |t| <= i < 8
    ensures StatsFields(DecodeStats(Tuple(t)).value)[i].None?
  {
  }

  /** What a preview query may hold; the contract returns integers. */
  datatype PreviewData = Absent | Scalar(n: int) | Items(xs: seq<int>)

  /** The parsed preview, or the TypeError `preview[0].toString()` raises on an empty array. */
  datatype Preview = NoPreview | Preview(value: int) | Throws

  function ParsePreview(data: PreviewData): (p: Preview)
    ensures data.Absent? <==> p.NoPreview?
    ensures data.Scalar? ==> p == Preview(data.n)
    ensures data.Items? && |data.xs| > 0 ==> p == Preview(data.xs[0])
    ensures p.Throws? <==> data.Items? && |data.xs| == 0
  {
    match data
    case Absent => NoPreview
    case Scalar(n) => Preview(n)
    case Items(xs) => if |xs| == 0 then Throws else Preview(xs[0])
  }

  /** `enabled: !!publicClient && amount > 0n` of both preview queries. */
  predicate PreviewEnabled(hasClient: bool, amount: int) {
    hasClient && amount > 0
  }

  /** The data a query holds: what the read returned when enabled, undefined when it never ran. */
  function QueryData(enabled: bool, fetched: PreviewData): PreviewData {
    if enabled then fetched else Absent
  }

  /**
   * A query whose key carries an amount at or below zero is never fetched,
   * so its data stays undefined and no preview is shown, whatever the
   * contract would have answered.
   */
  lemma NoPreviewForNonPositiveAmount(hasClient: bool, amount: int, fetched: PreviewData)
    requires amount <= 0
    ensures !PreviewEnabled(hasClient, amount)
    ensures ParsePreview(QueryData(PreviewEnabled(hasClient, amount), fetched)) == NoPreview
  {
  }

  /** `enabled` of the stats, position and history queries. */
  predicate StatsEnabled(hasClient: bool) { hasClient }
  predicate PositionEnabled(hasClient: bool, hasAddress: bool) { hasClient && hasAddress }
  predicate HistoryEnabled(hasClient: bool, hasAddress: bool) { hasAddress && hasClient }

  /** The result a contract-read query holds: the read when enabled, undefined when it never ran. */
  function QueryRead(enabled: bool, fetched: ReadResult): ReadResult {
    if enabled then fetched else Nothing
  }

  /**
   * Without a client nothing is read; without a connected address neither the
   * position nor the history query runs, so no position is decoded,
   * whatever the contract would have answered.
   */
  lemma NoReadsWithoutClientOrAddress(hasClient: bool, hasAddress: bool, fetched: ReadResult)
    requires !hasClient || !hasAddress
    ensures !PositionEnabled(hasClient, hasAddress) && !HistoryEnabled(hasClient, hasAddress)
    ensures DecodePosition(QueryRead(PositionEnabled(hasClient, hasAddress), fetched)).None?
    ensures !hasClient ==> DecodeStats(QueryRead(StatsEnabled(hasClient), fetched)).None?
  {
  }

  const HistoryWindow := 50000

  /** The first block of the log queries: the last 50000 blocks, clipped at genesis. */
  function FromBlock(currentBlock: nat): (fromBlock: nat)
    ensures fromBlock <= currentBlock
    ensures currentBlock - fromBlock <= HistoryWindow
    ensures fromBlock > 0 ==> currentBlock - fromBlock == HistoryWindow
    ensures fromBlock == 0 <==> currentBlock <= HistoryWindow
  {
    if currentBlock - HistoryWindow > 0 then currentBlock - HistoryWindow else 0
  }

  /** A later current block never moves the window back. */
  lemma FromBlockMonotone(a: nat, b: nat)
    requires a <= b
    ensures FromBlock(a) <= FromBlock(b)
  {
  }
}
