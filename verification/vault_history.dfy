/**
 * `useVaultHistory`: the six fetched event-log lists are tagged and merged,
 * ordered newest block first, the blocks of events without a timestamp are
 * collected once each, their timestamps are fetched into a table, and every
 * event gets its own timestamp or the one of its block.
 */
module VaultHistory {
  import opened Wrappers

  datatype EventKind = Deposit | Withdraw | WithdrawalRequested | WithdrawalCancelled | UsdcTransfer
  datatype Direction = In | Out

  /**
   * A fetched log: transaction hash, block number, the `timestamp` argument
   * when the event has one (Deposit and Withdraw do), and the other decoded
   * arguments.
   */
  datatype Log = Log(hash: string, blockNumber: nat, timestamp: Option<nat>, args: seq<int>)

  datatype Event = Event(
    kind: EventKind, direction: Option<Direction>,
    hash: string, blockNumber: nat, timestamp: Option<nat>, args: seq<int>)

  function Tag(logs: seq<Log>, kind: EventKind, direction: Option<Direction>): (events: seq<Event>)
    ensures |events| == |logs|
  {
    if |logs| == 0 then []
    else
      var l := logs[0];
      [Event(kind, direction, l.hash, l.blockNumber, l.timestamp, l.args)] + Tag(logs[1..], kind, direction)
  }

  /** The log an event was made from. */
  function Untag(events: seq<Event>): (logs: seq<Log>)
    ensures |logs| == |events|
  {
    if |events| == 0 then []
    else
      var e := events[0];
      [Log(e.hash, e.blockNumber, e.timestamp, e.args)] + Untag(events[1..])
  }

  /** The events of one list: same kind and direction. */
  function Select(events: seq<Event>, kind: EventKind, direction: Option<Direction>): (r: seq<Event>)
    ensures |r| <= |events|
  {
    if |events| == 0 then []
    else if events[0].kind == kind && events[0].direction == direction
    then [events[0]] + Select(events[1..], kind, direction)
    else Select(events[1..], kind, direction)
  }

  /** The spread of the six tagged lists, in fetch order. */
  function Merge(deposits: seq<Log>, withdrawals: seq<Log>, requested: seq<Log>,
                 cancelled: seq<Log>, incoming: seq<Log>, outgoing: seq<Log>): (all: seq<Event>)
    ensures |all| == |deposits| + |withdrawals| + |requested| + |cancelled| + |incoming| + |outgoing|
  {
    Tag(deposits, Deposit, None) + Tag(withdrawals, Withdraw, None) +
    Tag(requested, WithdrawalRequested, None) + Tag(cancelled, WithdrawalCancelled, None) +
    Tag(incoming, UsdcTransfer, Some(In)) + Tag(outgoing, UsdcTransfer, Some(Out))
  }

  lemma {:induction false} UntagTag(logs: seq<Log>, kind: EventKind, direction: Option<Direction>)
    ensures Untag(Tag(logs, kind, direction)) == logs
  {
    if |logs| > 0 {
      UntagTag(logs[1..], kind, direction);
      assert Tag(logs, kind, direction)[1..] == Tag(logs[1..], kind, direction);
    }
  }

  lemma {:induction false} SelectAppend(a: seq<Event>, b: seq<Event>, kind: EventKind, direction: Option<Direction>)
    ensures Select(a + b, kind, direction) == Select(a, kind, direction) + Select(b, kind, direction)
  {
    if |a| > 0 {
      assert (a + b)[1..] == a[1..] + b;
      SelectAppend(a[1..], b, kind, direction);
    } else {
      assert a + b == b;
    }
  }

  /** A tagged list holds only its own kind and direction. */
  lemma {:induction false} SelectTagSame(logs: seq<Log>, kind: EventKind, direction: Option<Direction>)
    ensures Select(Tag(logs, kind, direction), kind, direction) == Tag(logs, kind, direction)
  {
    if |logs| > 0 {
      SelectTagSame(logs[1..], kind, direction);
      assert Tag(logs, kind, direction)[1..] == Tag(logs[1..], kind, direction);
    }
  }

  lemma {:induction false} SelectTagOther(logs: seq<Log>, k: EventKind, d: Option<Direction>,
                                          kind: EventKind, direction: Option<Direction>)
    requires k != kind || d != direction
    ensures Select(Tag(logs, k, d), kind, direction) == []
  {
    if |logs| > 0 {
      SelectTagOther(logs[1..], k, d, kind, direction);
      assert Tag(logs, k, d)[1..] == Tag(logs[1..], k, d);
    }
  }

  /** Selecting from the merge selects from each tagged list in turn. */
  lemma SelectMerge(deposits: seq<Log>, withdrawals: seq<Log>, requested: seq<Log>,
                    cancelled: seq<Log>, incoming: seq<Log>, outgoing: seq<Log>,
                    kind: EventKind, direction: Option<Direction>)
    ensures Select(Merge(deposits, withdrawals, requested, cancelled, incoming, outgoing), kind, direction) ==
      Select(Tag(deposits, Deposit, None), kind, direction) +
      Select(Tag(withdrawals, Withdraw, None), kind, direction) +
      Select(Tag(requested, WithdrawalRequested, None), kind, direction) +
      Select(Tag(cancelled, WithdrawalCancelled, None), kind, direction) +
      Select(Tag(incoming, UsdcTransfer, Some(In)), kind, direction) +
      Select(Tag(outgoing, UsdcTransfer, Some(Out)), kind, direction)
  {
    var t1, t2, t3 := Tag(deposits, Deposit, None), Tag(withdrawals, Withdraw, None), Tag(requested, WithdrawalRequested, None);
    var t4, t5, t6 := Tag(cancelled, WithdrawalCancelled, None), Tag(incoming, UsdcTransfer, Some(In)), Tag(outgoing, UsdcTransfer, Some(Out));
    SelectAppend(t1 + t2 + t3 + t4 + t5, t6, kind, direction);
    SelectAppend(t1 + t2 + t3 + t4, t5, kind, direction);
    SelectAppend(t1 + t2 + t3, t4, kind, direction);
    SelectAppend(t1 + t2, t3, kind, direction);
    SelectAppend(t1, t2, kind, direction);
  }

  /**
   * The merged history holds exactly the six lists: the events of each kind
   * and direction are that list's logs, in order, and there are no others.
   */
  lemma MergeKeepsEachList(deposits: seq<Log>, withdrawals: seq<Log>, requested: seq<Log>,
                           cancelled: seq<Log>, incoming: seq<Log>, outgoing: seq<Log>)
    ensures var all := Merge(deposits, withdrawals, requested, cancelled, incoming, outgoing);
      Untag(Select(all, Deposit, None)) == deposits &&
      Untag(Select(all, Withdraw, None)) == withdrawals &&
      Untag(Select(all, WithdrawalRequested, None)) == requested &&
      Untag(Select(all, WithdrawalCancelled, None)) == cancelled &&
      Untag(Select(all, UsdcTransfer, Some(In))) == incoming &&
      Untag(Select(all, UsdcTransfer, Some(Out))) == outgoing &&
      Select(all, UsdcTransfer, None) == [] &&
      Select(all, Deposit, Some(In)) == []
  {
    KeepsDeposits(deposits, withdrawals, requested, cancelled, incoming, outgoing);
    KeepsWithdrawals(deposits, withdrawals, requested, cancelled, incoming, outgoing);
    KeepsRequested(deposits, withdrawals, requested, cancelled, incoming, outgoing);
    KeepsCancelled(deposits, withdrawals, requested, cancelled, incoming, outgoing);
    KeepsIncoming(deposits, withdrawals, requested, cancelled, incoming, outgoing);
    KeepsOutgoing(deposits, withdrawals, requested, cancelled, incoming, outgoing);
    NoOtherEvents(deposits, withdrawals, requested, cancelled, incoming, outgoing, UsdcTransfer, None);
    NoOtherEvents(deposits, withdrawals, requested, cancelled, incoming, outgoing, Deposit, Some(In));
  }

  lemma KeepsDeposits(deposits: seq<Log>, withdrawals: seq<Log>, requested: seq<Log>,
                    cancelled: seq<Log>, incoming: seq<Log>, outgoing: seq<Log>)
    ensures Untag(Select(Merge(deposits, withdrawals, requested, cancelled, incoming, outgoing), Deposit, None)) == deposits
  {
    SelectMerge(deposits, withdrawals, requested, cancelled, incoming, outgoing, Deposit, None);
    SelectTagSame(deposits, Deposit, None);
    SelectTagOther(withdrawals, Withdraw, None, Deposit, None);
    SelectTagOther(requested, WithdrawalRequested, None, Deposit, None);
    SelectTagOther(cancelled, WithdrawalCancelled, None, Deposit, None);
    SelectTagOther(incoming, UsdcTransfer, Some(In), Deposit, None);
    SelectTagOther(outgoing, UsdcTransfer, Some(Out), Deposit, None);
    assert Select(Merge(deposits, withdrawals, requested, cancelled, incoming, outgoing), Deposit, None) == Tag(deposits, Deposit, None);
    UntagTag(deposits, Deposit, None);
  }

  lemma KeepsWithdrawals(deposits: seq<Log>, withdrawals: seq<Log>, requested: seq<Log>,
                    cancelled: seq<Log>, incoming: seq<Log>, outgoing: seq<Log>)
    ensures Untag(Select(Merge(deposits, withdrawals, requested, cancelled, incoming, outgoing), Withdraw, None)) == withdrawals
  {
    SelectMerge(deposits, withdrawals, requested, cancelled, incoming, outgoing, Withdraw, None);
    SelectTagOther(deposits, Deposit, None, Withdraw, None);
    SelectTagSame(withdrawals, Withdraw, None);
    SelectTagOther(requested, WithdrawalRequested, None, Withdraw, None);
    SelectTagOther(cancelled, WithdrawalCancelled, None, Withdraw, None);
    SelectTagOther(incoming, UsdcTransfer, Some(In), Withdraw, None);
    SelectTagOther(outgoing, UsdcTransfer, Some(Out), Withdraw, None);
    assert Select(Merge(deposits, withdrawals, requested, cancelled, incoming, outgoing), Withdraw, None) == Tag(withdrawals, Withdraw, None);
    UntagTag(withdrawals, Withdraw, None);
  }

  lemma KeepsRequested(deposits: seq<Log>, withdrawals: seq<Log>, requested: seq<Log>,
                    cancelled: seq<Log>, incoming: seq<Log>, outgoing: seq<Log>)
    ensures Untag(Select(Merge(deposits, withdrawals, requested, cancelled, incoming, outgoing), WithdrawalRequested, None)) == requested
  {
    SelectMerge(deposits, withdrawals, requested, cancelled, incoming, outgoing, WithdrawalRequested, None);
    SelectTagOther(deposits, Deposit, None, WithdrawalRequested, None);
    SelectTagOther(withdrawals, Withdraw, None, WithdrawalRequested, None);
    SelectTagSame(requested, WithdrawalRequested, None);
    SelectTagOther(cancelled, WithdrawalCancelled, None, WithdrawalRequested, None);
    SelectTagOther(incoming, UsdcTransfer, Some(In), WithdrawalRequested, None);
    SelectTagOther(outgoing, UsdcTransfer, Some(Out), WithdrawalRequested, None);
    assert Select(Merge(deposits, withdrawals, requested, cancelled, incoming, outgoing), WithdrawalRequested, None) == Tag(requested, WithdrawalRequested, None);
    UntagTag(requested, WithdrawalRequested, None);
  }

  lemma KeepsCancelled(deposits: seq<Log>, withdrawals: seq<Log>, requested: seq<Log>,
                    cancelled: seq<Log>, incoming: seq<Log>, outgoing: seq<Log>)
    ensures Untag(Select(Merge(deposits, withdrawals, requested, cancelled, incoming, outgoing), WithdrawalCancelled, None)) == cancelled
  {
    SelectMerge(deposits, withdrawals, requested, cancelled, incoming, outgoing, WithdrawalCancelled, None);
    SelectTagOther(deposits, Deposit, None, WithdrawalCancelled, None);
    SelectTagOther(withdrawals, Withdraw, None, WithdrawalCancelled, None);
    SelectTagOther(requested, WithdrawalRequested, None, WithdrawalCancelled, None);
    SelectTagSame(cancelled, WithdrawalCancelled, None);
    SelectTagOther(incoming, UsdcTransfer, Some(In), WithdrawalCancelled, None);
    SelectTagOther(outgoing, UsdcTransfer, Some(Out), WithdrawalCancelled, None);
    assert Select(Merge(deposits, withdrawals, requested, cancelled, incoming, outgoing), WithdrawalCancelled, None) == Tag(cancelled, WithdrawalCancelled, None);
    UntagTag(cancelled, WithdrawalCancelled, None);
  }

  lemma KeepsIncoming(deposits: seq<Log>, withdrawals: seq<Log>, requested: seq<Log>,
                    cancelled: seq<Log>, incoming: seq<Log>, outgoing: seq<Log>)
    ensures Untag(Select(Merge(deposits, withdrawals, requested, cancelled, incoming, outgoing), UsdcTransfer, Some(In))) == incoming
  {
    SelectMerge(deposits, withdrawals, requested, cancelled, incoming, outgoing, UsdcTransfer, Some(In));
    SelectTagOther(deposits, Deposit, None, UsdcTransfer, Some(In));
    SelectTagOther(withdrawals, Withdraw, None, UsdcTransfer, Some(In));
    SelectTagOther(requested, WithdrawalRequested, None, UsdcTransfer, Some(In));
    SelectTagOther(cancelled, WithdrawalCancelled, None, UsdcTransfer, Some(In));
    SelectTagSame(incoming, UsdcTransfer, Some(In));
    SelectTagOther(outgoing, UsdcTransfer, Some(Out), UsdcTransfer, Some(In));
    assert Select(Merge(deposits, withdrawals, requested, cancelled, incoming, outgoing), UsdcTransfer, Some(In)) == Tag(incoming, UsdcTransfer, Some(In));
    UntagTag(incoming, UsdcTransfer, Some(In));
  }

  lemma KeepsOutgoing(deposits: seq<Log>, withdrawals: seq<Log>, requested: seq<Log>,
                    cancelled: seq<Log>, incoming: seq<Log>, outgoing: seq<Log>)
    ensures Untag(Select(Merge(deposits, withdrawals, requested, cancelled, incoming, outgoing), UsdcTransfer, Some(Out))) == outgoing
  {
    SelectMerge(deposits, withdrawals, requested, cancelled, incoming, outgoing, UsdcTransfer, Some(Out));
    SelectTagOther(deposits, Deposit, None, UsdcTransfer, Some(Out));
    SelectTagOther(withdrawals, Withdraw, None, UsdcTransfer, Some(Out));
    SelectTagOther(requested, WithdrawalRequested, None, UsdcTransfer, Some(Out));
    SelectTagOther(cancelled, WithdrawalCancelled, None, UsdcTransfer, Some(Out));
    SelectTagOther(incoming, UsdcTransfer, Some(In), UsdcTransfer, Some(Out));
    SelectTagSame(outgoing, UsdcTransfer, Some(Out));
    assert Select(Merge(deposits, withdrawals, requested, cancelled, incoming, outgoing), UsdcTransfer, Some(Out)) == Tag(outgoing, UsdcTransfer, Some(Out));
    UntagTag(outgoing, UsdcTransfer, Some(Out));
  }

  /** A kind and direction none of the six lists carries selects nothing. */
  lemma NoOtherEvents(deposits: seq<Log>, withdrawals: seq<Log>, requested: seq<Log>,
                      cancelled: seq<Log>, incoming: seq<Log>, outgoing: seq<Log>,
                      kind: EventKind, direction: Option<Direction>)
    requires (kind == UsdcTransfer) != direction.Some?
    ensures Select(Merge(deposits, withdrawals, requested, cancelled, incoming, outgoing), kind, direction) == []
  {
    SelectMerge(deposits, withdrawals, requested, cancelled, incoming, outgoing, kind, direction);
    SelectTagOther(deposits, Deposit, None, kind, direction);
    SelectTagOther(withdrawals, Withdraw, None, kind, direction);
    SelectTagOther(requested, WithdrawalRequested, None, kind, direction);
    SelectTagOther(cancelled, WithdrawalCancelled, None, kind, direction);
    SelectTagOther(incoming, UsdcTransfer, Some(In), kind, direction);
    SelectTagOther(outgoing, UsdcTransfer, Some(Out), kind, direction);
  }

  // ---------------------------------------------------------------------------
  // Ordering: `sort((a, b) => Number(b.blockNumber) - Number(a.blockNumber))`,
  // a stable sort, newest block first.

  predicate NewestFirst(events: seq<Event>) {
    forall i, j :: 0 <= i < j < |events| ==> events[i].blockNumber >= events[j].blockNumber
  }

  /** The events of one block, in order. */
  function InBlock(events: seq<Event>, b: nat): seq<Event> {
    if |events| == 0 then []
    else if events[0].blockNumber == b then [events[0]] + InBlock(events[1..], b)
    else InBlock(events[1..], b)
  }

  /** Put `e` before the first event whose block is not newer than its own. */
  function Insert(e: Event, events: seq<Event>): (r: seq<Event>)
    ensures multiset(r) == multiset(events) + multiset{e}
  {
    if |events| == 0 || events[0].blockNumber <= e.blockNumber then [e] + events
    else
      assert events == [events[0]] + events[1..];
      [events[0]] + Insert(e, events[1..])
  }

  function SortByBlock(events: seq<Event>): (r: seq<Event>)
    ensures multiset(r) == multiset(events)
  {
    if |events| == 0 then []
    else
      assert events == [events[0]] + events[1..];
      Insert(events[0], SortByBlock(events[1..]))
  }

  lemma {:induction false} InsertNewestFirst(e: Event, events: seq<Event>)
    requires NewestFirst(events)
    ensures NewestFirst(Insert(e, events))
  {
    if |events| == 0 || events[0].blockNumber <= e.blockNumber {
    } else {
      InsertNewestFirst(e, events[1..]);
      var tail := Insert(e, events[1..]);
      assert tail[0].blockNumber <= events[0].blockNumber by {
        if |events| == 1 || events[1].blockNumber <= e.blockNumber {
          assert tail[0] == e;
        } else {
          assert tail[0] == events[1];
        }
      }
      var r := [events[0]] + tail;
      forall i, j | 0 <= i < j < |r| ensures r[i].blockNumber >= r[j].blockNumber {
        assert r[j] == tail[j - 1];
        if i > 0 { assert r[i] == tail[i - 1]; }
      }
      assert Insert(e, events) == r;
    }
  }

  /** The history is ordered newest block first. */
  lemma {:induction false} SortNewestFirst(events: seq<Event>)
    ensures NewestFirst(SortByBlock(events))
  {
    if |events| > 0 {
      SortNewestFirst(events[1..]);
      InsertNewestFirst(events[0], SortByBlock(events[1..]));
    }
  }

  lemma {:induction false} InBlockInsert(e: Event, events: seq<Event>, b: nat)
    ensures InBlock(Insert(e, events), b) ==
      if e.blockNumber == b then [e] + InBlock(events, b) else InBlock(events, b)
  {
    if |events| == 0 || events[0].blockNumber <= e.blockNumber {
      assert ([e] + events)[1..] == events;
    } else {
      InBlockInsert(e, events[1..], b);
      assert ([events[0]] + Insert(e, events[1..]))[1..] == Insert(e, events[1..]);
      if events[0].blockNumber == b {
        assert e.blockNumber != b;
      }
    }
  }

  /** The sort is stable: the events of any one block keep their fetch order. */
  lemma {:induction false} SortIsStable(events: seq<Event>, b: nat)
    ensures InBlock(SortByBlock(events), b) == InBlock(events, b)
  {
    if |events| > 0 {
      SortIsStable(events[1..], b);
      InBlockInsert(events[0], SortByBlock(events[1..]), b);
    }
  }

  // ---------------------------------------------------------------------------
  // Unique blocks: `[...new Set(events.filter(e => !e.timestamp).map(e => e.blockNumber))]`.

  /** `!e.timestamp`: missing or 0n. */
  predicate NeedsTimestamp(e: Event) {
    e.timestamp.None? || e.timestamp.value == 0
  }

  function BlocksNeedingTimestamp(events: seq<Event>): (blocks: seq<nat>)
    ensures |blocks| <= |events|
  {
    if |events| == 0 then []
    else if NeedsTimestamp(events[0]) then [events[0].blockNumber] + BlocksNeedingTimestamp(events[1..])
    else BlocksNeedingTimestamp(events[1..])
  }

  /** Spreading a `Set`: first occurrences, in insertion order. */
  function Dedupe(xs: seq<nat>): (r: seq<nat>)
    ensures |r| <= |xs|
  {
    if |xs| == 0 then []
    else
      var rest := Dedupe(xs[..|xs| - 1]);
      if xs[|xs| - 1] in rest then rest else rest + [xs[|xs| - 1]]
  }

  predicate NoDuplicates(xs: seq<nat>) {
    forall i, j :: 0 <= i < j < |xs| ==> xs[i] != xs[j]
  }

  lemma {:induction false} DedupeSpec(xs: seq<nat>)
    ensures NoDuplicates(Dedupe(xs))
    ensures forall x :: x in Dedupe(xs) <==> x in xs
  {
    if |xs| > 0 {
      var init := xs[..|xs| - 1];
      DedupeSpec(init);
      assert xs == init + [xs[|xs| - 1]];
    }
  }

  function UniqueBlocks(events: seq<Event>): seq<nat> {
    Dedupe(BlocksNeedingTimestamp(events))
  }

  lemma {:induction false} BlocksNeedingTimestampSpec(events: seq<Event>, b: nat)
    ensures b in BlocksNeedingTimestamp(events) <==>
      exists i :: 0 <= i < |events| && NeedsTimestamp(events[i]) && events[i].blockNumber == b
  {
    if |events| > 0 {
      BlocksNeedingTimestampSpec(events[1..], b);
      if exists i :: 0 <= i < |events| && NeedsTimestamp(events[i]) && events[i].blockNumber == b {
        var i :| 0 <= i < |events| && NeedsTimestamp(events[i]) && events[i].blockNumber == b;
        if i > 0 { assert events[1..][i - 1] == events[i]; }
      }
      if exists i :: 0 <= i < |events[1..]| && NeedsTimestamp(events[1..][i]) && events[1..][i].blockNumber == b {
        var i :| 0 <= i < |events[1..]| && NeedsTimestamp(events[1..][i]) && events[1..][i].blockNumber == b;
        assert events[i + 1] == events[1..][i];
      }
    }
  }

  /**
   * The blocks to look up are listed once each, and are exactly the blocks of
   * the events without a truthy timestamp.
   */
  lemma UniqueBlocksSpec(events: seq<Event>)
    ensures NoDuplicates(UniqueBlocks(events))
    ensures forall b :: b in UniqueBlocks(events) <==>
      exists i :: 0 <= i < |events| && NeedsTimestamp(events[i]) && events[i].blockNumber == b
  {
    DedupeSpec(BlocksNeedingTimestamp(events));
    forall b ensures b in UniqueBlocks(events) <==>
      exists i :: 0 <= i < |events| && NeedsTimestamp(events[i]) && events[i].blockNumber == b
    {
      BlocksNeedingTimestampSpec(events, b);
    }
  }

  // ---------------------------------------------------------------------------
  // Timestamps.

  /**
   * `blockTimestamps`, filled in place: for each block, `chain` holds the
   * timestamp `getBlock` returns, and a block missing from `chain` is one
   * whose fetch failed (the failure is logged and skipped).
   */
  method FetchTimestamps(blocks: seq<nat>, chain: map<nat, nat>) returns (table: map<nat, nat>)
    ensures forall b :: b in table <==> b in blocks && b in chain
    ensures forall b :: b in table ==> table[b] == chain[b]
  {
    table := map[];
    var k := 0;
    while k < |blocks|
      invariant 0 <= k <= |blocks|
      invariant forall b :: b in table <==> b in blocks[..k] && b in chain
      invariant forall b :: b in table ==> table[b] == chain[b]
    {
      var bn := blocks[k];
      if bn in chain {
        table := table[bn := chain[bn]];
      }
      assert blocks[..k + 1] == blocks[..k] + [bn];
      k := k + 1;
    }
    assert blocks[..k] == blocks;
  }

  /** `timestamp: event.timestamp || blockTimestamps[blockNumber]`. */
  function FillTimestamp(e: Event, table: map<nat, nat>): (r: Event)
    ensures r == e.(timestamp := r.timestamp)
  {
    if !NeedsTimestamp(e) then e
    else e.(timestamp := if e.blockNumber in table then Some(table[e.blockNumber]) else None)
  }

  function FillAll(events: seq<Event>, table: map<nat, nat>): (r: seq<Event>)
    ensures |r| == |events|
    ensures forall i :: 0 <= i < |events| ==> r[i] == FillTimestamp(events[i], table)
  {
    if |events| == 0 then [] else [FillTimestamp(events[0], table)] + FillAll(events[1..], table)
  }

  /** The timestamp an event ends up with: its own when truthy, else its block's, if fetched. */
  function FinalTimestamp(e: Event, chain: map<nat, nat>): Option<nat> {
    if !NeedsTimestamp(e) then e.timestamp
    else if e.blockNumber in chain then Some(chain[e.blockNumber])
    else None
  }

  /**
   * The query function after the logs and the current block are fetched:
   * merge, order newest first, look up the blocks of events without a
   * timestamp, and fill each event's timestamp.
   */
  method AssembleHistory(deposits: seq<Log>, withdrawals: seq<Log>, requested: seq<Log>,
                         cancelled: seq<Log>, incoming: seq<Log>, outgoing: seq<Log>,
                         chain: map<nat, nat>)
    returns (history: seq<Event>)
    ensures var sorted := SortByBlock(Merge(deposits, withdrawals, requested, cancelled, incoming, outgoing));
      |history| == |sorted| &&
      NewestFirst(history) &&
      forall i :: 0 <= i < |history| ==>
        history[i] == sorted[i].(timestamp := FinalTimestamp(sorted[i], chain))
  {
    var all := Merge(deposits, withdrawals, requested, cancelled, incoming, outgoing);
    var sorted := SortByBlock(all);
    SortNewestFirst(all);
    var uniqueBlocks := UniqueBlocks(sorted);
    UniqueBlocksSpec(sorted);
    var table := FetchTimestamps(uniqueBlocks, chain);
    history := FillAll(sorted, table);
    forall i | 0 <= i < |history|
      ensures history[i] == sorted[i].(timestamp := FinalTimestamp(sorted[i], chain))
    {
      if NeedsTimestamp(sorted[i]) {
        assert sorted[i].blockNumber in uniqueBlocks;
      }
    }
  }
}
