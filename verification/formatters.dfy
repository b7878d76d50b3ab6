/** `formatAddress`: the short form of a wallet address shown in the UI. */
module Formatters {
  import opened Wrappers

  function Min(a: int, b: int): int { if a <= b then a else b }
  function Max(a: int, b: int): int { if a >= b then a else b }

  /** JavaScript's resolution of a `slice` index: negative counts from the end, then clamped to [0, n]. */
  function SliceIndex(k: int, n: nat): (r: nat)
    ensures r <= n
  {
    if k < 0 then Max(n + k, 0) else Min(k, n)
  }

  /** `s.slice(start, end)`, with `end` omitted when None. */
  function Slice(s: string, start: int, end: Option<int>): string {
    var from := SliceIndex(start, |s|);
    var to := if end.None? then |s| else SliceIndex(end.value, |s|);
    if from < to then s[from..to] else ""
  }

  /** `${address.slice(0, 6)}...${address.slice(-4)}`, or "" for the empty address. */
  function FormatAddress(address: string): (r: string)
    ensures address == "" ==> r == ""
    ensures address != "" ==>
      var n := |address|;
      r == address[..Min(6, n)] + "..." + address[n - Min(4, n)..]
  {
    if address == "" then ""
    else Slice(address, 0, Some(6)) + "..." + Slice(address, -4, None)
  }

  /** Every address of at least six characters is shortened to exactly 13 characters. */
  lemma FormatAddressLength(address: string)
    requires |address| >= 6
    ensures |FormatAddress(address)| == 13
  {
  }

  /**
   * The short form starts with a prefix of the address, has "..." at index
   * min(6, n), and ends with a suffix of the address.
   */
  lemma FormatAddressFrame(address: string)
    requires address != ""
    ensures var r, n := FormatAddress(address), |address|;
      var k := Min(6, n);
      |r| == k + 3 + Min(4, n) &&
      r[..k] == address[..k] &&
      r[k..k + 3] == "..." &&
      r[k + 3..] == address[n - Min(4, n)..]
  {
  }
}
