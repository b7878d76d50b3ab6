/**
 * `formatError`: turns a caught wallet or contract error into the short text
 * shown in the error modal. The rules are tried in a fixed order and the first
 * one that matches decides the text.
 */
module ErrorFormatter {
  import opened Strings

  /**
   * A caught error as `formatError` sees it: a falsy value, or a value whose
   * text (`error.message || String(error)`) is `message`.
   */
  datatype ErrorValue = Falsy | Thrown(message: string)

  const UnknownError := "An unknown error occurred"
  const RejectedByUser := "Transaction rejected by user"
  const GasShortfall := "Insufficient funds for gas or transaction"
  const ContractReverted := "Transaction failed: Contract execution reverted"
  const SessionExpired := "Connection session expired. Please reconnect."
  const Ellipsis := "..."

  /** Messages at least this long are never used as a trailing segment, and longer ones are cut here. */
  const DetailLimit := 100

  predicate IsUserRejection(m: string) {
    Contains(m, "User denied transaction signature") ||
    Contains(m, "User rejected the request") ||
    Contains(m, "User rejected methods")
  }

  predicate IsInsufficientFunds(m: string) {
    Contains(m, "Insufficient funds") || Contains(m, "insufficient funds")
  }

  predicate IsRevert(m: string) {
    Contains(m, "execution reverted")
  }

  predicate IsMissingKey(m: string) {
    Contains(m, "No matching key")
  }

  /** True when one of the four message rules matches. */
  predicate IsKnownFailure(m: string) {
    IsUserRejection(m) || IsInsufficientFunds(m) || IsRevert(m) || IsMissingKey(m)
  }

  /** The trimmed text after the last ':' (the part `formatError` may keep). */
  function TrailingDetail(m: string): string {
    Trim(AfterLast(m, ':'))
  }

  function FormatError(e: ErrorValue): (r: string)
    ensures |r| <= DetailLimit + |Ellipsis|
  {
    match e
    case Falsy => UnknownError
    case Thrown(m) =>
      if IsUserRejection(m) then RejectedByUser
      else if IsInsufficientFunds(m) then GasShortfall
      else if IsRevert(m) then ContractReverted
      else if IsMissingKey(m) then SessionExpired
      else if ':' in m && |TrailingDetail(m)| < DetailLimit then TrailingDetail(m)
      else if |m| > DetailLimit then m[..DetailLimit] + Ellipsis
      else m
  }

  /** The five fixed texts `formatError` can produce. */
  predicate IsCannedText(r: string) {
    r == UnknownError || r == RejectedByUser || r == GasShortfall ||
    r == ContractReverted || r == SessionExpired
  }

  /** The kept detail is a piece of the message and holds no ':'. */
  lemma TrailingDetailIsPiece(m: string)
    ensures ':' !in TrailingDetail(m) && IsSlice(TrailingDetail(m), m)
  {
    var a := AfterLast(m, ':');
    var r := TrailingDetail(m);
    AfterLastIsFinalPiece(m, ':');
    TrimIsInnerSlice(a);
    var i := LeadingBlanks(a);
    var off := |m| - |a|;
    assert r == a[i..i + |r|];
    forall k | 0 <= k < |r| ensures r[k] != ':' {
      assert r[k] == a[i + k];
    }
    assert a == m[off..];
    assert r == m[off + i..off + i + |r|];
  }

  /**
   * Every result is a fixed text, a whitespace-trimmed piece of the message
   * free of ':' and shorter than the limit, the message cut at the limit plus
   * "...", or the whole message.
   */
  lemma FormatErrorShape(m: string)
    ensures var r := FormatError(Thrown(m));
      IsCannedText(r) ||
      (':' !in r && |r| < DetailLimit && IsSlice(r, m)) ||
      (|m| > DetailLimit && r == m[..DetailLimit] + Ellipsis) ||
      r == m
  {
    var r := FormatError(Thrown(m));
    if IsKnownFailure(m) {
      assert IsCannedText(r);
    } else if ':' in m && |TrailingDetail(m)| < DetailLimit {
      TrailingDetailIsPiece(m);
      assert r == TrailingDetail(m);
    } else if |m| > DetailLimit {
      assert r == m[..DetailLimit] + Ellipsis;
    } else {
      assert r == m;
    }
  }

  /** A rejection phrase wins over every later rule, e.g. over "execution reverted". */
  lemma RejectionWins(m: string)
    requires IsUserRejection(m)
    ensures FormatError(Thrown(m)) == RejectedByUser
  {
  }

  /** The later rules in their order: each applies only when every earlier one failed. */
  lemma RuleOrder(m: string)
    ensures FormatError(Falsy) == UnknownError
    ensures !IsUserRejection(m) && IsInsufficientFunds(m) ==> FormatError(Thrown(m)) == GasShortfall
    ensures !IsUserRejection(m) && !IsInsufficientFunds(m) && IsRevert(m) ==>
      FormatError(Thrown(m)) == ContractReverted
    ensures !IsUserRejection(m) && !IsInsufficientFunds(m) && !IsRevert(m) && IsMissingKey(m) ==>
      FormatError(Thrown(m)) == SessionExpired
    ensures !IsKnownFailure(m) && ':' in m && |TrailingDetail(m)| < DetailLimit ==>
      FormatError(Thrown(m)) == TrailingDetail(m)
  {
  }

  /** A message ending in ':' that no earlier rule matches formats to the empty text. */
  lemma TrailingColonGivesEmpty(m: string)
    requires |m| > 0 && m[|m| - 1] == ':' && !IsKnownFailure(m)
    ensures FormatError(Thrown(m)) == ""
  {
    assert AfterLast(m, ':') == [];
  }

  /** A long message without ':' and without a known phrase is cut to its first 100 characters plus "...". */
  lemma LongPlainMessageTruncated(m: string)
    requires |m| > DetailLimit && ':' !in m && !IsKnownFailure(m)
    ensures var r := FormatError(Thrown(m));
      |r| == DetailLimit + |Ellipsis| && r[..DetailLimit] == m[..DetailLimit] && r[DetailLimit..] == Ellipsis
  {
  }

  /** A short message without ':' and without a known phrase is shown unchanged. */
  lemma ShortPlainMessageKept(m: string)
    requires |m| <= DetailLimit && ':' !in m && !IsKnownFailure(m)
    ensures FormatError(Thrown(m)) == m
  {
  }
}
