/**
 * `safeWalletCall` and the message filter of the global error handlers.
 * The awaited results of the operation and of `Linking.canOpenURL` /
 * `Linking.openURL` are inputs; logging is left out.
 */
module SafeWalletCall {
  import opened Strings
  import opened Wrappers

  /** A caught error object; `message` is `error?.message || String(error)`. */
  datatype WalletError = WalletError(message: string, origin: nat)

  /** How the awaited wallet operation ended. */
  datatype OperationResult<T> = Resolved(value: T) | Rejected(error: WalletError)

  /** How an awaited `Linking` call ended. */
  datatype LinkingResult = Answered(ok: bool) | Failed

  /** What `safeWalletCall` hands back: the value, the same error object, or a new Error. */
  datatype CallOutcome<T> = Returned(value: T) | Rethrown(error: WalletError) | Raised(message: string)

  /**
   * What the inner browser attempt did before its own catch swallowed the
   * outcome: not tried, `canOpenURL` said no or threw, `openURL` threw, or
   * `openURL` succeeded and the "opened in browser" error was thrown and caught.
   */
  datatype BrowserAttempt = NotTried | CannotOpen | QueryFailed | OpenFailed | OpenedInBrowser

  datatype Call<T> = Call(outcome: CallOutcome<T>, browser: BrowserAttempt, urlErrorCallbacks: nat)

  const UrlErrorMarker := "Unable to open URL"
  const UrlPrefix := "Unable to open URL: "
  const WebScheme := "https://"
  const CouldNotOpenWallet := "Could not open wallet app. Please ensure your wallet is installed and try again."
  const WalletSessionExpired := "Wallet session expired. Please reconnect your wallet."

  /**
   * Group 1 of `/Unable to open URL: (.+)/`: the line after the first
   * "Unable to open URL: " that is followed by at least one character other
   * than a line terminator.
   */
  function ExtractUrl(m: string): Option<string>
    decreases |m|
  {
    match IndexOf(m, UrlPrefix)
    case None => None
    case Some(i) =>
      var line := FirstLine(m[i + |UrlPrefix|..]);
      if |line| > 0 then Some(line) else ExtractUrl(m[i + 1..])
  }

  /**
   * An extracted URL is non-empty, holds no line terminator and follows the
   * marker text somewhere in the message; without the marker nothing is extracted.
   */
  lemma {:induction false} ExtractUrlSpec(m: string)
    ensures var url := ExtractUrl(m);
      (url.Some? ==> |url.value| > 0 && !HasLineTerminator(url.value)) &&
      (url.Some? ==> Contains(m, UrlPrefix + url.value)) &&
      (!Contains(m, UrlPrefix) ==> url.None?)
    decreases |m|
  {
    match IndexOf(m, UrlPrefix)
    case None =>
    case Some(i) =>
      IndexOfIsFirstOccurrence(m, UrlPrefix);
      var line := FirstLine(m[i + |UrlPrefix|..]);
      if |line| > 0 {
        ContainsFollowedBy(m, i, UrlPrefix, line);
      } else {
        ExtractUrlSpec(m[i + 1..]);
        var later := ExtractUrl(m[i + 1..]);
        if later.Some? {
          ContainsInSuffix(m, i + 1, UrlPrefix + later.value);
        }
      }
  }

  /** A match of the regular expression starts at `i`: the marker text followed by at least one character of the same line. */
  predicate MatchAt(m: string, i: int) {
    OccursAt(m, UrlPrefix, i) && |FirstLine(m[i + |UrlPrefix|..])| > 0
  }

  /** `i` is the leftmost position where the regular expression matches. */
  ghost predicate LeftmostMatch(m: string, i: int) {
    MatchAt(m, i) && forall j :: 0 <= j < i ==> !MatchAt(m, j)
  }

  /** For the first marker at `k` with an empty line after it, matches are those of the rest after `k`. */
  lemma MatchesAfterFirstMarker(m: string, k: nat)
    requires IndexOf(m, UrlPrefix) == Some(k) && !MatchAt(m, k)
    ensures forall j :: MatchAt(m, j) <==> j >= k + 1 && MatchAt(m[k + 1..], j - k - 1)
  {
    IndexOfIsFirstOccurrence(m, UrlPrefix);
    forall j ensures MatchAt(m, j) <==> j >= k + 1 && MatchAt(m[k + 1..], j - k - 1) {
      if j >= k + 1 {
        MatchDrop(m, k + 1, j);
      } else if 0 <= j < k {
        assert !OccursAt(m, UrlPrefix, j);
      }
    }
  }

  /** Nothing is extracted exactly when the regular expression matches nowhere. */
  lemma {:induction false} ExtractUrlNoneIffNoMatch(m: string)
    ensures ExtractUrl(m).None? <==> forall i :: !MatchAt(m, i)
    decreases |m|
  {
    IndexOfIsFirstOccurrence(m, UrlPrefix);
    match IndexOf(m, UrlPrefix)
    case None =>
    case Some(k) =>
      assert OccursAt(m, UrlPrefix, k);
      if !MatchAt(m, k) {
        var rest := m[k + 1..];
        assert ExtractUrl(m) == ExtractUrl(rest);
        ExtractUrlNoneIffNoMatch(rest);
        MatchesAfterFirstMarker(m, k);
        if i' :| MatchAt(rest, i') {
          assert MatchAt(m, i' + k + 1);
        }
      }
  }

  /** An extracted URL is the rest of the line after the leftmost matching marker. */
  lemma {:induction false} ExtractUrlIsLeftmostMatch(m: string)
    requires ExtractUrl(m).Some?
    ensures exists i :: LeftmostMatch(m, i) && ExtractUrl(m).value == FirstLine(m[i + |UrlPrefix|..])
    decreases |m|
  {
    IndexOfIsFirstOccurrence(m, UrlPrefix);
    var k := IndexOf(m, UrlPrefix).value;
    if MatchAt(m, k) {
      assert LeftmostMatch(m, k);
    } else {
      var rest := m[k + 1..];
      ExtractUrlIsLeftmostMatch(rest);
      MatchesAfterFirstMarker(m, k);
      var i' :| LeftmostMatch(rest, i') && ExtractUrl(rest).value == FirstLine(rest[i' + |UrlPrefix|..]);
      var i := i' + k + 1;
      assert rest[i' + |UrlPrefix|..] == m[i + |UrlPrefix|..];
      assert LeftmostMatch(m, i);
    }
  }

  lemma MatchDrop(m: string, d: nat, j: int)
    requires d <= |m| && d <= j
    ensures MatchAt(m, j) <==> MatchAt(m[d..], j - d)
  {
    OccursDrop(m, UrlPrefix, d, j);
    if OccursAt(m, UrlPrefix, j) {
      assert m[d..][j - d + |UrlPrefix|..] == m[j + |UrlPrefix|..];
    }
  }

  /** Text `q` found at index `i` and followed by `t` means `q + t` is found. */
  lemma ContainsFollowedBy(m: string, i: nat, q: string, t: string)
    requires OccursAt(m, q, i) && t <= m[i + |q|..]
    ensures Contains(m, q + t)
  {
    var rest := m[i + |q|..];
    assert rest[..|t|] == t;
    assert m[i..i + |q| + |t|] == m[i..i + |q|] + rest[..|t|];
    assert OccursAt(m, q + t, i);
    ContainsIffOccurs(m, q + t);
  }

  /** A URL on the same line as the first marker is the one extracted. */
  lemma ExtractUrlFirstLine(m: string, i: nat)
    requires IndexOf(m, UrlPrefix) == Some(i)
    requires |FirstLine(m[i + |UrlPrefix|..])| > 0
    ensures ExtractUrl(m) == Some(FirstLine(m[i + |UrlPrefix|..]))
  {
  }

  /** The inner try block: only an https URL is offered to `canOpenURL`, and only a yes leads to `openURL`. */
  function TryBrowser(url: Option<string>, canOpen: LinkingResult, openOk: bool): BrowserAttempt {
    if url.None? || !(WebScheme <= url.value) then NotTried
    else match canOpen
      case Failed => QueryFailed
      case Answered(false) => CannotOpen
      case Answered(true) => if openOk then OpenedInBrowser else OpenFailed
  }

  function SafeWalletCall<T>(result: OperationResult<T>, canOpen: LinkingResult, openOk: bool,
                             hasOnUrlError: bool): (c: Call<T>)
    ensures result.Resolved? ==> c == Call(Returned(result.value), NotTried, 0)
    ensures c.urlErrorCallbacks <= 1
    ensures c.browser != NotTried ==> result.Rejected? && Contains(result.error.message, UrlErrorMarker)
  {
    match result
    case Resolved(v) => Call(Returned(v), NotTried, 0)
    case Rejected(e) =>
      if Contains(e.message, UrlErrorMarker) then
        var attempt := TryBrowser(ExtractUrl(e.message), canOpen, openOk);
        Call(Raised(CouldNotOpenWallet), attempt, if hasOnUrlError then 1 else 0)
      else if Contains(e.message, "No matching key") || Contains(e.message, "session") then
        Call(Raised(WalletSessionExpired), NotTried, 0)
      else
        Call(Rethrown(e), NotTried, 0)
  }

  /**
   * Every URL-opening failure ends in the same "Could not open wallet app"
   * error, whatever the browser attempt did; the "opened in browser" error
   * never escapes. The URL check is made before the session check.
   */
  lemma UrlFailureAlwaysCouldNotOpen<T>(e: WalletError, canOpen: LinkingResult, openOk: bool, hasOnUrlError: bool)
    requires Contains(e.message, UrlErrorMarker)
    ensures var c := SafeWalletCall<T>(Rejected(e), canOpen, openOk, hasOnUrlError);
      c.outcome == Raised(CouldNotOpenWallet) && c.urlErrorCallbacks == (if hasOnUrlError then 1 else 0)
  {
  }

  /** `openURL` is reached only for an extracted https URL that `canOpenURL` accepted. */
  lemma BrowserOpenedOnlyForAcceptedHttps<T>(e: WalletError, canOpen: LinkingResult, openOk: bool, hasOnUrlError: bool)
    requires SafeWalletCall<T>(Rejected(e), canOpen, openOk, hasOnUrlError).browser in {OpenedInBrowser, OpenFailed}
    ensures var url := ExtractUrl(e.message);
      url.Some? && WebScheme <= url.value && canOpen == Answered(true) &&
      Contains(e.message, UrlPrefix + WebScheme)
  {
    var m := e.message;
    assert Contains(m, UrlErrorMarker);
    assert TryBrowser(ExtractUrl(m), canOpen, openOk) in {OpenedInBrowser, OpenFailed};
    ExtractUrlSpec(m);
    var url := ExtractUrl(m).value;
    assert WebScheme <= url;
    ContainsLongerPrefix(m, UrlPrefix, url, WebScheme);
  }

  /** An occurrence of `a + b` where `c` starts `b` is an occurrence of `a + c`. */
  lemma ContainsLongerPrefix(m: string, a: string, b: string, c: string)
    requires Contains(m, a + b) && c <= b
    ensures Contains(m, a + c)
  {
    var p := a + c;
    ContainsIffOccurs(m, a + b);
    var i :| OccursAt(m, a + b, i);
    assert (a + b)[..|p|] == p;
    assert m[i..i + |p|] == (a + b)[..|p|];
    assert OccursAt(m, p, i);
    ContainsIffOccurs(m, p);
  }

  /**
   * A message without the URL marker that names a missing key or a session is
   * replaced by the "Wallet session expired" error, with no browser attempt
   * and no `onUrlError`.
   */
  lemma SessionErrorsRewritten<T>(e: WalletError, canOpen: LinkingResult, openOk: bool, hasOnUrlError: bool)
    requires !Contains(e.message, UrlErrorMarker)
    requires Contains(e.message, "No matching key") || Contains(e.message, "session")
    ensures SafeWalletCall<T>(Rejected(e), canOpen, openOk, hasOnUrlError) == Call(Raised(WalletSessionExpired), NotTried, 0)
  {
  }

  /** An error that is neither a URL nor a session error is rethrown as the same object. */
  lemma OtherErrorsRethrownUnchanged<T>(e: WalletError, canOpen: LinkingResult, openOk: bool, hasOnUrlError: bool)
    requires !Contains(e.message, UrlErrorMarker)
    requires !Contains(e.message, "No matching key") && !Contains(e.message, "session")
    ensures SafeWalletCall<T>(Rejected(e), canOpen, openOk, hasOnUrlError) == Call(Rethrown(e), NotTried, 0)
  {
  }

  /** What an installed global handler does with an error. */
  datatype HandlerAction = Swallowed | Forwarded | Dropped

  /** The shared filter of both global handlers: WalletConnect noise is swallowed. */
  predicate IsWalletConnectNoise(m: string) {
    Contains(m, UrlErrorMarker) || Contains(m, "WalletConnect") || Contains(m, "No matching key")
  }

  /** The replaced handler: swallow noise, otherwise forward to the previous handler if there was one. */
  function GlobalHandlerAction(m: string, hasPrevious: bool): (a: HandlerAction)
    ensures a == Swallowed <==> IsWalletConnectNoise(m)
    ensures a == Forwarded <==> !IsWalletConnectNoise(m) && hasPrevious
  {
    if IsWalletConnectNoise(m) then Swallowed
    else if hasPrevious then Forwarded
    else Dropped
  }
}
