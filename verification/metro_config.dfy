/**
 * The `resolveRequest` hook of the Metro bundler configuration: requests for
 * `jose` and its sub-paths are redirected to the package's browser build,
 * everything else is resolved as asked.
 */
module MetroConfig {
  import opened Strings

  const Jose := "jose"
  const JoseSubpath := "jose/"
  const JoseBrowser := "jose/dist/browser"

  /**
   * `moduleName.replace(/^jose(\/.*)?$/, "jose/dist/browser$1")`: "jose" gains
   * the browser path, "jose/<r>" keeps its sub-path after it when `r` has no
   * line terminator, and a name the pattern does not match is unchanged.
   */
  function ReplaceJose(name: string): string {
    if name == Jose then JoseBrowser
    else if Matches(name) then JoseBrowser + name[|Jose|..]
    else name
  }

  /** The module name handed on to Metro's own resolver. */
  function RewriteModuleName(name: string): string {
    if name == Jose || JoseSubpath <= name then ReplaceJose(name) else name
  }

  /** The single delegated call `context.resolveRequest(context, name, platform)`. */
  datatype Delegation<C, P> = Delegation(context: C, moduleName: string, platform: P)

  function ResolveRequest<C, P>(context: C, moduleName: string, platform: P): (d: Delegation<C, P>)
    ensures d.context == context && d.platform == platform
    ensures d.moduleName == moduleName <==> !Matches(moduleName)
  {
    Delegation(context, RewriteModuleName(moduleName), platform)
  }

  lemma RewriteBareJose()
    ensures RewriteModuleName(Jose) == JoseBrowser
  {
  }

  lemma {:induction false} RewriteJoseSubpath(r: string)
    requires !HasLineTerminator(r)
    ensures RewriteModuleName(JoseSubpath + r) == JoseBrowser + "/" + r
  {
    assert JoseSubpath <= JoseSubpath + r;
    assert (JoseSubpath + r)[|Jose|..] == "/" + r;
    assert !HasLineTerminator("/" + r) by {
      forall i | 0 <= i < |"/" + r| ensures !IsLineTerminator(("/" + r)[i]) {
        if i > 0 { assert ("/" + r)[i] == r[i - 1]; }
      }
    }
  }

  /** The sub-path match stops at a line break: such a name is forwarded unchanged. */
  lemma RewriteStopsAtLineBreak(r: string)
    requires HasLineTerminator(r)
    ensures RewriteModuleName(JoseSubpath + r) == JoseSubpath + r
  {
    var i :| 0 <= i < |r| && IsLineTerminator(r[i]);
    assert (JoseSubpath + r)[|Jose|..][i + 1] == r[i];
  }

  /** Names that only start with "jose" without a slash, such as "josefin", are forwarded unchanged. */
  lemma RewriteLeavesOthers(name: string)
    requires name != Jose && !(JoseSubpath <= name)
    ensures RewriteModuleName(name) == name
  {
  }

  /** The names the replacement pattern matches, i.e. the names that are rewritten. */
  predicate Matches(name: string) {
    name == Jose || (JoseSubpath <= name && !HasLineTerminator(name[|Jose|..]))
  }

  /** A rewritten name is matched by the pattern again. */
  lemma {:induction false} RewrittenNamesMatchAgain(name: string)
    requires Matches(name)
    ensures JoseSubpath <= RewriteModuleName(name)
    ensures Matches(RewriteModuleName(name))
  {
    var r := RewriteModuleName(name);
    var tail := "/dist/browser";
    assert !HasLineTerminator(tail) by {
      RewriteJoseSubpath("dist/browser");
    }
    if name == Jose {
      assert r[|Jose|..] == tail;
    } else {
      assert r[|Jose|..] == tail + name[|Jose|..];
      NoLineTerminatorConcat(tail, name[|Jose|..]);
    }
  }

  /** Different requests are never sent to the same module. */
  lemma {:induction false} RewriteInjective(a: string, b: string)
    requires RewriteModuleName(a) == RewriteModuleName(b)
    ensures a == b
  {
    var ra := RewriteModuleName(a);
    if Matches(a) && Matches(b) {
      if a != Jose && b != Jose {
        assert ra[|JoseBrowser|..] == a[|Jose|..] == b[|Jose|..];
        assert a == Jose + a[|Jose|..];
        assert b == Jose + b[|Jose|..];
      }
    } else if Matches(a) {
      RewrittenNamesMatchAgain(a);
    } else if Matches(b) {
      RewrittenNamesMatchAgain(b);
    }
  }

  /** Applying the rule twice nests the browser path again: the rewrite is not idempotent. */
  lemma RewriteNotIdempotent()
    ensures RewriteModuleName(RewriteModuleName(Jose)) == JoseBrowser + "/dist/browser"
    ensures RewriteModuleName(RewriteModuleName(Jose)) != RewriteModuleName(Jose)
  {
    RewriteJoseSubpath("dist/browser");
    assert JoseBrowser == JoseSubpath + "dist/browser";
  }
}
