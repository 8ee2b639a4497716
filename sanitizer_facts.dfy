/** What the `cleanedCode` chain guarantees: which patterns can survive which
    step, the idempotent rewrites, and what the chain's order lets through. */
module SanitizerFacts {
  import opened Text
  import opened Sanitizer

  // ---------------------------------------------------------------------------
  // General facts about one global replace
  // ---------------------------------------------------------------------------

  /** `x` and `y` agree on their common length. */
  ghost predicate Compatible(x: string, y: string) {
    forall i | 0 <= i < |x| && i < |y| :: x[i] == y[i]
  }

  /** No match of `m` can start inside a copy of `rep`, whatever follows it. */
  ghost predicate NoMatchInside(m: Matcher, rep: string) {
    forall k, t | 0 <= k < |rep| && IsPrefix(rep[k..], t) :: !Matches(m, t)
  }

  /** No proper suffix of a text that `m` matches agrees with `rep`: a copy of
      `rep` cannot complete a match begun before it. */
  ghost predicate NoOverlap(m: Matcher, rep: string) {
    forall t | Matches(m, t) :: forall k | 1 <= k < m(t) :: !Compatible(t[k..m(t)], rep)
  }

  /** Whether `m` matches depends only on the text it matches. */
  ghost predicate Local(m: Matcher) {
    forall t, x | Matches(m, t) && IsPrefix(t[..m(t)], x) :: Matches(m, x)
  }

  lemma LiteralMatches(p: string, t: string)
    requires p != []
    ensures Matches(Literal(p), t) <==> IsPrefix(p, t)
  {
  }

  lemma LiteralIsLocal(p: string)
    requires p != []
    ensures Local(Literal(p))
  {
    forall t, x | Matches(Literal(p), t) && IsPrefix(t[..Literal(p)(t)], x)
      ensures Matches(Literal(p), x)
    {
      assert t[..|p|] == p;
    }
  }

  /** A literal pattern is absent from `t` exactly when no position of `t` matches it. */
  lemma LiteralFreeIffAbsent(t: string, p: string)
    requires p != []
    ensures MatchFree(t, Literal(p)) <==> !Occurs(t, p)
  {
    if Occurs(t, p) {
      var k :| 0 <= k <= |t| && IsPrefix(p, t[k..]);
      LiteralMatches(p, t[k..]);
    }
    if !MatchFree(t, Literal(p)) {
      var k :| 0 <= k <= |t| && Matches(Literal(p), t[k..]);
      LiteralMatches(p, t[k..]);
    }
  }

  lemma {:induction false} ReplaceAllIdentity(t: string, m: Matcher, rep: string)
    requires MatchFree(t, m)
    ensures ReplaceAll(t, m, rep) == t
    decreases |t|
  {
    if t != [] {
      MatchFreeTail(t, m);
      ReplaceAllIdentity(t[1..], m, rep);
    } else {
      assert t[0..] == t;
    }
  }

  lemma MatchFreeTail(t: string, m: Matcher)
    requires MatchFree(t, m) && t != []
    ensures !Matches(m, t) && MatchFree(t[1..], m)
  {
    assert t[0..] == t;
    forall k | 0 <= k <= |t| - 1 ensures !Matches(m, t[1..][k..]) {
      assert t[1..][k..] == t[k + 1..];
    }
  }

  lemma MatchFreeSuffix(t: string, m: Matcher, n: nat)
    requires MatchFree(t, m) && n <= |t|
    ensures MatchFree(t[n..], m)
  {
    forall k | 0 <= k <= |t| - n ensures !Matches(m, t[n..][k..]) {
      assert t[n..][k..] == t[n + k..];
    }
  }

  lemma MatchFreeConcat(a: string, y: string, t: string, m: Matcher)
    requires t == a + y
    requires forall k | 0 <= k < |a| :: !Matches(m, t[k..])
    requires MatchFree(y, m)
    ensures MatchFree(t, m)
  {
    forall k | |a| <= k <= |t| ensures !Matches(m, t[k..]) {
      assert t[k..] == y[k - |a|..];
    }
  }

  lemma PrefixOfConcat(u: string, rep: string, y: string)
    requires IsPrefix(u, rep + y)
    ensures Compatible(u, rep)
  {
    forall i | 0 <= i < |u| && i < |rep| ensures u[i] == rep[i] {
      assert u[i] == (rep + y)[..|u|][i];
    }
  }

  /** A prefix of the output that nowhere agrees with the replacement text was
      copied unchanged from the input. */
  lemma {:induction false} PrefixTransfer(s: string, m: Matcher, rep: string, u: string)
    requires IsPrefix(u, ReplaceAll(s, m, rep))
    requires forall k | 0 <= k < |u| :: !Compatible(u[k..], rep)
    ensures IsPrefix(u, s)
    decreases |u|
  {
    if u != [] {
      if Matches(m, s) {
        assert u[0..] == u;
        PrefixOfConcat(u, rep, ReplaceAll(s[m(s)..], m, rep));
        assert false;
      } else {
        var y := ReplaceAll(s[1..], m, rep);
        CopyStep(s, m, rep);
        var v := u[1..];
        assert v == ([s[0]] + y)[..|u|][1..] == y[..|v|];
        forall k | 0 <= k < |v| ensures !Compatible(v[k..], rep) {
          assert v[k..] == u[k + 1..];
        }
        PrefixTransfer(s[1..], m, rep, v);
        assert u[0] == ([s[0]] + y)[..|u|][0] == s[0];
        assert s[..|u|] == [s[0]] + s[1..][..|v|];
      }
    }
  }

  /** Where no match starts, one character is copied through. */
  lemma CopyStep(s: string, m: Matcher, rep: string)
    requires s != [] && !Matches(m, s)
    ensures ReplaceAll(s, m, rep) == [s[0]] + ReplaceAll(s[1..], m, rep)
  {
  }

  /** A match of `m2` that starts at a character the replace copied through
      already started there in the input. */
  lemma EmittedMatchWasInInput(s: string, m1: Matcher, rep1: string, m2: Matcher)
    requires s != [] && !Matches(m1, s)
    requires NoOverlap(m2, rep1) && Local(m2)
    ensures Matches(m2, ReplaceAll(s, m1, rep1)) ==> Matches(m2, s)
  {
    var out := ReplaceAll(s, m1, rep1);
    var y := ReplaceAll(s[1..], m1, rep1);
    assert out == [s[0]] + y;
    if Matches(m2, out) {
      var n := m2(out);
      var u := out[..n];
      assert IsPrefix(u[1..], y);
      forall k | 0 <= k < |u[1..]| ensures !Compatible(u[1..][k..], rep1) {
        assert u[1..][k..] == out[k + 1..n];
      }
      PrefixTransfer(s[1..], m1, rep1, u[1..]);
      assert s[..n] == [s[0]] + s[1..][..n - 1];
      assert IsPrefix(out[..m2(out)], s);
    }
  }

  lemma RepStartsNoMatch(rep: string, y: string, t: string, m: Matcher)
    requires t == rep + y && NoMatchInside(m, rep)
    ensures forall k | 0 <= k < |rep| :: !Matches(m, t[k..])
  {
    forall k | 0 <= k < |rep| ensures !Matches(m, t[k..]) {
      assert IsPrefix(rep[k..], t[k..]);
    }
  }

  /** A replace whose replacement text can neither hold nor complete a match
      of its own pattern leaves no match behind. */
  lemma {:induction false} ReplaceAllLeavesNoMatch(s: string, m: Matcher, rep: string)
    requires NoMatchInside(m, rep) && NoOverlap(m, rep) && Local(m)
    ensures MatchFree(ReplaceAll(s, m, rep), m)
    decreases |s|
  {
    var out := ReplaceAll(s, m, rep);
    if Matches(m, s) {
      var y := ReplaceAll(s[m(s)..], m, rep);
      ReplaceAllLeavesNoMatch(s[m(s)..], m, rep);
      RepStartsNoMatch(rep, y, out, m);
      MatchFreeConcat(rep, y, out, m);
    } else if s == [] {
    } else {
      var y := ReplaceAll(s[1..], m, rep);
      ReplaceAllLeavesNoMatch(s[1..], m, rep);
      EmittedMatchWasInInput(s, m, rep, m);
      assert out[0..] == out;
      MatchFreeConcat([s[0]], y, out, m);
    }
  }

  /** A replace keeps a text free of a second pattern `m2` when its replacement
      text can neither hold nor complete a match of `m2`. */
  lemma {:induction false} ReplaceAllKeepsFree(s: string, m1: Matcher, rep1: string, m2: Matcher)
    requires MatchFree(s, m2)
    requires NoMatchInside(m2, rep1) && NoOverlap(m2, rep1) && Local(m2)
    ensures MatchFree(ReplaceAll(s, m1, rep1), m2)
    decreases |s|
  {
    var out := ReplaceAll(s, m1, rep1);
    if Matches(m1, s) {
      var y := ReplaceAll(s[m1(s)..], m1, rep1);
      MatchFreeSuffix(s, m2, m1(s));
      ReplaceAllKeepsFree(s[m1(s)..], m1, rep1, m2);
      RepStartsNoMatch(rep1, y, out, m2);
      MatchFreeConcat(rep1, y, out, m2);
    } else if s == [] {
    } else {
      var y := ReplaceAll(s[1..], m1, rep1);
      MatchFreeTail(s, m2);
      ReplaceAllKeepsFree(s[1..], m1, rep1, m2);
      EmittedMatchWasInInput(s, m1, rep1, m2);
      assert out[0..] == out;
      MatchFreeConcat([s[0]], y, out, m2);
    }
  }

  /** Cutting a slice out of a match-free text leaves it match-free. */
  lemma MatchFreeSlice(s: string, i: nat, j: nat, m: Matcher)
    requires MatchFree(s, m) && Local(m) && i <= j <= |s|
    ensures MatchFree(s[i..j], m)
  {
    forall k | 0 <= k <= j - i ensures !Matches(m, s[i..j][k..]) {
      var t := s[i..j][k..];
      assert Matches(m, t) ==> IsPrefix(t[..m(t)], s[i + k..]);
    }
  }

  // ---------------------------------------------------------------------------
  // The `from` clause of the import pattern
  // ---------------------------------------------------------------------------

  /** `from`, white space up to position `q`, a quote at `q`, at least one
      non-quote character, and the next quote at `c`. */
  ghost predicate FromShape(t: string, q: nat, c: nat) {
    && 4 < q && q + 1 < c < |t|
    && IsPrefix("from", t)
    && (forall k | 4 <= k < q :: IsJsSpace(t[k]))
    && IsQuote(t[q])
    && (forall k | q < k < c :: !IsQuote(t[k]))
    && IsQuote(t[c])
  }

  /** A run that ends at a character outside its class has exactly that length. */
  lemma SpaceRunIs(s: string, n: nat)
    requires n < |s| && IsQuote(s[n])
    requires forall k | 0 <= k < n :: IsJsSpace(s[k])
    ensures SpaceRun(s) == n
  {
    assert !IsJsSpace(s[n]);
  }

  lemma NonQuoteRunIs(s: string, n: nat)
    requires n < |s| && IsQuote(s[n])
    requires forall k | 0 <= k < n :: !IsQuote(s[k])
    ensures NonQuoteRun(s) == n
  {
  }

  /** The `from\s+['"][^'"]+['"];?` tail matches exactly on texts of that shape,
      and its match runs to the closing quote, and the `;` after it when there
      is one. */
  lemma FromClauseShape(t: string)
    ensures FromClauseLen(t) > 0 <==> exists q: nat, c: nat :: FromShape(t, q, c)
    ensures forall q: nat, c: nat | FromShape(t, q, c) ::
              FromClauseLen(t) == if c + 1 < |t| && t[c + 1] == ';' then c + 2 else c + 1
  {
    forall q: nat, c: nat | FromShape(t, q, c)
      ensures FromClauseLen(t) == if c + 1 < |t| && t[c + 1] == ';' then c + 2 else c + 1
    {
      var s := t[4..];
      forall k | 0 <= k < q - 4 ensures IsJsSpace(s[k]) {
        assert s[k] == t[4 + k];
      }
      assert s[q - 4] == t[q];
      SpaceRunIs(s, q - 4);
      var u := t[q + 1..];
      forall k | 0 <= k < c - q - 1 ensures !IsQuote(u[k]) {
        assert u[k] == t[q + 1 + k];
      }
      assert u[c - q - 1] == t[c];
      NonQuoteRunIs(u, c - q - 1);
    }
    if FromClauseLen(t) > 0 {
      var q := 4 + SpaceRun(t[4..]);
      var c := q + 1 + NonQuoteRun(t[q + 1..]);
      forall k | 4 <= k < q ensures IsJsSpace(t[k]) {
        assert t[k] == t[4..][k - 4];
      }
      forall k | q < k < c ensures !IsQuote(t[k]) {
        assert t[k] == t[q + 1..][k - q - 1];
      }
      assert t[c] == t[q + 1..][c - q - 1];
      assert FromShape(t, q, c);
    }
  }

  // ---------------------------------------------------------------------------
  // Fences (the first two steps)
  // ---------------------------------------------------------------------------

  /** Both fence patterns match exactly where a fence starts. */
  lemma FenceMatchers(t: string)
    ensures Matches(FenceOpenerLen, t) <==> IsPrefix(Fence, t)
    ensures Matches(Literal(Fence), t) <==> IsPrefix(Fence, t)
  {
  }

  /** A fence at a character that a fence-removing replace copied through was
      already a fence of the input: deleting fences cannot join backticks. */
  lemma EmittedFenceWasInInput(s: string, m: Matcher)
    requires forall t :: Matches(m, t) <==> IsPrefix(Fence, t)
    requires s != [] && !Matches(m, s)
    ensures IsPrefix(Fence, ReplaceAll(s, m, "")) ==> IsPrefix(Fence, s)
  {
    assert ReplaceAll(s, m, "") == [s[0]] + ReplaceAll(s[1..], m, "");
  }

  lemma {:induction false} FenceRemovalLeavesNoFence(s: string, m: Matcher)
    requires forall t :: Matches(m, t) <==> IsPrefix(Fence, t)
    ensures MatchFree(ReplaceAll(s, m, ""), Literal(Fence))
    decreases |s|
  {
    var out := ReplaceAll(s, m, "");
    if Matches(m, s) {
      assert out == ReplaceAll(s[m(s)..], m, "");
      FenceRemovalLeavesNoFence(s[m(s)..], m);
    } else if s == [] {
    } else {
      var y := ReplaceAll(s[1..], m, "");
      FenceRemovalLeavesNoFence(s[1..], m);
      EmittedFenceWasInInput(s, m);
      FenceMatchers(out);
      assert out[0..] == out;
      MatchFreeConcat([s[0]], y, out, Literal(Fence));
    }
  }

  /** After the first step (VisualSection.jsx:58) no fence is left. */
  lemma FenceOpenersLeaveNoFence(s: string)
    ensures !Occurs(StripFenceOpeners(s), Fence)
  {
    forall t ensures Matches(FenceOpenerLen, t) <==> IsPrefix(Fence, t) {
      FenceMatchers(t);
    }
    FenceRemovalLeavesNoFence(s, FenceOpenerLen);
    LiteralFreeIffAbsent(StripFenceOpeners(s), Fence);
  }

  /** The second step (VisualSection.jsx:59) removes every fence from any input. */
  lemma FenceStepLeavesNoFence(s: string)
    ensures !Occurs(StripFences(s), Fence)
  {
    forall t ensures Matches(Literal(Fence), t) <==> IsPrefix(Fence, t) {
      FenceMatchers(t);
    }
    FenceRemovalLeavesNoFence(s, Literal(Fence));
    LiteralFreeIffAbsent(StripFences(s), Fence);
  }

  /** In the chain the second step has nothing left to remove. */
  lemma SecondFenceStepIsNoOp(s: string)
    ensures StripFences(StripFenceOpeners(s)) == StripFenceOpeners(s)
  {
    FenceOpenersLeaveNoFence(s);
    LiteralFreeIffAbsent(StripFenceOpeners(s), Fence);
    ReplaceAllIdentity(StripFenceOpeners(s), Literal(Fence), "");
  }

  // ---------------------------------------------------------------------------
  // The two rewrites (VisualSection.jsx:62-63)
  // ---------------------------------------------------------------------------

  lemma BodySelectConditions()
    ensures NoMatchInside(BodySelectLen, D3Target)
    ensures NoOverlap(BodySelectLen, D3Target)
    ensures Local(BodySelectLen)
  {
    forall k, t | 0 <= k < |D3Target| && IsPrefix(D3Target[k..], t)
      ensures !Matches(BodySelectLen, t)
    {
      if k == 0 {
        assert t[11] == D3Target[11] == '#';
      } else {
        assert t[0] == D3Target[k] != 'd';
      }
    }
    forall t | Matches(BodySelectLen, t)
      ensures forall k | 1 <= k < BodySelectLen(t) :: !Compatible(t[k..BodySelectLen(t)], D3Target)
    {
      forall k | 1 <= k < 17 ensures !Compatible(t[k..17], D3Target) {
        if k == 13 {
          assert t[14] == t[11..15][3] == 'y';
          assert t[k..17][1] == t[14];
        } else {
          if k < 10 {
            assert t[k] == t[..10][k] != 'd';
          } else if 10 < k < 15 {
            assert t[k] == t[11..15][k - 11] != 'd';
          }
          assert t[k..17][0] == t[k];
        }
      }
    }
    forall t, x | Matches(BodySelectLen, t) && IsPrefix(t[..BodySelectLen(t)], x)
      ensures Matches(BodySelectLen, x)
    {
      assert x[..17] == t[..17];
      assert x[..10] == t[..10] && x[11..15] == t[11..15];
      assert x[10] == t[10] && x[15] == t[15] && x[16] == t[16];
    }
  }

  /** Replacing `d3.select('body')` by `d3.select('#viz')` leaves no match behind,
      so the rewrite is idempotent. */
  lemma RetargetBodyIdempotent(s: string)
    ensures MatchFree(RetargetBody(s), BodySelectLen)
    ensures RetargetBody(RetargetBody(s)) == RetargetBody(s)
  {
    BodySelectConditions();
    ReplaceAllLeavesNoMatch(s, BodySelectLen, D3Target);
    ReplaceAllIdentity(RetargetBody(s), BodySelectLen, D3Target);
  }

  /** Two texts that agree up to and including the first non-space character
      of one of them have the same leading white-space run. */
  lemma {:induction false} SpaceRunShared(a: string, b: string)
    requires SpaceRun(a) < |a| && IsPrefix(a[..SpaceRun(a) + 1], b)
    ensures SpaceRun(b) == SpaceRun(a)
    decreases |a|
  {
    assert b[0] == a[..SpaceRun(a) + 1][0] == a[0];
    if SpaceRun(a) > 0 {
      assert a[1..][..SpaceRun(a[1..]) + 1] == a[..SpaceRun(a) + 1][1..];
      SpaceRunShared(a[1..], b[1..]);
    }
  }

  /** `new THREE.OrbitControls` itself is no match: `THREE` follows the space. */
  lemma QualifiedIsNoMatch(t: string)
    requires IsPrefix(OrbitTarget, t)
    ensures NewOrbitLen(t) == 0
  {
    assert t[3] == ' ' && t[4] == 'T';
    assert t[3..][0] == ' ' && t[3..][1] == 'T';
    assert SpaceRun(t[3..]) == 1;
    assert t[3 + 1..][0] == 'T';
  }

  lemma NewOrbitNotAt(k: nat, t: string)
    requires 0 < k < |OrbitTarget| && IsPrefix(OrbitTarget[k..], t)
    ensures !Matches(NewOrbitLen, t)
  {
    if k == 17 {
      assert t[1] == OrbitTarget[18] == 't';
    } else {
      assert t[0] == OrbitTarget[k] != 'n';
    }
  }

  lemma NewOrbitNotInside()
    ensures NoMatchInside(NewOrbitLen, OrbitTarget)
  {
    forall k, t | 0 <= k < |OrbitTarget| && IsPrefix(OrbitTarget[k..], t)
      ensures !Matches(NewOrbitLen, t)
    {
      if k == 0 {
        assert OrbitTarget[0..] == OrbitTarget;
        QualifiedIsNoMatch(t);
      } else {
        NewOrbitNotAt(k, t);
      }
    }
  }

  lemma NewOrbitNoOverlap()
    ensures NoOverlap(NewOrbitLen, OrbitTarget)
  {
    forall t | Matches(NewOrbitLen, t)
      ensures forall k | 1 <= k < NewOrbitLen(t) :: !Compatible(t[k..NewOrbitLen(t)], OrbitTarget)
    {
      var w := SpaceRun(t[3..]);
      var n := 3 + w + 13;
      assert t[3 + w..][..13] == OrbitName;
      forall k | 1 <= k < n ensures !Compatible(t[k..n], OrbitTarget) {
        assert t[k..n][0] == t[k];
        if k < 3 {
          assert t[k] == t[..3][k] != 'n';
        } else if k < 3 + w {
          assert t[k] == t[3..][k - 3];
          assert IsJsSpace(t[k]);
        } else if k == 3 + w + 7 {
          assert t[k + 1] == OrbitName[8] == 't';
          assert t[k..n][1] == t[k + 1];
        } else {
          assert t[k] == OrbitName[k - 3 - w] != 'n';
        }
      }
    }
  }

  /** Two texts that share their first `n` characters share every slice of them. */
  lemma SharedSlices(t: string, x: string, n: nat)
    requires n <= |t| && n <= |x| && x[..n] == t[..n]
    ensures forall i, j | 0 <= i <= j <= n :: x[i..j] == t[i..j]
  {
    forall i, j | 0 <= i <= j <= n ensures x[i..j] == t[i..j] {
      assert x[i..j] == x[..n][i..j];
      assert t[i..j] == t[..n][i..j];
    }
  }

  lemma DropThenTake(s: string, i: nat, k: nat)
    requires i + k <= |s|
    ensures s[i..][..k] == s[i..i + k]
  {
  }

  lemma NewOrbitIsLocal()
    ensures Local(NewOrbitLen)
  {
    forall t, x | Matches(NewOrbitLen, t) && IsPrefix(t[..NewOrbitLen(t)], x)
      ensures Matches(NewOrbitLen, x)
    {
      var w := SpaceRun(t[3..]);
      var n := 3 + w + 13;
      assert n == NewOrbitLen(t);
      SharedSlices(t, x, n);
      assert x[..3] == x[0..3] == t[0..3] == t[..3];
      assert t[3..][w] == t[3 + w] == OrbitName[0];
      DropThenTake(x, 3, w + 1);
      DropThenTake(t, 3, w + 1);
      assert x[3..3 + w + 1] == t[3..3 + w + 1];
      SpaceRunShared(t[3..], x[3..]);
      DropThenTake(x, 3 + w, 13);
      DropThenTake(t, 3 + w, 13);
      assert x[3 + w..n] == t[3 + w..n];
    }
  }

  /** Replacing `new <spaces>OrbitControls` by `new THREE.OrbitControls` leaves no
      match behind, so the rewrite is idempotent. */
  lemma QualifyOrbitControlsIdempotent(s: string)
    ensures MatchFree(QualifyOrbitControls(s), NewOrbitLen)
    ensures QualifyOrbitControls(QualifyOrbitControls(s)) == QualifyOrbitControls(s)
  {
    NewOrbitNotInside();
    NewOrbitNoOverlap();
    NewOrbitIsLocal();
    ReplaceAllLeavesNoMatch(s, NewOrbitLen, OrbitTarget);
    ReplaceAllIdentity(QualifyOrbitControls(s), NewOrbitLen, OrbitTarget);
  }

  // ---------------------------------------------------------------------------
  // Entities and the trimmed result (VisualSection.jsx:64-66)
  // ---------------------------------------------------------------------------

  lemma EntityConditions()
    ensures NoMatchInside(Literal("&lt;"), "<") && NoOverlap(Literal("&lt;"), "<")
    ensures NoMatchInside(Literal("&lt;"), ">") && NoOverlap(Literal("&lt;"), ">")
    ensures NoMatchInside(Literal("&gt;"), ">") && NoOverlap(Literal("&gt;"), ">")
    ensures Local(Literal("&lt;")) && Local(Literal("&gt;"))
  {
    LiteralIsLocal("&lt;");
    LiteralIsLocal("&gt;");
    forall k, t | 0 <= k < 1 && IsPrefix("<"[k..], t) ensures !Matches(Literal("&lt;"), t) {
      assert t[0] == '<';
    }
    forall k, t | 0 <= k < 1 && IsPrefix(">"[k..], t)
      ensures !Matches(Literal("&lt;"), t) && !Matches(Literal("&gt;"), t)
    {
      assert t[0] == '>';
    }
    forall t | Matches(Literal("&lt;"), t)
      ensures forall k | 1 <= k < 4 :: !Compatible(t[k..4], "<") && !Compatible(t[k..4], ">")
    {
      forall k | 1 <= k < 4 ensures !Compatible(t[k..4], "<") && !Compatible(t[k..4], ">") {
        assert t[k..4][0] == t[k] == t[..4][k];
      }
    }
    forall t | Matches(Literal("&gt;"), t)
      ensures forall k | 1 <= k < 4 :: !Compatible(t[k..4], ">")
    {
      forall k | 1 <= k < 4 ensures !Compatible(t[k..4], ">") {
        assert t[k..4][0] == t[k] == t[..4][k];
      }
    }
  }

  /** What the whole chain guarantees: no `&lt;` and no `&gt;` survive, and
      the result has no white space at either end. */
  lemma CleanCodeGuarantees(code: string)
    ensures !Occurs(CleanCode(code), "&lt;") && !Occurs(CleanCode(code), "&gt;")
    ensures var r := CleanCode(code); r == [] || (!IsJsSpace(r[0]) && !IsJsSpace(r[|r| - 1]))
  {
    var s6 := QualifyOrbitControls(RetargetBody(StripImports(StripScriptTags(
      StripFences(StripFenceOpeners(code))))));
    var s7 := DecodeLt(s6);
    var s8 := DecodeGt(s7);
    EntityConditions();
    ReplaceAllLeavesNoMatch(s6, Literal("&lt;"), "<");
    ReplaceAllKeepsFree(s7, Literal("&gt;"), ">", Literal("&lt;"));
    ReplaceAllLeavesNoMatch(s7, Literal("&gt;"), ">");
    var i, j :| 0 <= i <= j <= |s8| && Trim(s8) == s8[i..j];
    MatchFreeSlice(s8, i, j, Literal("&lt;"));
    MatchFreeSlice(s8, i, j, Literal("&gt;"));
    LiteralFreeIffAbsent(CleanCode(code), "&lt;");
    LiteralFreeIffAbsent(CleanCode(code), "&gt;");
  }
}
