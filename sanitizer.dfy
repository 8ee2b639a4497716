/** The `cleanedCode` chain of VisualSection: eight `String.prototype.replace`
    calls with global regular expressions, then `trim`.  Each regular expression
    is modelled as a matcher that gives the length of its match at the start of
    the remaining text, and each `replace` as the left-to-right scan that
    JavaScript performs (leftmost match, resume after it, no overlaps). */
module Sanitizer {
  import opened Text
  import opened Options

  /** A pattern anchored at the start of the remaining text: the length of its
      match there, 0 when it does not match there.  None of the chain's
      patterns can match the empty string. */
  type Matcher = string -> nat

  predicate Matches(m: Matcher, t: string) {
    0 < m(t) <= |t|
  }

  /** `s.replace(/re/g, rep)`: every leftmost, non-overlapping match of `re`
      is replaced by `rep`; text between matches is kept. */
  function ReplaceAll(s: string, m: Matcher, rep: string): string
    decreases |s|
  {
    if Matches(m, s) then rep + ReplaceAll(s[m(s)..], m, rep)
    else if s == [] then []
    else [s[0]] + ReplaceAll(s[1..], m, rep)
  }

  /** No position of `t` starts a match of `m`. */
  ghost predicate MatchFree(t: string, m: Matcher) {
    forall k | 0 <= k <= |t| :: !Matches(m, t[k..])
  }

  /** The matcher of a pattern made of literal characters only. */
  function Literal(p: string): Matcher {
    t => if IsPrefix(p, t) then |p| else 0
  }

  // ---------------------------------------------------------------------------
  // The patterns of the chain
  // ---------------------------------------------------------------------------

  const Fence := "```"

  predicate IsAsciiLetter(c: char) {
    'a' <= c <= 'z' || 'A' <= c <= 'Z'
  }

  predicate IsQuote(c: char) {
    c == '\'' || c == '"'
  }

  function LetterRun(s: string): (n: nat)
    ensures n <= |s|
    ensures forall k | 0 <= k < n :: IsAsciiLetter(s[k])
    ensures n < |s| ==> !IsAsciiLetter(s[n])
    decreases |s|
  {
    if s != [] && IsAsciiLetter(s[0]) then 1 + LetterRun(s[1..]) else 0
  }

  function NonGtRun(s: string): (n: nat)
    ensures n <= |s|
    ensures forall k | 0 <= k < n :: s[k] != '>'
    ensures n < |s| ==> s[n] == '>'
    decreases |s|
  {
    if s != [] && s[0] != '>' then 1 + NonGtRun(s[1..]) else 0
  }

  function NonQuoteRun(s: string): (n: nat)
    ensures n <= |s|
    ensures forall k | 0 <= k < n :: !IsQuote(s[k])
    ensures n < |s| ==> IsQuote(s[n])
    decreases |s|
  {
    if s != [] && !IsQuote(s[0]) then 1 + NonQuoteRun(s[1..]) else 0
  }

  /** /```[a-zA-Z]*\n?/ : a fence with its language tag and the line break after it. */
  function FenceOpenerLen(t: string): nat {
    if IsPrefix(Fence, t) then
      var n := 3 + LetterRun(t[3..]);
      if n < |t| && t[n] == '\n' then n + 1 else n
    else 0
  }

  function ToLowerAscii(c: char): char {
    if 'A' <= c <= 'Z' then (c as int + 32) as char else c
  }

  /** Equality under the `i` flag, which folds ASCII letters only. */
  predicate SameIgnoringCase(a: string, b: string) {
    |a| == |b| && forall k | 0 <= k < |a| :: ToLowerAscii(a[k]) == ToLowerAscii(b[k])
  }

  /** /<\/?script[^>]*>/i : an opening or closing script tag up to the first `>`. */
  function ScriptTagLen(t: string): nat {
    if IsPrefix("<", t) then
      var j := if IsPrefix("</", t) then 2 else 1;
      if j + 6 <= |t| && SameIgnoringCase(t[j..j + 6], "script") then
        var e := j + 6 + NonGtRun(t[j + 6..]);
        if e < |t| then e + 1 else 0
      else 0
    else 0
  }

  /** from\s+['"][^'"]+['"];? : the tail of a static import.  The quotes need not
      be of the same kind. */
  function FromClauseLen(t: string): (n: nat)
    ensures n <= |t|
    ensures n > 0 ==> IsPrefix("from", t) && 8 <= n
  {
    if IsPrefix("from", t) then
      var q := 4 + SpaceRun(t[4..]);
      if 4 < q < |t| && IsQuote(t[q]) then
        var c := q + 1 + NonQuoteRun(t[q + 1..]);
        if q + 1 < c < |t| then
          if c + 1 < |t| && t[c + 1] == ';' then c + 2 else c + 1
        else 0
      else 0
    else 0
  }

  /** The lazy `[\s\S]*?` of the import pattern: the first position at or after
      `q` where `m` matches (with `m` the `from` clause). */
  function FirstMatchFrom(m: Matcher, t: string, q: nat): (r: Option<nat>)
    requires q <= |t|
    ensures r.Some? ==> q <= r.value <= |t| && m(t[r.value..]) > 0
    ensures r.Some? ==> forall p | q <= p < r.value :: m(t[p..]) == 0
    ensures r.None? ==> forall p | q <= p <= |t| :: m(t[p..]) == 0
    decreases |t| - q
  {
    if m(t[q..]) > 0 then Some(q)
    else if q == |t| then None
    else FirstMatchFrom(m, t, q + 1)
  }

  /** /import[\s\S]*?from\s+['"][^'"]+['"];?/ : "import", then the shortest
      stretch after which a `from` clause follows, then that clause. */
  function ImportLen(t: string): (n: nat)
    ensures n <= |t|
    ensures n > 0 ==> IsPrefix("import", t) && 14 <= n
    ensures IsPrefix("import", t) ==>
              (n > 0 <==> exists p | 6 <= p <= |t| :: FromClauseLen(t[p..]) > 0)
    ensures n > 0 ==>
              exists p | 6 <= p <= |t| ::
                && FromClauseLen(t[p..]) > 0
                && (forall q | 6 <= q < p :: FromClauseLen(t[q..]) == 0)
                && n == p + FromClauseLen(t[p..])
  {
    if IsPrefix("import", t) then
      match FirstMatchFrom(FromClauseLen, t, 6)
      case Some(p) => p + FromClauseLen(t[p..])
      case None => 0
    else 0
  }

  const D3Target := "d3.select('#viz')"

  /** /d3\.select\(['"]body['"]\)/ */
  function BodySelectLen(t: string): nat {
    if 17 <= |t| && t[..10] == "d3.select(" && IsQuote(t[10]) && t[11..15] == "body"
       && IsQuote(t[15]) && t[16] == ')'
    then 17 else 0
  }

  const OrbitName := "OrbitControls"
  const OrbitTarget := "new THREE.OrbitControls"

  /** /new\s+OrbitControls/ */
  function NewOrbitLen(t: string): nat {
    if IsPrefix("new", t) then
      var w := SpaceRun(t[3..]);
      if 0 < w && IsPrefix(OrbitName, t[3 + w..]) then 3 + w + |OrbitName| else 0
    else 0
  }

  // ---------------------------------------------------------------------------
  // The chain
  // ---------------------------------------------------------------------------

  function StripFenceOpeners(s: string): string { ReplaceAll(s, FenceOpenerLen, "") }
  function StripFences(s: string): string { ReplaceAll(s, Literal(Fence), "") }
  function StripScriptTags(s: string): string { ReplaceAll(s, ScriptTagLen, "") }
  function StripImports(s: string): string { ReplaceAll(s, ImportLen, "") }
  function RetargetBody(s: string): string { ReplaceAll(s, BodySelectLen, D3Target) }
  function QualifyOrbitControls(s: string): string { ReplaceAll(s, NewOrbitLen, OrbitTarget) }
  function DecodeLt(s: string): string { ReplaceAll(s, Literal("&lt;"), "<") }
  function DecodeGt(s: string): string { ReplaceAll(s, Literal("&gt;"), ">") }

  /** The text handed to `new Function`: the eight rewrites in source order, then `trim`. */
  function CleanCode(code: string): string {
    Trim(DecodeGt(DecodeLt(QualifyOrbitControls(RetargetBody(
      StripImports(StripScriptTags(StripFences(StripFenceOpeners(code)))))))))
  }
}
