/** Inputs that show what the order of the `cleanedCode` chain lets through. */
module SanitizerExamples {
  import opened Text
  import opened Sanitizer
  import opened SanitizerFacts

  /** A pattern all of whose matches begin with `c` leaves a text without `c`
      unchanged. */
  lemma UnchangedWithout(s: string, m: Matcher, rep: string, c: char)
    requires forall t | Matches(m, t) :: t[0] == c
    requires forall k | 0 <= k < |s| :: s[k] != c
    ensures ReplaceAll(s, m, rep) == s
  {
    forall k | 0 <= k <= |s| ensures !Matches(m, s[k..]) {
      if k < |s| {
        assert s[k..][0] == s[k];
      }
    }
    ReplaceAllIdentity(s, m, rep);
  }

  /** The same for a pattern whose matches begin with the pair `c`, `d`. */
  lemma UnchangedWithoutPair(s: string, m: Matcher, rep: string, c: char, d: char)
    requires forall t | Matches(m, t) :: |t| >= 2 && t[0] == c && t[1] == d
    requires forall k | 0 <= k < |s| - 1 :: !(s[k] == c && s[k + 1] == d)
    ensures ReplaceAll(s, m, rep) == s
  {
    forall k | 0 <= k <= |s| ensures !Matches(m, s[k..]) {
      if k < |s| - 1 {
        assert s[k..][0] == s[k] && s[k..][1] == s[k + 1];
      }
    }
    ReplaceAllIdentity(s, m, rep);
  }

  // Where each pattern's matches begin.

  lemma FenceOpenerStarts()
    ensures forall t | Matches(FenceOpenerLen, t) :: t[0] == '`'
  {
    forall t | Matches(FenceOpenerLen, t) ensures t[0] == '`' {
      assert t[..3][0] == t[0];
    }
  }

  lemma FenceStarts()
    ensures forall t | Matches(Literal(Fence), t) :: t[0] == '`'
  {
    forall t | Matches(Literal(Fence), t) ensures t[0] == '`' {
      assert t[..3][0] == t[0];
    }
  }

  lemma ScriptTagStart(t: string)
    ensures Matches(ScriptTagLen, t) ==> t[0] == '<'
  {
    assert Matches(ScriptTagLen, t) ==> t[..1][0] == t[0];
  }

  lemma ScriptTagStarts()
    ensures forall t | Matches(ScriptTagLen, t) :: t[0] == '<'
  {
    forall t | Matches(ScriptTagLen, t) ensures t[0] == '<' {
      assert t[..1][0] == t[0];
    }
  }

  lemma ImportStart(t: string)
    requires IsPrefix("import", t)
    ensures |t| >= 2 && t[0] == 'i' && t[1] == 'm'
  {
    assert t[..6][0] == t[0] && t[..6][1] == t[1];
  }

  lemma ImportStarts()
    ensures forall t | Matches(ImportLen, t) :: |t| >= 2 && t[0] == 'i' && t[1] == 'm'
  {
    forall t | Matches(ImportLen, t) ensures |t| >= 2 && t[0] == 'i' && t[1] == 'm' {
      ImportStart(t);
    }
  }

  lemma BodySelectStarts()
    ensures forall t | Matches(BodySelectLen, t) :: t[0] == 'd'
  {
    forall t | Matches(BodySelectLen, t) ensures t[0] == 'd' {
      assert t[..10][0] == t[0];
    }
  }

  lemma NewOrbitStarts()
    ensures forall t | Matches(NewOrbitLen, t) :: t[0] == 'n'
  {
    forall t | Matches(NewOrbitLen, t) ensures t[0] == 'n' {
      assert t[..3][0] == t[0];
    }
  }

  lemma LtStarts()
    ensures forall t | Matches(Literal("&lt;"), t) :: |t| >= 2 && t[0] == '&' && t[1] == 'l'
  {
    forall t | Matches(Literal("&lt;"), t) ensures |t| >= 2 && t[0] == '&' && t[1] == 'l' {
      assert t[..4][0] == t[0] && t[..4][1] == t[1];
    }
  }

  lemma GtStarts()
    ensures forall t | Matches(Literal("&gt;"), t) :: |t| >= 2 && t[0] == '&' && t[1] == 'g'
  {
    forall t | Matches(Literal("&gt;"), t) ensures |t| >= 2 && t[0] == '&' && t[1] == 'g' {
      assert t[..4][0] == t[0] && t[..4][1] == t[1];
    }
  }

  // Steps that find nothing to rewrite in a text lacking the characters
  // their matches start with.

  lemma NoBacktick(s: string)
    requires forall k | 0 <= k < |s| :: s[k] != '`'
    ensures StripFenceOpeners(s) == s && StripFences(s) == s
  {
    FenceOpenerStarts();
    UnchangedWithout(s, FenceOpenerLen, "", '`');
    FenceStarts();
    UnchangedWithout(s, Literal(Fence), "", '`');
  }

  lemma NoTagOpen(s: string)
    requires forall k | 0 <= k < |s| :: s[k] != '<'
    ensures StripScriptTags(s) == s
  {
    ScriptTagStarts();
    UnchangedWithout(s, ScriptTagLen, "", '<');
  }

  lemma NoImport(s: string)
    requires forall k | 0 <= k < |s| - 1 :: !(s[k] == 'i' && s[k + 1] == 'm')
    ensures StripImports(s) == s
  {
    ImportStarts();
    UnchangedWithoutPair(s, ImportLen, "", 'i', 'm');
  }

  lemma NoD(s: string)
    requires forall k | 0 <= k < |s| :: s[k] != 'd'
    ensures RetargetBody(s) == s
  {
    BodySelectStarts();
    UnchangedWithout(s, BodySelectLen, D3Target, 'd');
  }

  lemma NoN(s: string)
    requires forall k | 0 <= k < |s| :: s[k] != 'n'
    ensures QualifyOrbitControls(s) == s
  {
    NewOrbitStarts();
    UnchangedWithout(s, NewOrbitLen, OrbitTarget, 'n');
  }

  lemma NoLtEntity(s: string)
    requires forall k | 0 <= k < |s| - 1 :: !(s[k] == '&' && s[k + 1] == 'l')
    ensures DecodeLt(s) == s
  {
    LtStarts();
    UnchangedWithoutPair(s, Literal("&lt;"), "<", '&', 'l');
  }

  lemma NoGtEntity(s: string)
    requires forall k | 0 <= k < |s| - 1 :: !(s[k] == '&' && s[k + 1] == 'g')
    ensures DecodeGt(s) == s
  {
    GtStarts();
    UnchangedWithoutPair(s, Literal("&gt;"), ">", '&', 'g');
  }

  /** Empty input gives empty output. */
  lemma CleanCodeOfEmpty()
    ensures CleanCode("") == ""
  {
  }

  // An HTML-encoded script tag, `&lt;script&gt;`, taken in its three parts.
  // The parts are parameters pinned by `requires` rather than literals in the
  // body, so that the verifier unfolds the rewrites on short symbolic pieces
  // instead of on one long string constant.

  /** The characters the first six steps look for are absent from the encoded tag. */
  lemma EncodedTagChars(lt: string, name: string, gt: string)
    requires lt == "&lt;" && name == "script" && gt == "&gt;"
    ensures var s := lt + name + gt;
            forall k | 0 <= k < |s| :: s[k] != '`' && s[k] != '<' && s[k] != 'd' && s[k] != 'n'
    ensures var s := lt + name + gt;
            forall k | 0 <= k < |s| - 1 :: !(s[k] == 'i' && s[k + 1] == 'm')
  {
  }

  /** The first six steps find nothing to rewrite in the encoded tag. */
  lemma EncodedTagPassesRewrites(lt: string, name: string, gt: string)
    requires lt == "&lt;" && name == "script" && gt == "&gt;"
    ensures var s := lt + name + gt;
            QualifyOrbitControls(RetargetBody(StripImports(StripScriptTags(
              StripFences(StripFenceOpeners(s)))))) == s
  {
    var s := lt + name + gt;
    EncodedTagChars(lt, name, gt);
    NoBacktick(s);
    NoTagOpen(s);
    NoImport(s);
    NoD(s);
    NoN(s);
  }

  lemma EncodedTagDecodeLt(lt: string, name: string, gt: string)
    requires lt == "&lt;" && name == "script" && gt == "&gt;"
    ensures DecodeLt(lt + name + gt) == "<" + (name + gt)
  {
    var s := lt + name + gt;
    assert s[..4] == lt && s[4..] == name + gt;
    NoLtEntity(name + gt);
  }

  lemma GtDecodes(v: string)
    requires v == "&gt;"
    ensures DecodeGt(v) == ">"
  {
    assert ReplaceAll(v, Literal("&gt;"), ">") == ">" + ReplaceAll(v[4..], Literal("&gt;"), ">");
  }

  lemma GtStart(t: string)
    ensures Matches(Literal("&gt;"), t) ==> t[0] == '&'
  {
    assert Matches(Literal("&gt;"), t) ==> t[..4][0] == t[0];
  }

  /** An entity after text without `&` is the only thing decoded. */
  lemma DecodeGtAfterPlain(a: string, v: string)
    requires forall k | 0 <= k < |a| :: a[k] != '&'
    requires v == "&gt;"
    ensures DecodeGt(a + v) == a + ">"
  {
    var u := a + v;
    forall k | 0 <= k < |a| ensures !Matches(Literal("&gt;"), u[k..]) {
      GtStart(u[k..]);
      assert u[k..][0] == a[k];
    }
    SkipUnmatched(u, Literal("&gt;"), ">", |a|);
    assert u[..|a|] == a && u[|a|..] == v;
    GtDecodes(v);
  }

  lemma TagTrimmed(name: string)
    requires name == "script"
    ensures Trim("<" + name + ">") == "<" + name + ">"
  {
  }

  lemma EncodedTagDecodeGt(name: string, gt: string)
    requires name == "script" && gt == "&gt;"
    ensures DecodeGt("<" + (name + gt)) == "<" + name + ">"
  {
    assert "<" + (name + gt) == ("<" + name) + gt;
    DecodeGtAfterPlain("<" + name, gt);
  }

  /** Entities are decoded after script tags are removed, so an encoded script
      tag comes out as a real one. */
  lemma EncodedScriptTagSurvives(lt: string, name: string, gt: string)
    requires lt == "&lt;" && name == "script" && gt == "&gt;"
    ensures CleanCode(lt + name + gt) == "<" + name + ">"
  {
    EncodedTagPassesRewrites(lt, name, gt);
    EncodedTagDecodeLt(lt, name, gt);
    EncodedTagDecodeGt(name, gt);
    TagTrimmed(name);
  }

  /** Copying a prefix in which no match starts. */
  lemma {:induction false} SkipUnmatched(s: string, m: Matcher, rep: string, n: nat)
    requires n <= |s|
    requires forall k | 0 <= k < n :: !Matches(m, s[k..])
    ensures ReplaceAll(s, m, rep) == s[..n] + ReplaceAll(s[n..], m, rep)
    decreases n
  {
    if n == 0 {
      assert s[..0] + s[0..] == s;
    } else {
      SkipUnmatched(s, m, rep, n - 1);
      var u := s[n - 1..];
      CopyStep(u, m, rep);
      assert u[1..] == s[n..];
      var r := ReplaceAll(s[n..], m, rep);
      assert ReplaceAll(s, m, rep) == s[..n - 1] + ([u[0]] + r);
      assert s[..n - 1] + [u[0]] == s[..n];
    }
  }

  /** Two backticks, a script tag, and a third backtick.  The lemmas about it
      take the text as a parameter equal to this constant, for the same reason
      as the encoded tag above. */
  const SplitFence := "``<script>`"

  lemma SplitFenceHasNoFence(s: string)
    requires s == SplitFence
    ensures !Occurs(s, Fence)
    ensures StripFences(StripFenceOpeners(s)) == s
  {
    forall k | 0 <= k <= |s| ensures !IsPrefix(Fence, s[k..]) {
      if k + 3 <= |s| {
        assert s[k..][..3][0] == s[k] && s[k..][..3][1] == s[k + 1] && s[k..][..3][2] == s[k + 2];
      }
    }
    forall t ensures Matches(FenceOpenerLen, t) <==> IsPrefix(Fence, t) {
      FenceMatchers(t);
    }
    forall t ensures Matches(Literal(Fence), t) <==> IsPrefix(Fence, t) {
      FenceMatchers(t);
    }
    ReplaceAllIdentity(s, FenceOpenerLen, "");
    ReplaceAllIdentity(s, Literal(Fence), "");
  }

  lemma SplitTagLength(tag: string)
    requires tag == "<script>`"
    ensures ScriptTagLen(tag) == 8
  {
    assert tag[..1] == "<" && tag[..2][1] == 's';
    assert tag[1..7] == "script";
    assert SameIgnoringCase(tag[1..7], "script");
    assert tag[7..][0] == '>';
  }

  /** No script tag starts among the two leading backticks. */
  lemma SplitFenceHead(s: string)
    requires s == SplitFence
    ensures forall k | 0 <= k < 2 :: !Matches(ScriptTagLen, s[k..])
    ensures StripScriptTags(s) == s[..2] + StripScriptTags(s[2..])
  {
    forall k | 0 <= k < 2 ensures !Matches(ScriptTagLen, s[k..]) {
      ScriptTagStart(s[k..]);
    }
    SkipUnmatched(s, ScriptTagLen, "", 2);
  }

  lemma SplitFenceTail(tag: string)
    requires tag == "<script>`"
    ensures StripScriptTags(tag) == "`"
  {
    SplitTagLength(tag);
    assert ReplaceAll(tag, ScriptTagLen, "") == ReplaceAll(tag[8..], ScriptTagLen, "");
    NoTagOpen(tag[8..]);
  }

  lemma SplitFenceParts(s: string)
    requires s == SplitFence
    ensures s[2..] == "<script>`" && s[..2] + "`" == Fence
  {
  }

  lemma SplitFenceLosesTag(s: string)
    requires s == SplitFence
    ensures StripScriptTags(s) == Fence
  {
    SplitFenceParts(s);
    SplitFenceHead(s);
    SplitFenceTail(s[2..]);
  }

  /** A fence holds only backticks. */
  lemma FenceChars(f: string)
    requires f == Fence
    ensures forall k | 0 <= k < |f| :: f[k] == '`'
    ensures Trim(f) == f
  {
  }

  lemma FencePassesLaterSteps(f: string)
    requires f == Fence
    ensures Trim(DecodeGt(DecodeLt(QualifyOrbitControls(RetargetBody(StripImports(f)))))) == f
  {
    FenceChars(f);
    NoImport(f);
    NoD(f);
    NoN(f);
    NoLtEntity(f);
    NoGtEntity(f);
  }

  /** Removing a script tag can join backticks into a fence: the fence steps run
      first, so the final text can hold a fence the input did not. */
  lemma TagRemovalCanFormFence()
    ensures !Occurs(SplitFence, Fence)
    ensures CleanCode(SplitFence) == Fence
  {
    SplitFenceHasNoFence(SplitFence);
    SplitFenceLosesTag(SplitFence);
    FencePassesLaterSteps(Fence);
  }
}
