/** `handleVizEvent` of VisualSection.jsx: the handler run for every
    "stochify:viz" event.  It resets the error, derives the cartesian flag from
    the analysis text, clears or keeps the container, makes sure a `#viz`
    element exists, loads the scripts the dimension asks for one after the
    other, and runs the cleaned snippet.  `JSON.parse`, the network and the
    snippet's own execution are parameters of the handler. */
module VisualSection {
  import opened Options
  import opened Sanitizer
  import opened Scripts
  import opened JsonValue

  /** Reading `parsedAnalysis.cartesian` either gives the flag or, when the
      analysis text is the JSON literal `null`, throws a TypeError outside the
      `try` that guards the parse. */
  datatype Flag = Flag(cartesian: bool) | NullAnalysis

  ghost predicate SaysCartesian(v: Json) {
    v == JBool(true) || v == JString("true")
  }

  /** The flag of an analysis, given what `JSON.parse` made of it (`None` when it threw). */
  function CartesianFlag(parsed: Option<Json>): (f: Flag)
    ensures f == NullAnalysis <==> parsed == Some(JNull)
    ensures f == Flag(true) <==>
              parsed.Some? && parsed.value.JObject? && "cartesian" in parsed.value.fields
              && SaysCartesian(parsed.value.fields["cartesian"])
    ensures parsed.None? ==> f == Flag(false)
  {
    match parsed
    case None => Flag(false)
    case Some(JNull) => NullAnalysis
    case Some(JObject(fields)) =>
      Flag("cartesian" in fields && (fields["cartesian"] == JBool(true) || fields["cartesian"] == JString("true")))
    case Some(_) => Flag(false)
  }

  /** The flag reads the `cartesian` field and nothing else of the object. */
  lemma CartesianFlagReadsOneField(a: map<string, Json>, b: map<string, Json>)
    requires ("cartesian" in a <==> "cartesian" in b)
    requires "cartesian" in a ==> a["cartesian"] == b["cartesian"]
    ensures CartesianFlag(Some(JObject(a))) == CartesianFlag(Some(JObject(b)))
  {
  }

  // ---------------------------------------------------------------------------
  // Script routing
  // ---------------------------------------------------------------------------

  const ThreeUrl := "https://cdn.jsdelivr.net/npm/three@0.160.0/build/three.min.js"
  const OrbitUrl := "https://cdn.jsdelivr.net/npm/three@0.160.0/examples/js/controls/OrbitControls.js"
  const D3Url := "https://d3js.org/d3.v7.min.js"
  const Cartesian2DUrl := "/static/cartesian2D.js"
  const Cartesian3DUrl := "/static/cartesian3D.js"

  /** The message of the ReferenceError raised when `window.THREE` is unset and no
      global `THREE` binding exists. */
  const ThreeUnbound := "THREE is not defined"

  /** The library scripts: three.js and its orbit controls for "3d", d3 for every
      other dimension, unknown ones included. */
  function Library(dimension: string): (urls: seq<string>)
    ensures dimension == "3d" ==> urls == [ThreeUrl, OrbitUrl]
    ensures dimension != "3d" ==> urls == [D3Url]
  {
    if dimension == "3d" then [ThreeUrl, OrbitUrl] else [D3Url]
  }

  /** The shared-plane skeleton, only for a cartesian "2d" or "3d" request. */
  function Skeleton(dimension: string, cartesian: bool): (u: Option<string>)
    ensures u.Some? <==> cartesian && (dimension == "2d" || dimension == "3d")
    ensures u.Some? ==> u.value == (if dimension == "2d" then Cartesian2DUrl else Cartesian3DUrl)
  {
    if cartesian && dimension == "2d" then Some(Cartesian2DUrl)
    else if cartesian && dimension == "3d" then Some(Cartesian3DUrl)
    else None
  }

  /** Every script a request may load, in the order the handler awaits them. */
  function Plan(dimension: string, cartesian: bool): (p: seq<string>)
    ensures |Library(dimension)| <= |p| && p[..|Library(dimension)|] == Library(dimension)
    ensures dimension == "3d" ==> p[..2] == [ThreeUrl, OrbitUrl]
    ensures dimension != "3d" ==> p[0] == D3Url
    ensures Cartesian2DUrl in p <==> cartesian && dimension == "2d"
    ensures Cartesian3DUrl in p <==> cartesian && dimension == "3d"
    ensures Skeleton(dimension, cartesian).Some? ==> p[|p| - 1] == Skeleton(dimension, cartesian).value
    ensures forall i, j | 0 <= i < j < |p| :: p[i] != p[j]
  {
    Library(dimension) + match Skeleton(dimension, cartesian) { case Some(u) => [u] case None => [] }
  }

  /** A load succeeds when the element is already there (whatever its state) or
      when the browser delivers the script. */
  predicate Loads(present: set<string>, src: string, available: string -> bool) {
    src in present || available(src)
  }

  /** The scripts requested by a chain of awaited loads, and the message of the
      first failure. */
  datatype LoadRun = LoadRun(requested: seq<string>, fault: Option<string>)

  /** Awaiting `loadScript` on each of `srcs` in turn, stopping at the first rejection. */
  function LoadAll(present: set<string>, srcs: seq<string>, available: string -> bool): (r: LoadRun)
    ensures |r.requested| <= |srcs| && r.requested == srcs[..|r.requested|]
    ensures r.fault.None? <==> AllLoad(present, srcs, available)
    ensures r.fault.None? ==> r.requested == srcs
    ensures r.fault.Some? ==>
              && r.requested != []
              && (forall k | 0 <= k < |r.requested| - 1 :: Loads(present, r.requested[k], available))
              && !Loads(present, r.requested[|r.requested| - 1], available)
              && r.fault == Some(FailureMessage(r.requested[|r.requested| - 1]))
    decreases |srcs|
  {
    if srcs == [] then LoadRun([], None)
    else if Loads(present, srcs[0], available) then
      var rest := LoadAll(present, srcs[1..], available);
      LoadRun([srcs[0]] + rest.requested, rest.fault)
    else LoadRun([srcs[0]], Some(FailureMessage(srcs[0])))
  }

  /** The addresses listed in `a`. */
  ghost function Members(a: seq<string>): set<string>
    decreases |a|
  {
    if a == [] then {} else {a[0]} + Members(a[1..])
  }

  lemma MembersPair(a: string, b: string)
    ensures Members([a]) == {a} && Members([a, b]) == {a, b}
  {
    assert [a][1..] == [] && [a, b][1..] == [b] && [b][1..] == [];
    assert Members([b]) == {b};
  }

  lemma {:induction false} MembersAppend(a: seq<string>, u: string)
    ensures Members(a + [u]) == Members(a) + {u}
    decreases |a|
  {
    if a != [] {
      assert (a + [u])[1..] == a[1..] + [u];
      MembersAppend(a[1..], u);
    } else {
      assert [u][1..] == [];
    }
  }

  /** The skeleton is never one of the library scripts. */
  lemma SkeletonNotInLibrary(dimension: string, cartesian: bool)
    ensures Skeleton(dimension, cartesian).Some? ==>
              Skeleton(dimension, cartesian).value !in Members(Library(dimension))
  {
    UrlsDistinct();
    MembersPair(ThreeUrl, OrbitUrl);
    MembersPair(D3Url, D3Url);
  }

  /** A chain of one load. */
  lemma LoadAllSingle(present: set<string>, u: string, available: string -> bool)
    ensures LoadAll(present, [u], available)
            == if Loads(present, u, available) then LoadRun([u], None) else LoadRun([u], Some(FailureMessage(u)))
  {
    assert [u][1..] == [];
  }

  /** A chain of two loads. */
  lemma LoadAllPair(present: set<string>, a: string, b: string, available: string -> bool)
    ensures LoadAll(present, [a, b], available)
            == if !Loads(present, a, available) then LoadRun([a], Some(FailureMessage(a)))
               else if !Loads(present, b, available) then LoadRun([a, b], Some(FailureMessage(b)))
               else LoadRun([a, b], None)
  {
    assert [a, b][1..] == [b];
    LoadAllSingle(present, b, available);
  }

  /** The five script addresses are pairwise different. */
  lemma UrlsDistinct()
    ensures ThreeUrl != OrbitUrl && ThreeUrl != D3Url && OrbitUrl != D3Url
    ensures Cartesian2DUrl != Cartesian3DUrl
    ensures Cartesian2DUrl !in {ThreeUrl, OrbitUrl, D3Url}
    ensures Cartesian3DUrl !in {ThreeUrl, OrbitUrl, D3Url}
  {
    assert |ThreeUrl| == 61 && |OrbitUrl| == 80 && |D3Url| == 29;
    assert |Cartesian2DUrl| == 22 && |Cartesian3DUrl| == 22;
    assert Cartesian2DUrl[17] != Cartesian3DUrl[17];
  }

  /** The library loads, then, for "3d", the `window.THREE = window.THREE || THREE`
      line, which throws when neither binding exists. */
  function LibraryPhase(present: set<string>, dimension: string, available: string -> bool,
                        threeGlobal: bool): LoadRun
  {
    var lib := LoadAll(present, Library(dimension), available);
    if lib.fault.None? && dimension == "3d" && !threeGlobal then LoadRun(lib.requested, Some(ThreeUnbound))
    else lib
  }

  /** The whole loading phase: the library phase, then the skeleton. */
  function LoadPhase(present: set<string>, dimension: string, cartesian: bool,
                     available: string -> bool, threeGlobal: bool): LoadRun
  {
    var lib := LibraryPhase(present, dimension, available, threeGlobal);
    if lib.fault.Some? then lib
    else match Skeleton(dimension, cartesian)
      case None => lib
      case Some(u) =>
        var sk := LoadAll(present, [u], available);
        LoadRun(lib.requested + sk.requested, sk.fault)
  }

  /** The "3d" library phase, step by step. */
  lemma ThreePhase(present: set<string>, dimension: string, available: string -> bool, threeGlobal: bool)
    requires dimension == "3d"
    ensures LibraryPhase(present, dimension, available, threeGlobal)
            == if !Loads(present, ThreeUrl, available) then LoadRun([ThreeUrl], Some(FailureMessage(ThreeUrl)))
               else if !Loads(present, OrbitUrl, available) then LoadRun([ThreeUrl, OrbitUrl], Some(FailureMessage(OrbitUrl)))
               else if !threeGlobal then LoadRun([ThreeUrl, OrbitUrl], Some(ThreeUnbound))
               else LoadRun([ThreeUrl, OrbitUrl], None)
  {
    LoadAllPair(present, ThreeUrl, OrbitUrl, available);
  }

  /** The library phase of every other dimension: d3 alone. */
  lemma D3Phase(present: set<string>, dimension: string, available: string -> bool, threeGlobal: bool)
    requires dimension != "3d"
    ensures LibraryPhase(present, dimension, available, threeGlobal)
            == if Loads(present, D3Url, available) then LoadRun([D3Url], None)
               else LoadRun([D3Url], Some(FailureMessage(D3Url)))
  {
    LoadAllSingle(present, D3Url, available);
  }

  /** The skeleton is awaited after a library phase without fault. */
  lemma SkeletonPhase(present: set<string>, dimension: string, cartesian: bool,
                      available: string -> bool, threeGlobal: bool)
    requires LibraryPhase(present, dimension, available, threeGlobal).fault.None?
    requires Skeleton(dimension, cartesian).Some?
    ensures var lib := LibraryPhase(present, dimension, available, threeGlobal);
            var u := Skeleton(dimension, cartesian).value;
            LoadPhase(present, dimension, cartesian, available, threeGlobal)
            == LoadRun(lib.requested + [u], if Loads(present, u, available) then None else Some(FailureMessage(u)))
  {
    LoadAllSingle(present, Skeleton(dimension, cartesian).value, available);
  }

  /** Every one of `srcs` would load. */
  predicate AllLoad(present: set<string>, srcs: seq<string>, available: string -> bool) {
    forall k | 0 <= k < |srcs| :: Loads(present, srcs[k], available)
  }

  lemma AllLoadAppend(present: set<string>, a: seq<string>, u: string, available: string -> bool)
    ensures AllLoad(present, a + [u], available) <==> AllLoad(present, a, available) && Loads(present, u, available)
  {
    if AllLoad(present, a, available) && Loads(present, u, available) {
      forall k | 0 <= k < |a + [u]| ensures Loads(present, (a + [u])[k], available) {
        if k < |a| {
          assert (a + [u])[k] == a[k];
        }
      }
    }
    if AllLoad(present, a + [u], available) {
      assert (a + [u])[|a|] == u;
      forall k | 0 <= k < |a| ensures Loads(present, a[k], available) {
        assert (a + [u])[k] == a[k];
      }
    }
  }

  /** The library phase requests a prefix of the library and faults exactly when
      a library script fails or, for "3d", the `THREE` binding is missing. */
  lemma LibraryPhaseFollowsLibrary(present: set<string>, dimension: string, available: string -> bool,
                                   threeGlobal: bool)
    ensures var lp := LibraryPhase(present, dimension, available, threeGlobal);
            var lib := Library(dimension);
            && |lp.requested| <= |lib| && lp.requested == lib[..|lp.requested|]
            && (lp.fault.None? <==> AllLoad(present, lib, available) && (dimension == "3d" ==> threeGlobal))
            && (lp.fault.None? ==> lp.requested == lib)
  {
  }

  /** What the loading phase promises about a plan: it requests a prefix of the
      plan, faults exactly when some planned script fails (or, for "3d", the
      `THREE` binding is missing), requests the whole plan when it does not
      fault, and requests the skeleton only once the whole library has loaded. */
  ghost predicate FollowsPlan(present: set<string>, dimension: string, cartesian: bool,
                              available: string -> bool, threeGlobal: bool)
  {
    var r := LoadPhase(present, dimension, cartesian, available, threeGlobal);
    var p := Plan(dimension, cartesian);
    var lib := Library(dimension);
    && |r.requested| <= |p| && r.requested == p[..|r.requested|]
    && (r.fault.None? <==> AllLoad(present, p, available) && (dimension == "3d" ==> threeGlobal))
    && (r.fault.None? ==> r.requested == p)
    && (Skeleton(dimension, cartesian).Some? && Skeleton(dimension, cartesian).value in r.requested ==>
          r.requested[..|lib|] == lib && AllLoad(present, lib, available))
  }

  lemma NoSkeletonFollowsPlan(present: set<string>, dimension: string, cartesian: bool,
                              available: string -> bool, threeGlobal: bool)
    requires Skeleton(dimension, cartesian).None?
    ensures FollowsPlan(present, dimension, cartesian, available, threeGlobal)
  {
    LibraryPhaseFollowsLibrary(present, dimension, available, threeGlobal);
    assert Plan(dimension, cartesian) == Library(dimension);
  }

  lemma FaultBeforeSkeleton(present: set<string>, dimension: string, cartesian: bool,
                            available: string -> bool, threeGlobal: bool)
    requires Skeleton(dimension, cartesian).Some?
    requires LibraryPhase(present, dimension, available, threeGlobal).fault.Some?
    ensures FollowsPlan(present, dimension, cartesian, available, threeGlobal)
  {
    var lib := Library(dimension);
    var u := Skeleton(dimension, cartesian).value;
    var p := Plan(dimension, cartesian);
    var r := LoadPhase(present, dimension, cartesian, available, threeGlobal);
    LibraryPhaseFollowsLibrary(present, dimension, available, threeGlobal);
    SkeletonNotInLibrary(dimension, cartesian);
    assert p == lib + [u];
    AllLoadAppend(present, lib, u, available);
    assert p[..|r.requested|] == lib[..|r.requested|];
  }

  lemma SkeletonAfterLibrary(present: set<string>, dimension: string, cartesian: bool,
                             available: string -> bool, threeGlobal: bool)
    requires Skeleton(dimension, cartesian).Some?
    requires LibraryPhase(present, dimension, available, threeGlobal).fault.None?
    ensures FollowsPlan(present, dimension, cartesian, available, threeGlobal)
  {
    var lib := Library(dimension);
    var u := Skeleton(dimension, cartesian).value;
    var p := Plan(dimension, cartesian);
    LibraryPhaseFollowsLibrary(present, dimension, available, threeGlobal);
    assert p == lib + [u];
    AllLoadAppend(present, lib, u, available);
    SkeletonPhase(present, dimension, cartesian, available, threeGlobal);
  }

  /** The loads follow the plan in order and stop at the first fault; the
      skeleton is requested only once the whole library has loaded. */
  lemma LoadPhaseFollowsPlan(present: set<string>, dimension: string, cartesian: bool,
                             available: string -> bool, threeGlobal: bool)
    ensures FollowsPlan(present, dimension, cartesian, available, threeGlobal)
  {
    if Skeleton(dimension, cartesian).None? {
      NoSkeletonFollowsPlan(present, dimension, cartesian, available, threeGlobal);
    } else if LibraryPhase(present, dimension, available, threeGlobal).fault.Some? {
      FaultBeforeSkeleton(present, dimension, cartesian, available, threeGlobal);
    } else {
      SkeletonAfterLibrary(present, dimension, cartesian, available, threeGlobal);
    }
  }

  // ---------------------------------------------------------------------------
  // The container
  // ---------------------------------------------------------------------------

  /** A child of the visualisation container: the `#viz` element or anything else
      an earlier snippet drew there. */
  datatype Node = VizDiv | Drawn(tag: string)

  /** The container's children after lines 25-35: cleared unless cartesian, then
      a `#viz` element appended when none is there. */
  function Container(children: seq<Node>, cartesian: bool): (c: seq<Node>)
    ensures !cartesian ==> c == [VizDiv]
    ensures cartesian ==> |children| <= |c| && c[..|children|] == children
    ensures VizDiv in c
    ensures multiset(children)[VizDiv] <= 1 ==> multiset(c)[VizDiv] == 1
    ensures VizDiv in children ==> cartesian ==> c == children
    ensures cartesian && VizDiv !in children ==> c == children + [VizDiv]
  {
    var kept := if cartesian then children else [];
    if VizDiv in kept then kept else kept + [VizDiv]
  }

  /** The visible effect of running the cleaned snippet with `new Function(…)()`. */
  datatype RunResult = Completed | Threw(message: string)

  /** The handler's promise: it rejects only when the analysis is `null`. */
  datatype Outcome = Finished | Aborted

  /** What the "stochify:viz" event carries. */
  datatype VizDetail = VizDetail(code: string, dimension: string, analysis: string)

  /** The VisualSection component: its container and its error state, with the
      document's script elements beside it. */
  class VisualPanel {
    var children: seq<Node>
    var error: Option<string>
    const head: ScriptHead

    ghost predicate Valid()
      reads this
    {
      multiset(children)[VizDiv] <= 1
    }

    constructor(head: ScriptHead)
      ensures children == [] && error == None && this.head == head && Valid()
    {
      children := [];
      error := None;
      this.head := head;
    }

    /** Lines 39-42, taken when `dimension` is "3d": three.js, its orbit controls,
        then the `window.THREE` line. */
    method LoadThree(dimension: string, available: string -> bool, threeGlobal: bool) returns (r: LoadRun)
      requires dimension == "3d"
      modifies head
      ensures r == LibraryPhase(old(head.Srcs()), dimension, available, threeGlobal)
      ensures head.Srcs() == old(head.Srcs()) + Members(r.requested)
      ensures old(head.Unique()) ==> head.Unique()
    {
      ghost var present := head.Srcs();
      UrlsDistinct();
      ThreePhase(present, dimension, available, threeGlobal);
      MembersPair(ThreeUrl, OrbitUrl);
      var s := head.LoadScript(ThreeUrl, available(ThreeUrl));
      ghost var first := head.Srcs();
      assert first == present + {ThreeUrl};
      if s.Rejected? {
        return LoadRun([ThreeUrl], Some(s.message));
      }
      s := head.LoadScript(OrbitUrl, available(OrbitUrl));
      assert head.Srcs() == first + {OrbitUrl} == present + {ThreeUrl, OrbitUrl};
      if s.Rejected? {
        r := LoadRun([ThreeUrl, OrbitUrl], Some(s.message));
      } else if !threeGlobal {
        r := LoadRun([ThreeUrl, OrbitUrl], Some(ThreeUnbound));
      } else {
        r := LoadRun([ThreeUrl, OrbitUrl], None);
      }
    }

    /** Line 44: d3, for every dimension other than "3d". */
    method LoadD3(dimension: string, available: string -> bool, threeGlobal: bool) returns (r: LoadRun)
      requires dimension != "3d"
      modifies head
      ensures r == LibraryPhase(old(head.Srcs()), dimension, available, threeGlobal)
      ensures head.Srcs() == old(head.Srcs()) + Members(r.requested)
      ensures old(head.Unique()) ==> head.Unique()
    {
      ghost var present := head.Srcs();
      D3Phase(present, dimension, available, threeGlobal);
      MembersPair(D3Url, D3Url);
      var s := head.LoadScript(D3Url, available(D3Url));
      r := LoadRun([D3Url], if s.Rejected? then Some(s.message) else None);
    }

    /** Lines 39-44: the library phase of either kind. */
    method LoadLibrary(dimension: string, available: string -> bool, threeGlobal: bool) returns (r: LoadRun)
      modifies head
      ensures r == LibraryPhase(old(head.Srcs()), dimension, available, threeGlobal)
      ensures head.Srcs() == old(head.Srcs()) + Members(r.requested)
      ensures old(head.Unique()) ==> head.Unique()
    {
      if dimension == "3d" {
        r := LoadThree(dimension, available, threeGlobal);
      } else {
        r := LoadD3(dimension, available, threeGlobal);
      }
    }

    /** Lines 39-54: the library phase, then the skeleton when one is due. */
    method LoadScripts(dimension: string, cartesian: bool, available: string -> bool,
                       threeGlobal: bool) returns (r: LoadRun)
      modifies head
      ensures r == LoadPhase(old(head.Srcs()), dimension, cartesian, available, threeGlobal)
      ensures head.Srcs() == old(head.Srcs()) + Members(r.requested)
      ensures old(head.Unique()) ==> head.Unique()
    {
      ghost var present := head.Srcs();
      r := LoadLibrary(dimension, available, threeGlobal);
      var skeleton := Skeleton(dimension, cartesian);
      if r.fault.Some? || skeleton.None? {
        return;
      }
      var u := skeleton.value;
      SkeletonNotInLibrary(dimension, cartesian);
      SkeletonPhase(present, dimension, cartesian, available, threeGlobal);
      assert r.requested == Library(dimension);
      MembersAppend(r.requested, u);
      var lib := r.requested;
      assert head.Srcs() == present + Members(lib);
      var s := head.LoadScript(u, available(u));
      r := LoadRun(lib + [u], if s.Rejected? then Some(s.message) else None);
      assert head.Srcs() == (present + Members(lib)) + {u} == present + (Members(lib) + {u});
    }

    /** `handleVizEvent(e)` with `e.detail == detail`.  `parse` stands for
        `JSON.parse` (`None` when it throws), `available` for the network,
        `threeGlobal` for whether `window.THREE` is set once three.js has loaded,
        and `run` for executing the cleaned snippet.  Returns the scripts
        requested, in order, and the text handed to `new Function`. */
    method HandleVizEvent(detail: VizDetail, parse: string -> Option<Json>, available: string -> bool,
                          threeGlobal: bool, run: string -> RunResult)
      returns (outcome: Outcome, requested: seq<string>, executed: Option<string>)
      requires Valid()
      modifies this, head
      ensures Valid()
      ensures CartesianFlag(parse(detail.analysis)) == NullAnalysis ==>
                outcome == Aborted && error == None && children == old(children)
                && head.tags == old(head.tags) && requested == [] && executed == None
      ensures CartesianFlag(parse(detail.analysis)).Flag? ==>
                var cartesian := CartesianFlag(parse(detail.analysis)).cartesian;
                var phase := LoadPhase(old(head.Srcs()), detail.dimension, cartesian, available, threeGlobal);
                && outcome == Finished
                && children == Container(old(children), cartesian)
                && requested == phase.requested
                && head.Srcs() == old(head.Srcs()) + Members(requested)
                && executed == (if phase.fault.None? then Some(CleanCode(detail.code)) else None)
                && error == (if phase.fault.Some? then phase.fault
                             else if run(CleanCode(detail.code)).Threw? then Some(run(CleanCode(detail.code)).message)
                             else None)
      ensures old(head.Unique()) ==> head.Unique()
    {
      error := None;
      var flag := CartesianFlag(parse(detail.analysis));
      if flag.NullAnalysis? {
        return Aborted, [], None;
      }
      if !flag.cartesian {
        children := [];
      }
      if VizDiv !in children {
        children := children + [VizDiv];
      }
      var phase := LoadScripts(detail.dimension, flag.cartesian, available, threeGlobal);
      requested := phase.requested;
      if phase.fault.Some? {
        error := phase.fault;
        return Finished, requested, None;
      }
      var cleaned := CleanCode(detail.code);
      executed := Some(cleaned);
      var result := run(cleaned);
      if result.Threw? {
        error := Some(result.message);
      }
      outcome := Finished;
    }
  }
}
