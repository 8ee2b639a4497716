/** `loadScript` of VisualSection.jsx and the `<script>` elements it leaves in
    `document.head`.  Deduplication is by presence of an element with the same
    `src`: an element whose load is still pending, or whose load failed, counts
    as present, so there is neither single-flight waiting nor retry. */
module Scripts {
  import opened Text

  datatype LoadState = Pending | Loaded | Failed

  /** One `<script>` element: its `src`, its `type` attribute and how its load went. */
  datatype ScriptTag = ScriptTag(src: string, kind: string, state: LoadState)

  /** How the promise returned by `loadScript` settles. */
  datatype Settlement = Resolved | Rejected(message: string)

  /** What the synchronous part of `loadScript` did. */
  datatype Request = AlreadyPresent | Appended

  /** The `type` given to a new element: "module" exactly for a `src` ending in ".js". */
  function ScriptKind(src: string): (kind: string)
    ensures kind == "module" <==> EndsWith(src, ".js")
    ensures kind == "module" || kind == "text/javascript"
  {
    if EndsWith(src, ".js") then "module" else "text/javascript"
  }

  /** The message of the `Error` a failed load rejects with. */
  function FailureMessage(src: string): (msg: string)
    ensures IsPrefix("Failed to load ", msg) && msg[15..] == src
  {
    "Failed to load " + src
  }

  /** The `src` values of a sequence of elements. */
  ghost function SrcsOf(tags: seq<ScriptTag>): set<string>
    decreases |tags|
  {
    if tags == [] then {} else SrcsOf(tags[..|tags| - 1]) + {tags[|tags| - 1].src}
  }

  lemma {:induction false} SrcsOfHas(tags: seq<ScriptTag>, src: string)
    ensures src in SrcsOf(tags) <==> exists i | 0 <= i < |tags| :: tags[i].src == src
    decreases |tags|
  {
    if tags != [] {
      var init := tags[..|tags| - 1];
      SrcsOfHas(init, src);
      if src in SrcsOf(init) {
        var i :| 0 <= i < |init| && init[i].src == src;
        assert tags[i] == init[i];
      }
      if exists i | 0 <= i < |tags| :: tags[i].src == src {
        var i :| 0 <= i < |tags| && tags[i].src == src;
        if i < |init| {
          assert init[i] == tags[i];
        }
      }
    }
  }

  lemma SrcsOfAppend(tags: seq<ScriptTag>, t: ScriptTag)
    ensures SrcsOf(tags + [t]) == SrcsOf(tags) + {t.src}
  {
    assert (tags + [t])[..|tags|] == tags;
  }

  /** Changing the state of one element keeps the set of `src` values. */
  lemma {:induction false} SrcsOfUpdate(tags: seq<ScriptTag>, i: nat, t: ScriptTag)
    requires i < |tags| && t.src == tags[i].src
    ensures SrcsOf(tags[i := t]) == SrcsOf(tags)
    decreases |tags|
  {
    var last := |tags| - 1;
    assert tags[i := t][..last] == if i == last then tags[..last] else tags[..last][i := t];
    if i < last {
      SrcsOfUpdate(tags[..last], i, t);
    }
  }

  /** The script elements of `document.head`, in insertion order. */
  class ScriptHead {
    var tags: seq<ScriptTag>

    constructor()
      ensures tags == []
    {
      tags := [];
    }

    /** The set of `src` values present: it only ever grows. */
    ghost function Srcs(): set<string>
      reads this
    {
      SrcsOf(tags)
    }

    /** `document.querySelector('script[src="…"]')` finds an element. */
    function Present(src: string): (b: bool)
      reads this
      ensures b <==> src in Srcs()
    {
      SrcsOfHas(tags, src);
      exists i | 0 <= i < |tags| :: tags[i].src == src
    }

    /** No two elements share a `src`. */
    ghost predicate Unique()
      reads this
    {
      forall i, j | 0 <= i < j < |tags| :: tags[i].src != tags[j].src
    }

    /** The synchronous part of `loadScript(src)`: resolve at once when an element
        with this `src` is present, otherwise append a new pending one. */
    method Request(src: string) returns (r: Request)
      modifies this
      ensures old(Present(src)) ==> r == AlreadyPresent && tags == old(tags)
      ensures !old(Present(src)) ==>
                r == Appended && tags == old(tags) + [ScriptTag(src, ScriptKind(src), Pending)]
      ensures Srcs() == old(Srcs()) + {src}
      ensures old(Unique()) ==> Unique()
    {
      if Present(src) {
        return AlreadyPresent;
      }
      SrcsOfAppend(tags, ScriptTag(src, ScriptKind(src), Pending));
      tags := tags + [ScriptTag(src, ScriptKind(src), Pending)];
      r := Appended;
    }

    /** The `onload` (`loaded`) or `onerror` event of the `i`th element. */
    method Settle(i: nat, loaded: bool) returns (s: Settlement)
      requires i < |tags| && tags[i].state == Pending
      modifies this
      ensures tags == old(tags)[i := old(tags)[i].(state := if loaded then Loaded else Failed)]
      ensures s == if loaded then Resolved else Rejected(FailureMessage(old(tags)[i].src))
      ensures Srcs() == old(Srcs())
      ensures old(Unique()) ==> Unique()
    {
      var t := tags[i];
      SrcsOfUpdate(tags, i, t.(state := if loaded then Loaded else Failed));
      tags := tags[i := t.(state := if loaded then Loaded else Failed)];
      s := if loaded then Resolved else Rejected(FailureMessage(t.src));
    }

    /** `await loadScript(src)`: `available` says whether the browser would fetch and
        evaluate `src` without an error event. */
    method LoadScript(src: string, available: bool) returns (s: Settlement)
      modifies this
      ensures s == if old(Present(src)) || available then Resolved else Rejected(FailureMessage(src))
      ensures old(Present(src)) ==> tags == old(tags)
      ensures !old(Present(src)) ==>
                tags == old(tags) + [ScriptTag(src, ScriptKind(src), if available then Loaded else Failed)]
      ensures Srcs() == old(Srcs()) + {src}
      ensures old(Unique()) ==> Unique()
    {
      var r := Request(src);
      if r == AlreadyPresent {
        return Resolved;
      }
      s := Settle(|tags| - 1, available);
    }
  }
}
