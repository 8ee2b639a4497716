/** The search bar of ChatSectionSearch.jsx: the typewriter that cycles through
    sample prompts in the placeholder, the switch to a fixed placeholder once a
    chat has started, and the submit guard. */
module ChatSearch {
  import opened Text
  import opened Options

  /** The sample prompts the placeholder cycles through. */
  const Placeholders: seq<string> := [
    "a network of nodes showing connections",
    "a heatmap of traffic across time",
    "a scatterplot of focus and output",
    "a stock's price path from simulation",
    "AI decision zones shown in color",
    "the gradient flow through a network",
    "a timeline of innovation bursts",
    "beats changing across a timeline",
    "a curve showing exponential decay",
    "dice roll outcomes forming patterns",
    "a chaos pattern generated from seeds",
    "the shape of a normal distribution",
    "a spiral expanding from the origin",
    "a geometric pattern in slow motion",
    "a gradient morphing through hues",
    "the branching roots of an old tree",
    "a galaxy spinning in deep space",
    "migration routes across continents",
    "the flow of ocean currents on Earth",
    "rainfall intensity across mountains",
    "a glowing orbit tracing random motion",
    "harmony visualized across notes",
    "a waveform fading into the distance",
    "the emotional arc of a short film",
    "a color field shifting with mood",
    "a field of particles reacting to touch",
    "a neural rhythm pulsing with life",
    "a thought path forming in motion",
    "a wave pattern dissolving to noise"
  ]

  const PlaceholderCount := 29

  /** The placeholder shown once a chat has started. */
  const Started := "anything"

  lemma PlaceholdersShape()
    ensures |Placeholders| == PlaceholderCount
    ensures forall i | 0 <= i < |Placeholders| :: |Placeholders[i]| > 0
  {
  }

  // ---------------------------------------------------------------------------
  // The typewriter as a function on its three counters
  // ---------------------------------------------------------------------------

  /** The closure variables `charIndex` and `deleting` with the `currentIndex` state. */
  datatype Typewriter = Typewriter(charIndex: nat, deleting: bool, index: nat)

  /** Typing never reaches the end without turning round, and deleting never
      stays at the start. */
  predicate InRange(w: Typewriter) {
    && w.index < |Placeholders|
    && w.charIndex <= |Placeholders[w.index]|
    && (w.deleting ==> 0 < w.charIndex)
    && (!w.deleting ==> w.charIndex < |Placeholders[w.index]|)
  }

  /** The text a state shows: the first `charIndex` characters of its prompt. */
  function Shown(w: Typewriter): (t: string)
    requires InRange(w)
    ensures |t| == w.charIndex
    ensures IsPrefix(t, Placeholders[w.index])
  {
    Placeholders[w.index][..w.charIndex]
  }

  /** One tick of `typeEffect`, including the restart of the effect that a new
      `currentIndex` causes. */
  function Step(w: Typewriter): (v: Typewriter)
    requires InRange(w)
    ensures InRange(v)
    ensures !w.deleting ==> v.charIndex == w.charIndex + 1 && v.index == w.index
                            && (v.deleting <==> v.charIndex == |Placeholders[w.index]|)
    ensures w.deleting && w.charIndex > 1 ==> v == w.(charIndex := w.charIndex - 1)
    ensures w.deleting && w.charIndex == 1 ==> v == Typewriter(0, false, (w.index + 1) % |Placeholders|)
  {
    PlaceholdersShape();
    if !w.deleting then
      var c := w.charIndex + 1;
      Typewriter(c, c == |Placeholders[w.index]|, w.index)
    else
      var c := w.charIndex - 1;
      if c == 0 then Typewriter(0, false, (w.index + 1) % |Placeholders|)
      else Typewriter(c, true, w.index)
  }

  /** `n` ticks. */
  function Run(w: Typewriter, n: nat): (v: Typewriter)
    requires InRange(w)
    ensures InRange(v)
    decreases n
  {
    if n == 0 then w else Run(Step(w), n - 1)
  }

  lemma {:induction false} RunAdds(w: Typewriter, a: nat, b: nat)
    requires InRange(w)
    ensures Run(w, a + b) == Run(Run(w, a), b)
    decreases a
  {
    if a > 0 {
      RunAdds(Step(w), a - 1, b);
    }
  }

  /** Typing from `c` characters reaches the whole prompt and turns round. */
  lemma {:induction false} TypingPhase(i: nat, c: nat)
    requires i < |Placeholders| && c < |Placeholders[i]|
    ensures Run(Typewriter(c, false, i), |Placeholders[i]| - c) == Typewriter(|Placeholders[i]|, true, i)
    decreases |Placeholders[i]| - c
  {
    var w := Typewriter(c, false, i);
    if c + 1 < |Placeholders[i]| {
      assert Step(w) == Typewriter(c + 1, false, i);
      TypingPhase(i, c + 1);
    }
  }

  /** Deleting from `c` characters empties the placeholder and moves to the next prompt. */
  lemma {:induction false} DeletingPhase(i: nat, c: nat)
    requires i < |Placeholders| && 0 < c <= |Placeholders[i]|
    ensures Run(Typewriter(c, true, i), c) == Typewriter(0, false, (i + 1) % |Placeholders|)
    decreases c
  {
    if c > 1 {
      DeletingPhase(i, c - 1);
    }
  }

  /** A full cycle: from an empty placeholder on prompt `i`, twice the prompt's
      length in ticks types it out, deletes it, and lands on the next prompt,
      wrapping round after the last. */
  lemma FullCycle(i: nat)
    requires i < |Placeholders|
    ensures Run(Typewriter(0, false, i), 2 * |Placeholders[i]|)
            == Typewriter(0, false, (i + 1) % |Placeholders|)
  {
    PlaceholdersShape();
    var n := |Placeholders[i]|;
    RunAdds(Typewriter(0, false, i), n, n);
    TypingPhase(i, 0);
    DeletingPhase(i, n);
  }

  // ---------------------------------------------------------------------------
  // The component
  // ---------------------------------------------------------------------------

  class SearchBar {
    var input: string
    var placeholder: string
    var currentIndex: nat
    var charIndex: nat
    var deleting: bool
    /** Whether the 20 ms interval is running. */
    var ticking: bool

    ghost function State(): Typewriter
      reads this
    {
      Typewriter(charIndex, deleting, currentIndex)
    }

    ghost predicate Valid()
      reads this
    {
      InRange(State())
    }

    /** The first render, before the effect runs. */
    constructor()
      ensures input == "" && placeholder == "" && State() == Typewriter(0, false, 0)
      ensures !ticking && Valid()
    {
      PlaceholdersShape();
      input := "";
      placeholder := "";
      currentIndex := 0;
      charIndex := 0;
      deleting := false;
      ticking := false;
    }

    /** The effect of lines 55-89, run on mount and whenever `currentIndex` or
        `hasStartedChat` changes. */
    method RunEffect(hasStartedChat: bool)
      requires Valid()
      modifies this
      ensures Valid() && input == old(input) && currentIndex == old(currentIndex)
      ensures hasStartedChat ==>
                placeholder == Started && !ticking
                && charIndex == old(charIndex) && deleting == old(deleting)
      ensures !hasStartedChat ==>
                placeholder == old(placeholder) && ticking && charIndex == 0 && !deleting
    {
      PlaceholdersShape();
      if hasStartedChat {
        ticking := false;
        placeholder := Started;
        return;
      }
      charIndex := 0;
      deleting := false;
      ticking := true;
    }

    /** One tick of `typeEffect`; when deleting empties the placeholder the index
        moves on and the effect restarts from an empty prompt. */
    method TypeEffect()
      requires Valid() && ticking
      modifies this
      ensures Valid() && ticking && input == old(input)
      ensures State() == Step(old(State()))
      ensures placeholder == Shown(State())
    {
      PlaceholdersShape();
      var fullText := Placeholders[currentIndex];
      if !deleting {
        placeholder := fullText[..charIndex + 1];
        charIndex := charIndex + 1;
        if charIndex == |fullText| {
          deleting := true;
        }
      } else {
        placeholder := fullText[..charIndex - 1];
        charIndex := charIndex - 1;
        if charIndex == 0 {
          deleting := false;
          currentIndex := (currentIndex + 1) % |Placeholders|;
        }
      }
    }

    /** `handleSubmit`: the trimmed input is sent, and the field cleared, unless it
        is empty or a reply is still loading. */
    method HandleSubmit(loading: bool) returns (sent: Option<string>)
      modifies this
      ensures Trim(old(input)) == "" || loading ==> sent == None && input == old(input)
      ensures Trim(old(input)) != "" && !loading ==> sent == Some(Trim(old(input))) && input == ""
      ensures placeholder == old(placeholder) && State() == old(State()) && ticking == old(ticking)
    {
      var text := Trim(input);
      if text == "" || loading {
        return None;
      }
      input := "";
      sent := Some(text);
    }

    /** The `placeholder` attribute of the input element. */
    function Displayed(): (d: string)
      reads this
      ensures IsPrefix("Visualize ", d) && d[10..] == placeholder
    {
      "Visualize " + placeholder
    }
  }
}
