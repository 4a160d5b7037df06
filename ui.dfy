/** The overlay's state-keyed rules (components/UI.tsx): the play/replay
    toggle, the reduced-motion switch, and what is shown for each state. */
module UI {
  import opened Types

  /** toggleAnimation: from the formed tree (TREE or FINISHED) break back
      into chaos; from anything else start (or keep) morphing. It never
      lands in TREE or FINISHED: those are reached only by the timeline. */
  function Toggle(s: AnimationState): (r: AnimationState)
    ensures r == CHAOS || r == MORPH
    ensures r == CHAOS <==> (s == TREE || s == FINISHED)
  {
    if s == TREE || s == FINISHED then CHAOS else MORPH
  }

  /** The toggle on each of the four states. */
  lemma ToggleTable()
    ensures Toggle(TREE) == CHAOS && Toggle(FINISHED) == CHAOS
    ensures Toggle(CHAOS) == MORPH && Toggle(MORPH) == MORPH
  {
  }

  /** Two presses always end in MORPH: the first one leaves the formed tree for
      CHAOS (or already gives MORPH), and MORPH is a fixed point. */
  lemma ToggleTwice(s: AnimationState)
    ensures Toggle(Toggle(s)) == MORPH
    ensures Toggle(s) == MORPH ==> Toggle(Toggle(s)) == Toggle(s)
  {
  }

  /** The reduced-motion button stores the negation of the current flag. */
  function FlipReducedMotion(reducedMotion: bool): (r: bool)
    ensures r != reducedMotion
  {
    !reducedMotion
  }

  /** Two presses of the reduced-motion button restore the flag. */
  lemma FlipTwice(reducedMotion: bool)
    ensures FlipReducedMotion(FlipReducedMotion(reducedMotion)) == reducedMotion
  {
  }

  /** The central greeting is faded in exactly in the FINISHED state. */
  predicate GreetingVisible(s: AnimationState)
  {
    s == FINISHED
  }

  /** The caption of the action button. */
  function ActionLabel(s: AnimationState): (caption: string)
    ensures caption == "Play Animation" <==> s == CHAOS
    ensures caption == "Replay" <==> s != CHAOS
  {
    if s == CHAOS then "Play Animation" else "Replay"
  }

  /** The caption of the reduced-motion button. */
  function MotionLabel(reducedMotion: bool): (caption: string)
    ensures caption == "Enable Motion" <==> reducedMotion
    ensures caption == "Reduce Motion" <==> !reducedMotion
  {
    if reducedMotion then "Enable Motion" else "Reduce Motion"
  }

  /** Pressing the action button always hides the greeting, and it shows
      "Play Animation" afterwards exactly when it broke the formed tree up. */
  lemma ToggleEffectOnOverlay(s: AnimationState)
    ensures !GreetingVisible(Toggle(s))
    ensures ActionLabel(Toggle(s)) == "Play Animation" <==> (s == TREE || s == FINISHED)
  {
  }

  /** Pressing the reduced-motion button always changes its caption. */
  lemma FlipChangesMotionLabel(reducedMotion: bool)
    ensures MotionLabel(FlipReducedMotion(reducedMotion)) != MotionLabel(reducedMotion)
  {
  }
}
