/**
 * The FAQ accordion: at most one answer is open; opening a question closes
 * any other, and pressing the open one closes it.
 */
module Faq {
  import opened Wrappers

  /** `handleToggle`: the pressed question opens unless it is the open one. */
  function Toggle(openIndex: Option<nat>, index: nat): (r: Option<nat>)
    ensures r == Some(index) <==> openIndex != Some(index)
    ensures r == None <==> openIndex == Some(index)
  {
    if openIndex == Some(index) then None else Some(index)
  }

  /** The open question after pressing the questions `ps` in order, from `openIndex`. */
  function Presses(openIndex: Option<nat>, ps: seq<nat>): Option<nat>
  {
    if ps == [] then openIndex else Toggle(Presses(openIndex, ps[..|ps| - 1]), ps[|ps| - 1])
  }

  /** How many presses at the end of `ps` are of the last pressed question. */
  function TrailingRun(ps: seq<nat>): (n: nat)
    ensures n <= |ps| && (ps != [] ==> n >= 1)
  {
    if |ps| <= 1 then |ps|
    else if ps[|ps| - 2] == ps[|ps| - 1] then 1 + TrailingRun(ps[..|ps| - 1])
    else 1
  }

  /**
   * From the closed accordion, after any presses only the last pressed
   * question can be open, and it is open exactly when it was pressed an
   * odd number of times in a row at the end.
   */
  lemma {:induction false} PressSequence(ps: seq<nat>)
    ensures ps == [] ==> Presses(None, ps) == None
    ensures ps != [] ==> Presses(None, ps) == (if TrailingRun(ps) % 2 == 1 then Some(ps[|ps| - 1]) else None)
  {
    if |ps| > 1 {
      var p := ps[..|ps| - 1];
      PressSequence(p);
      assert p[|p| - 1] == ps[|ps| - 2];
    }
  }

  /**
   * Pressing the same question twice restores the accordion when it was
   * closed or showing that question; from another open question it ends closed.
   */
  lemma ToggleTwice(openIndex: Option<nat>, index: nat)
    ensures openIndex == None || openIndex == Some(index) ==> Toggle(Toggle(openIndex, index), index) == openIndex
    ensures openIndex.Some? && openIndex != Some(index) ==> Toggle(Toggle(openIndex, index), index) == None
  {
  }

  class FaqAccordion {
    var openIndex: Option<nat>

    /** Every question starts closed. */
    constructor()
      ensures openIndex == None
    {
      openIndex := None;
    }

    method Press(index: nat)
      modifies this
      ensures openIndex == Toggle(old(openIndex), index)
    {
      openIndex := if openIndex == Some(index) then None else Some(index);
    }
  }
}
