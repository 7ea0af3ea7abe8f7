/**
 * The character picker: a carousel over the six trainer characters that
 * wraps around at both ends, with direct jumps from its indicator dots, and a
 * select button that reports the current character only to a signed-in member.
 */
module CharacterSelect {
  import opened Wrappers

  datatype Character = Character(name: string, src: string, id: nat)

  /** The full-body characters, in carousel order. */
  const Characters: seq<Character> := [
    Character("tiger", "/characters/tiger.svg", 1),
    Character("bear", "/characters/bear.svg", 2),
    Character("dog", "/characters/dog.svg", 3),
    Character("rabbit", "/characters/rabbit.svg", 4),
    Character("turtle", "/characters/turtle.svg", 5),
    Character("seagull", "/characters/seagull.svg", 6)
  ]

  /** The carousel's characters carry the ids 1 to 6 in order. */
  lemma CharacterIds()
    ensures |Characters| == 6
    ensures forall i :: 0 <= i < |Characters| ==> Characters[i].id == i + 1
  {
  }

  /** One step back, from the first to the last. */
  function PrevIndex(i: nat, n: nat): (r: nat)
    requires i < n
    ensures r < n
    ensures i > 0 ==> r == i - 1
    ensures i == 0 ==> r == n - 1
  {
    if i == 0 then n - 1 else i - 1
  }

  /** One step forward, from the last to the first. */
  function NextIndex(i: nat, n: nat): (r: nat)
    requires i < n
    ensures r < n
    ensures r == (i + 1) % n
  {
    if i == n - 1 then ModSelf(n); 0 else ModBelow(i + 1, n); i + 1
  }

  lemma ModSelf(n: nat)
    requires n > 0
    ensures n % n == 0
  {
  }

  lemma ModBelow(x: nat, n: nat)
    requires x < n
    ensures x % n == x
  {
  }

  /** Forward undoes back and back undoes forward. */
  lemma StepsUndo(i: nat, n: nat)
    requires i < n
    ensures NextIndex(PrevIndex(i, n), n) == i
    ensures PrevIndex(NextIndex(i, n), n) == i
  {
  }

  /** `k` steps forward. */
  function Advance(i: nat, n: nat, k: nat): (r: nat)
    requires i < n
    ensures r < n
  {
    if k == 0 then i else NextIndex(Advance(i, n, k - 1), n)
  }

  /** Steps add up: `a` steps then `b` steps are `a + b` steps. */
  lemma {:induction false} AdvanceAdd(i: nat, n: nat, a: nat, b: nat)
    requires i < n
    ensures Advance(Advance(i, n, a), n, b) == Advance(i, n, a + b)
  {
    if b > 0 {
      AdvanceAdd(i, n, a, b - 1);
    }
  }

  /** Short of the end, `k` steps forward move `k` places. */
  lemma {:induction false} AdvanceWithin(i: nat, n: nat, k: nat)
    requires i + k < n
    ensures Advance(i, n, k) == i + k
  {
    if k > 0 {
      AdvanceWithin(i, n, k - 1);
    }
  }

  /** From any position, `n` steps forward go all the way round to it. */
  lemma FullCircle(i: nat, n: nat)
    requires i < n
    ensures Advance(i, n, n) == i
  {
    AdvanceWithin(i, n, n - 1 - i);
    assert Advance(i, n, n - i) == 0;
    AdvanceAdd(i, n, n - i, i);
    if i > 0 {
      AdvanceWithin(0, n, i);
    }
  }

  /** The picker's state: its items and the one on show. */
  class CharacterCarousel {
    const items: seq<Character>
    var currentIndex: nat

    ghost predicate Valid()
      reads this
    {
      currentIndex < |items|
    }

    /** The picker opens on the first item. */
    constructor(items: seq<Character>)
      requires |items| > 0
      ensures Valid() && this.items == items && currentIndex == 0
    {
      this.items := items;
      currentIndex := 0;
    }

    /** `handlePrevious`. */
    method Previous()
      requires Valid()
      modifies this
      ensures Valid() && currentIndex == PrevIndex(old(currentIndex), |items|)
    {
      currentIndex := if currentIndex == 0 then |items| - 1 else currentIndex - 1;
    }

    /** `handleNext`. */
    method Next()
      requires Valid()
      modifies this
      ensures Valid() && currentIndex == NextIndex(old(currentIndex), |items|)
    {
      currentIndex := if currentIndex == |items| - 1 then 0 else currentIndex + 1;
    }

    /** A dot or a face tile: straight to that position. */
    method JumpTo(index: nat)
      requires Valid() && index < |items|
      modifies this
      ensures Valid() && currentIndex == index
    {
      currentIndex := index;
    }

    /** `handleSelect`: the current item's id, reported only to a signed-in member. */
    method Select(isLoggedIn: bool) returns (selected: Option<nat>)
      requires Valid()
      ensures isLoggedIn ==> selected == Some(items[currentIndex].id)
      ensures !isLoggedIn ==> selected == None
    {
      if isLoggedIn {
        selected := Some(items[currentIndex].id);
      } else {
        selected := None;
      }
    }
  }
}
