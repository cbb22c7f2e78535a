/** The onboarding screen: three information slides followed by a
    feeling-selection screen. `currentSlide` counts the slides seen; it
    equals the number of slides exactly when the selection screen shows. */
module Onboarding {

  import opened Values

  /** `slides.length`. */
  const SlideCount: int := 3

  predicate NoDuplicates(s: seq<string>)
  {
    forall i, j :: 0 <= i < j < |s| ==> s[i] != s[j]
  }

  /** `prev.filter((f) => f !== id)`. */
  function Remove(s: seq<string>, id: string): (r: seq<string>)
    ensures forall x :: x in r <==> x in s && x != id
    ensures |r| <= |s|
    ensures id !in s ==> r == s
  {
    if s == [] then []
    else if s[0] == id then Remove(s[1..], id)
    else [s[0]] + Remove(s[1..], id)
  }

  /** The selection after tapping `id`: removed if present, else appended. */
  function Toggled(s: seq<string>, id: string): (r: seq<string>)
    ensures id in r <==> id !in s
    ensures forall x :: x != id ==> (x in r <==> x in s)
    ensures id !in s ==> r == s + [id]
  {
    if id in s then Remove(s, id) else s + [id]
  }

  class OnboardingState {
    var currentSlide: int
    var selectedFeelings: seq<string>

    /** The slide index stays within 0..slides.length and no feeling is
        selected twice. */
    ghost predicate Valid()
      reads this
    {
      0 <= currentSlide <= SlideCount && NoDuplicates(selectedFeelings)
    }

    /** `useState(0)` and `useState([])`. */
    constructor ()
      ensures Valid()
      ensures currentSlide == 0 && selectedFeelings == []
    {
      currentSlide := 0;
      selectedFeelings := [];
    }

    predicate ShowsFeelingSelection()
      reads this
    {
      currentSlide == SlideCount
    }

    /** Continue: on an information slide, advance by one; on the
        selection screen, hand the selection to `onComplete` when it is not
        empty (the result), and stay. */
    method HandleNext() returns (completed: Option<seq<string>>)
      requires Valid()
      modifies this`currentSlide
      ensures Valid()
      ensures old(currentSlide) < SlideCount ==> currentSlide == old(currentSlide) + 1 && completed.None?
      ensures old(currentSlide) == SlideCount ==> currentSlide == SlideCount
      ensures old(currentSlide) == SlideCount && selectedFeelings != [] ==> completed == Some(selectedFeelings)
      ensures selectedFeelings == [] ==> completed.None?
    {
      if currentSlide == SlideCount {
        if |selectedFeelings| > 0 {
          return Some(selectedFeelings);
        }
        return None;
      }
      currentSlide := currentSlide + 1;
      completed := None;
    }

    /** Skip: jump straight to the selection screen. */
    method HandleSkip()
      requires Valid()
      modifies this`currentSlide
      ensures Valid()
      ensures currentSlide == SlideCount
    {
      currentSlide := SlideCount;
    }

    /** Tap on a feeling: select it, or deselect it when already selected. */
    method HandleFeelingToggle(id: string)
      requires Valid()
      modifies this`selectedFeelings
      ensures Valid()
      ensures selectedFeelings == Toggled(old(selectedFeelings), id)
    {
      ToggledKeepsNoDuplicates(selectedFeelings, id);
      selectedFeelings := Toggled(selectedFeelings, id);
    }
  }

  // ---------------------------------------------------------------- properties

  /** Removing introduces no duplicate. */
  lemma {:induction false} RemoveKeepsNoDuplicates(s: seq<string>, id: string)
    requires NoDuplicates(s)
    ensures NoDuplicates(Remove(s, id))
  {
    if s != [] {
      assert NoDuplicates(s[1..]) by {
        forall i, j | 0 <= i < j < |s[1..]| ensures s[1..][i] != s[1..][j] {
          assert s[1..][i] == s[i + 1] && s[1..][j] == s[j + 1];
        }
      }
      RemoveKeepsNoDuplicates(s[1..], id);
      if s[0] != id {
        var t := Remove(s[1..], id);
        assert s[0] !in s[1..];
        assert s[0] !in t;
        assert forall j :: 0 <= j < |t| ==> ([s[0]] + t)[j + 1] == t[j];
      }
    }
  }

  /** Removing works pair by pair: the ids kept from a concatenation are
      those kept from each part, in the same order. */
  lemma {:induction false} RemoveConcat(a: seq<string>, b: seq<string>, id: string)
    ensures Remove(a + b, id) == Remove(a, id) + Remove(b, id)
  {
    if a != [] {
      assert (a + b)[1..] == a[1..] + b;
      RemoveConcat(a[1..], b, id);
    } else {
      assert a + b == b;
    }
  }

  /** Deselecting an id that sits at position `i` of a selection without
      duplicates closes the gap: the ids before and after it keep their order. */
  lemma RemoveAt(s: seq<string>, i: int, id: string)
    requires NoDuplicates(s) && 0 <= i < |s| && s[i] == id
    ensures Remove(s, id) == s[..i] + s[i + 1..]
  {
    assert s == s[..i] + ([id] + s[i + 1..]);
    assert id !in s[..i];
    var rest := s[i + 1..];
    assert id !in rest by {
      forall j | 0 <= j < |rest| ensures rest[j] != id {
        assert rest[j] == s[i + 1 + j];
      }
    }
    RemoveConcat(s[..i], [id] + rest, id);
    RemoveConcat([id], rest, id);
    assert Remove([id], id) == [] by { assert [id][1..] == []; }
  }

  /** The selection never holds an id twice. */
  lemma ToggledKeepsNoDuplicates(s: seq<string>, id: string)
    requires NoDuplicates(s)
    ensures NoDuplicates(Toggled(s, id))
  {
    if id in s {
      RemoveKeepsNoDuplicates(s, id);
    }
  }

  /** Removing an id that was just appended gives back the original. */
  lemma {:induction false} RemoveAppended(s: seq<string>, id: string)
    requires id !in s
    ensures Remove(s + [id], id) == s
  {
    if s == [] {
      assert [id][1..] == [];
    } else {
      assert (s + [id])[1..] == s[1..] + [id];
      RemoveAppended(s[1..], id);
      assert [s[0]] + s[1..] == s;
    }
  }

  /** Tapping an unselected feeling twice restores the selection exactly. */
  lemma ToggleTwiceRestores(s: seq<string>, id: string)
    requires id !in s
    ensures Toggled(Toggled(s, id), id) == s
  {
    RemoveAppended(s, id);
  }

  /** Tapping a selected feeling twice keeps the same set of ids but moves
      it to the end of the selection. */
  lemma ToggleTwiceMovesToEnd(s: seq<string>, id: string)
    requires id in s
    ensures Toggled(Toggled(s, id), id) == Remove(s, id) + [id]
  {
  }
}
