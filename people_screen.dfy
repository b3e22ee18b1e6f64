/** The native "Discover People" screen: a list of people and a cursor into it. Vibe and skip
    both move the cursor to the next person, wrapping to the first after the last; refresh
    replaces the list by a shuffled copy of the sample people and resets the cursor. */
module PeopleScreen {
  import opened Wrappers
  import opened Person
  import opened ToastContext

  /** The screen's sample people, in their declared order. */
  function DummyPeople(): seq<Person> {
    [ Person("p1", "Jessie", 24, Some("1 mile away"), Some(2), None, None, None),
      Person("p2", "Mike", 28, Some("3 miles away"), None, None, None, None),
      Person("p3", "Sarah", 22, Some("0.5 miles away"), Some(1), None, None, None) ]
  }

  /** The cursor is in range, or the list is empty and the cursor is 0. */
  predicate CursorOk(count: nat, index: nat) {
    index < count || (count == 0 && index == 0)
  }

  /** `showNextPerson`'s update: the successor, or 0 once the successor passes the end. For an
      in-range cursor this is the successor modulo the length; the rule never leaves the
      range and never produces an "exhausted" value. */
  function NextIndex(prev: nat, count: nat): (r: nat)
    ensures CursorOk(count, r)
    ensures prev < count ==> r == (prev + 1) % count
  {
    if prev + 1 >= count then 0 else prev + 1
  }

  /** The cursor after `k` advances. */
  function AdvanceTimes(index: nat, count: nat, k: nat): nat
    decreases k
  {
    if k == 0 then index else NextIndex(AdvanceTimes(index, count, k - 1), count)
  }

  /** Advances compose: `a` advances followed by `b` advances are `a + b` advances. */
  lemma {:induction false} AdvanceTimesAdd(index: nat, count: nat, a: nat, b: nat)
    ensures AdvanceTimes(index, count, a + b) == AdvanceTimes(AdvanceTimes(index, count, a), count, b)
    decreases b
  {
    if b > 0 {
      AdvanceTimesAdd(index, count, a, b - 1);
    }
  }

  /** Before the end is reached, `k` advances move the cursor `k` places forward. */
  lemma {:induction false} AdvanceTimesForward(index: nat, count: nat, k: nat)
    requires index + k < count
    ensures AdvanceTimes(index, count, k) == index + k
    decreases k
  {
    if k > 0 {
      AdvanceTimesForward(index, count, k - 1);
    }
  }

  /** From an in-range cursor, the advance that passes the last person lands on the first. */
  lemma AdvanceTimesWraps(index: nat, count: nat)
    requires index < count
    ensures AdvanceTimes(index, count, count - index) == 0
  {
    AdvanceTimesForward(index, count, count - index - 1);
  }

  /** As many advances as there are people bring the cursor back to where it started. */
  lemma FullCycleReturns(index: nat, count: nat)
    requires index < count
    ensures AdvanceTimes(index, count, count) == index
  {
    AdvanceTimesAdd(index, count, count - index, index);
    AdvanceTimesWraps(index, count);
    AdvanceTimesForward(0, count, index);
  }

  /** `people[currentIndex]`, which is `undefined` past the end. */
  function CurrentPersonAt(people: seq<Person>, index: nat): (r: Option<Person>)
    ensures r.Some? <==> index < |people|
    ensures r.Some? ==> r.value == people[index]
  {
    if index < |people| then Some(people[index]) else None
  }

  /** With a valid cursor, the "No more people" branch is taken exactly when the list is
      empty. */
  lemma EmptyStateIffNoPeople(people: seq<Person>, index: nat)
    requires CursorOk(|people|, index)
    ensures CurrentPersonAt(people, index).None? <==> people == []
  {
  }

  /** The "Showing profile i of n" line: rendered inside the card branch, when the list is
      non-empty; the position it shows is between 1 and the number of people. */
  function StatsLine(people: seq<Person>, index: nat): (r: Option<(nat, nat)>)
    ensures r.Some? <==> index < |people|
    ensures r.Some? ==> r.value == (index + 1, |people|)
    ensures r.Some? ==> 1 <= r.value.0 <= r.value.1
  {
    if CurrentPersonAt(people, index).Some? && |people| > 0 then Some((index + 1, |people|)) else None
  }

  /** The toast that `handleVibe(id)` shows. */
  function VibeToast(people: seq<Person>, id: string): ToastDetails {
    ToastDetails("You sent a vibe to " + NameOrThem(FindById(people, id)) + "!",
                 Success, None, Some("Vibed! \U{2728}"))
  }

  /** The toast that `handleSkip(id)` shows. */
  function SkipToast(people: seq<Person>, id: string): ToastDetails {
    ToastDetails("You skipped " + NameOrThem(FindById(people, id)) + ".", Info, None, Some("Skipped"))
  }

  /** The toast that `refreshPeople` shows. */
  function RefreshToast(): ToastDetails {
    ToastDetails("Profiles refreshed!", Info, None, None)
  }

  /** The component's `people` and `currentIndex` state. */
  class Screen {
    var people: seq<Person>
    var currentIndex: nat

    /** The list is always an arrangement of the sample people and the cursor points into it. */
    ghost predicate Valid()
      reads this
    {
      multiset(people) == multiset(DummyPeople()) && currentIndex < |people|
    }

    constructor ()
      ensures Valid() && people == DummyPeople() && currentIndex == 0
    {
      people := DummyPeople();
      currentIndex := 0;
    }

    /** The person on the card; with the invariant there always is one. */
    function CurrentPerson(): (r: Option<Person>)
      reads this
      requires Valid()
      ensures r == Some(people[currentIndex])
      ensures r.value in multiset(DummyPeople())
    {
      assert people[currentIndex] in multiset(people);
      CurrentPersonAt(people, currentIndex)
    }

    /** `showNextPerson`. */
    method ShowNextPerson()
      requires Valid()
      modifies this
      ensures Valid()
      ensures people == old(people) && currentIndex == NextIndex(old(currentIndex), |people|)
    {
      assert |people| == 3 by {
        assert |multiset(people)| == |multiset(DummyPeople())|;
      }
      currentIndex := NextIndex(currentIndex, |people|);
    }

    /** `handleVibe(id)`: shows the vibe toast and advances once; the list is untouched. */
    method HandleVibe(id: string) returns (toast: ToastDetails)
      requires Valid()
      modifies this
      ensures Valid()
      ensures people == old(people) && currentIndex == NextIndex(old(currentIndex), |people|)
      ensures toast == VibeToast(people, id)
    {
      toast := VibeToast(people, id);
      ShowNextPerson();
    }

    /** `handleSkip(id)`: shows the skip toast and advances once; the list is untouched. */
    method HandleSkip(id: string) returns (toast: ToastDetails)
      requires Valid()
      modifies this
      ensures Valid()
      ensures people == old(people) && currentIndex == NextIndex(old(currentIndex), |people|)
      ensures toast == SkipToast(people, id)
    {
      toast := SkipToast(people, id);
      ShowNextPerson();
    }

    /** `refreshPeople`: the list becomes `shuffled`, the shuffle's result, which is some
        permutation of the sample people; the cursor goes back to the first person. */
    method RefreshPeople(shuffled: seq<Person>) returns (toast: ToastDetails)
      requires Valid()
      requires multiset(shuffled) == multiset(DummyPeople())
      modifies this
      ensures Valid()
      ensures people == shuffled && currentIndex == 0 && |people| == |DummyPeople()|
      ensures toast == RefreshToast()
    {
      assert |shuffled| == 3 by {
        assert |multiset(shuffled)| == |multiset(DummyPeople())|;
      }
      people := shuffled;
      currentIndex := 0;
      toast := RefreshToast();
    }
  }
}
