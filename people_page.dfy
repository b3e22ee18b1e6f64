/** The web "Discover People" page: the same list-and-cursor state as the native screen, but
    the cursor advances by `(prevIndex + 1) % people.length`, the header refresh only resets the
    cursor, and the empty-state refresh restores the sample list. */
module PeoplePage {
  import opened Wrappers
  import opened Person
  import PeopleScreen

  /** The page's sample people (one more than the native screen has). */
  function DummyPeople(): seq<Person> {
    [ Person("p1", "Jessie", 24, Some("1 mile away"), Some(2), None, None, None),
      Person("p2", "Mike", 28, Some("3 miles away"), None, None, None, None),
      Person("p3", "Sarah", 22, Some("0.5 miles away"), Some(1), None, None, None),
      Person("p4", "David", 30, Some("5 miles away"), None, None, None, None) ]
  }

  /** `(prevIndex + 1) % people.length`. On an empty list JavaScript yields `NaN`; the
      precondition excludes that case, which the page never reaches (its list is never empty). */
  function NextIndex(prev: nat, count: nat): (r: nat)
    requires count > 0
    ensures r < count
  {
    (prev + 1) % count
  }

  /** For an in-range cursor the modulo rule and the native screen's wrap rule agree. */
  lemma AgreesWithNativeRule(prev: nat, count: nat)
    requires prev < count
    ensures NextIndex(prev, count) == PeopleScreen.NextIndex(prev, count)
  {
  }

  /** The rules differ only off range: from a cursor past the end the native rule returns 0,
      while the modulo rule keeps counting around. */
  lemma RulesDifferOffRange()
    ensures NextIndex(5, 4) == 2 && PeopleScreen.NextIndex(5, 4) == 0
  {
  }

  /** The "Showing profile i of n" line: rendered, outside the card branch, whenever the list
      is non-empty; with an in-range cursor its position is between 1 and n. */
  function StatusLine(people: seq<Person>, index: nat): (r: Option<(nat, nat)>)
    ensures r.Some? <==> people != []
    ensures r.Some? ==> r.value == (index + 1, |people|)
    ensures r.Some? && index < |people| ==> 1 <= r.value.0 <= r.value.1
  {
    if |people| > 0 then Some((index + 1, |people|)) else None
  }

  /** The two status lines differ only in where they are rendered: for an in-range cursor
      the page's line and the native screen's line show the same position and total, and an
      out-of-range cursor on a non-empty list shows the line only on the page. */
  lemma StatusLineAgreesWithNative(people: seq<Person>, index: nat)
    ensures index < |people| ==> StatusLine(people, index) == PeopleScreen.StatsLine(people, index)
    ensures |people| <= index && people != [] ==>
              StatusLine(people, index).Some? && PeopleScreen.StatsLine(people, index).None?
  {
  }

  /** The page's `people` and `currentIndex` state. */
  class Page {
    var people: seq<Person>
    var currentIndex: nat

    /** No handler ever changes the list, and the cursor points into it. */
    ghost predicate Valid()
      reads this
    {
      people == DummyPeople() && currentIndex < |people|
    }

    constructor ()
      ensures Valid() && currentIndex == 0
    {
      people := DummyPeople();
      currentIndex := 0;
    }

    /** `showNextPerson`. */
    method ShowNextPerson()
      requires Valid()
      modifies this
      ensures Valid()
      ensures people == old(people) && currentIndex == NextIndex(old(currentIndex), |people|)
    {
      currentIndex := NextIndex(currentIndex, |people|);
    }

    /** `handleVibe(id)`: advances once (the toast goes through the web toast hook). */
    method HandleVibe(id: string)
      requires Valid()
      modifies this
      ensures Valid()
      ensures people == old(people) && currentIndex == NextIndex(old(currentIndex), |people|)
    {
      ShowNextPerson();
    }

    /** `handleSkip(id)`: advances once. */
    method HandleSkip(id: string)
      requires Valid()
      modifies this
      ensures Valid()
      ensures people == old(people) && currentIndex == NextIndex(old(currentIndex), |people|)
    {
      ShowNextPerson();
    }

    /** The header's refresh button: only the cursor goes back to 0. */
    method HeaderRefresh()
      requires Valid()
      modifies this
      ensures Valid()
      ensures people == old(people) && currentIndex == 0
    {
      currentIndex := 0;
    }

    /** The empty state's "Refresh Profiles" button: restores the sample list and the cursor. */
    method EmptyStateRefresh()
      requires Valid()
      modifies this
      ensures Valid()
      ensures people == DummyPeople() && currentIndex == 0
    {
      people := DummyPeople();
      currentIndex := 0;
    }

    /** The person on the card: `people[currentIndex]`, always present here. */
    function CurrentPerson(): (r: Option<Person>)
      reads this
      requires Valid()
      ensures r.Some? && r.value == people[currentIndex]
    {
      PeopleScreen.CurrentPersonAt(people, currentIndex)
    }
  }
}
