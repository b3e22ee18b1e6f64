/** The native events list: the sample events filtered by a search query (a case-insensitive
    substring of the title or of the location) and an optional category (a case-insensitive
    exact match). */
module EventsScreen {
  import opened Strings
  import opened Sequences

  /** The fields of an event that the filter reads (the image URL is display-only). */
  datatype Event = Event(id: string, title: string, date: string, location: string, category: string)

  /** The screen's own sample events. */
  function DummyEvents(): seq<Event> {
    [ Event("1", "Summer Music Fest", "2024-07-20", "Central Park", "Music"),
      Event("2", "Tech Innovators Summit", "2024-08-05", "Convention Center", "Tech"),
      Event("3", "Art & Design Expo", "2024-08-15", "City Art Gallery", "Art") ]
  }

  /** `matchesQuery`: the lowercased query occurs in the lowercased title or location. */
  predicate MatchesQuery(e: Event, query: string) {
    Includes(Lower(e.title), Lower(query)) || Includes(Lower(e.location), Lower(query))
  }

  /** `matchesCategory`: an empty filter is falsy and lets everything through; otherwise the
      lowercased category must equal the lowercased filter. */
  predicate MatchesCategory(e: Event, category: string) {
    category == "" || Lower(e.category) == Lower(category)
  }

  /** The filter callback: both checks hold. */
  predicate Kept(e: Event, query: string, category: string) {
    MatchesQuery(e, query) && MatchesCategory(e, category)
  }

  /** `events.filter(...)`: exactly the kept events, in their original order (and every copy
      of them, `FilterKeepsCopies`). */
  function FilterEvents(events: seq<Event>, query: string, category: string): (r: seq<Event>)
    ensures forall e :: e in r <==> e in events && Kept(e, query, category)
    ensures IsSubsequence(r, events)
    ensures |r| <= |events|
    decreases |events|
  {
    if events == [] then []
    else
      var rest := FilterEvents(events[1..], query, category);
      SubsequenceConsRight(events[0], rest, events[1..]);
      assert [events[0]] + events[1..] == events;
      if Kept(events[0], query, category) then [events[0]] + rest else rest
  }

  /** The filter keeps every copy of a kept event and no copy of a dropped one. */
  lemma {:induction false} FilterKeepsCopies(events: seq<Event>, query: string, category: string)
    ensures forall e :: multiset(FilterEvents(events, query, category))[e]
                        == if Kept(e, query, category) then multiset(events)[e] else 0
    decreases |events|
  {
    if events != [] {
      FilterKeepsCopies(events[1..], query, category);
      assert [events[0]] + events[1..] == events;
      assert multiset(events) == multiset([events[0]]) + multiset(events[1..]);
    }
  }

  /** `filteredEvents` on the screen's sample data. */
  function FilteredEvents(query: string, category: string): (r: seq<Event>)
    ensures forall e :: e in r <==> e in DummyEvents() && Kept(e, query, category)
    ensures IsSubsequence(r, DummyEvents())
  {
    FilterEvents(DummyEvents(), query, category)
  }

  /** With no query and no category every event is kept, in order. */
  lemma {:induction false} EmptyFiltersKeepAll(events: seq<Event>)
    ensures FilterEvents(events, "", "") == events
    decreases |events|
  {
    if events != [] {
      assert Lower("") == "";
      IncludesEmpty(Lower(events[0].title));
      EmptyFiltersKeepAll(events[1..]);
      assert [events[0]] + events[1..] == events;
    }
  }

  /** The category check is an equality, not a substring test: "Mus" finds nothing, while
      "music" finds the music festival. */
  lemma CategoryIsExactMatch()
    ensures FilteredEvents("", "Mus") == []
    ensures FilteredEvents("", "music") == [DummyEvents()[0]]
  {
    assert Lower("") == "";
    var es := DummyEvents();
    IncludesEmpty(Lower(es[0].title));
    IncludesEmpty(Lower(es[1].title));
    IncludesEmpty(Lower(es[2].title));
    assert Lower("Music") == "music";
    assert Lower("music") == "music";
    assert Lower("Tech") == "tech";
    assert Lower("Art") == "art";
    assert Lower("Mus") == "mus";
    assert es[1..][1..][1..] == [];
  }

  /** A longer query keeps only events a shorter one keeps. */
  lemma KeptByLongerQuery(e: Event, query: string, more: string, category: string)
    requires Kept(e, query + more, category)
    ensures Kept(e, query, category)
  {
    LowerConcat(query, more);
    if Includes(Lower(e.title), Lower(query + more)) {
      IncludesPrefixOfNeedle(Lower(e.title), Lower(query), Lower(more));
    } else {
      IncludesPrefixOfNeedle(Lower(e.location), Lower(query), Lower(more));
    }
  }

  /** Typing more characters into the search box can only shrink the list: the new result is
      an order-preserving subsequence of the old one. */
  lemma {:induction false} LongerQueryShrinks(events: seq<Event>, query: string, more: string, category: string)
    ensures IsSubsequence(FilterEvents(events, query + more, category), FilterEvents(events, query, category))
    decreases |events|
  {
    if events != [] {
      LongerQueryShrinks(events[1..], query, more, category);
      var longer := FilterEvents(events[1..], query + more, category);
      var shorter := FilterEvents(events[1..], query, category);
      var h := events[0];
      if Kept(h, query + more, category) {
        KeptByLongerQuery(h, query, more, category);
        assert ([h] + longer)[1..] == longer && ([h] + shorter)[1..] == shorter;
      } else if Kept(h, query, category) {
        SubsequenceConsRight(h, longer, shorter);
      }
    }
  }

  /** What the screen shows below the filters. */
  datatype EventsView = EventList(events: seq<Event>) | NoEventsFound

  /** The list when something is kept, otherwise "No events found. Try adjusting your
      filters!". */
  function View(query: string, category: string): (r: EventsView)
    ensures r == NoEventsFound <==> forall e :: e in DummyEvents() ==> !Kept(e, query, category)
    ensures r.EventList? ==> r.events == FilteredEvents(query, category) && r.events != []
  {
    var filtered := FilteredEvents(query, category);
    if |filtered| > 0 then EventList(filtered)
    else NoEventsFound
  }
}
