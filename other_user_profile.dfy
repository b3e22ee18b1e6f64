/** Another user's profile screen: the lookup of the person by id, the age and pronoun line,
    the distance line, and the connection summary (one row per non-zero count, pluralised, or
    a fallback when there are no connections). */
module OtherUserProfile {
  import opened Wrappers
  import opened Strings
  import opened Person
  import opened ToastContext
  import PeopleScreen

  // ---------------------------------------------------------------- lookup

  /** What the lookup effect does: keep the person found, or show an error toast and go
      back. */
  datatype ProfileOutcome = ShowProfile(person: Person) | NotFoundGoBack(toast: ToastDetails)

  /** `dummyPeople.find(p => p.id === personId)`, over the sample people of the people screen
      the file imports them from. */
  function Lookup(personId: string): (r: ProfileOutcome)
    ensures r.ShowProfile? <==> exists p :: p in PeopleScreen.DummyPeople() && p.id == personId
    ensures r.ShowProfile? ==> r.person.id == personId && r.person in PeopleScreen.DummyPeople()
    ensures r.NotFoundGoBack? ==> r.toast == ToastDetails("User profile not found.", Error, None, None)
  {
    match FindById(PeopleScreen.DummyPeople(), personId)
    case Some(p) => ShowProfile(p)
    case None => NotFoundGoBack(ToastDetails("User profile not found.", Error, None, None))
  }

  /** The ids of the sample people open their profiles; any other id goes back. */
  lemma LookupSamples()
    ensures Lookup("p2") == ShowProfile(PeopleScreen.DummyPeople()[1])
    ensures Lookup("p9").NotFoundGoBack?
  {
  }

  /** `handleVibe`: nothing until the person is loaded, then a success toast naming them. */
  function VibeToast(person: Option<Person>): (r: Option<ToastDetails>)
    ensures r.Some? <==> person.Some?
    ensures r.Some? ==> r.value.kind == Success && r.value.title == Some("Vibe Sent!")
    ensures r.Some? ==> r.value.message == "You sent a vibe to " + person.value.name + "."
    ensures r.Some? ==> r.value.duration.None?
  {
    match person
    case None => None
    case Some(p) => Some(ToastDetails("You sent a vibe to " + p.name + ".", Success, None, Some("Vibe Sent!")))
  }

  /** `handleMessage`: nothing until the person is loaded, then a "coming soon" info toast. */
  function MessageToast(person: Option<Person>): (r: Option<ToastDetails>)
    ensures r.Some? <==> person.Some?
    ensures r.Some? ==> r.value.kind == Info && r.value.title == Some("Message (Coming Soon!)")
    ensures r.Some? ==> r.value.message == "You will soon be able to message " + person.value.name + "."
    ensures r.Some? ==> r.value.duration.None?
  {
    match person
    case None => None
    case Some(p) => Some(ToastDetails("You will soon be able to message " + p.name + ".", Info, None,
                                      Some("Message (Coming Soon!)")))
  }

  // ---------------------------------------------------------------- header lines

  /** The separator the file writes before the pronouns: the two characters U+00C2 U+00B7
      (a middle dot whose UTF-8 bytes were read as Latin-1), then a space. */
  function PronounSeparator(): string {
    "\U{00C2}\U{00B7} "
  }

  /** The age line: the age, a space, and the pronoun suffix only when pronouns are given. */
  function AgeLine(p: Person): (r: string)
    ensures Truthy(p.pronouns) ==> r == NatToString(p.age) + " " + PronounSeparator() + p.pronouns.value
    ensures !Truthy(p.pronouns) ==> r == NatToString(p.age) + " "
  {
    NatToString(p.age) + " " + (if Truthy(p.pronouns) then PronounSeparator() + p.pronouns.value else "")
  }

  /** The people cards render the distance text as given. */
  function CardDistance(p: Person): (r: Option<string>)
    ensures r.Some? <==> Truthy(p.distance)
    ensures r.Some? ==> r.value == p.distance.value
  {
    if Truthy(p.distance) then Some(p.distance.value) else None
  }

  /** The distance line as the profile writes it: the distance followed by " away". */
  function DistanceLineAsWritten(p: Person): (r: Option<string>)
    ensures r.Some? <==> Truthy(p.distance)
    ensures r.Some? ==> r.value == p.distance.value + " away"
  {
    if Truthy(p.distance) then Some(p.distance.value + " away") else None
  }

  /** The sample distances already end in "away", so the profile line repeats the word:
      Jessie's reads "1 mile away away". */
  lemma DistanceRepeatsAway()
    ensures DistanceLineAsWritten(PeopleScreen.DummyPeople()[0]) == Some("1 mile away away")
    ensures forall p :: p in PeopleScreen.DummyPeople() ==> DistanceLineAsWritten(p) != CardDistance(p)
  {
    assert "1 mile away" + " away" == "1 mile away away";
  }

  /** The distance line as intended: the distance as given, the same text as on the card. */
  function DistanceLine(p: Person): (r: Option<string>)
    ensures r == CardDistance(p)
    ensures r.Some? ==> r.value == p.distance.value
  {
    if Truthy(p.distance) then Some(p.distance.value) else None
  }

  /** With the intended line Jessie's profile reads "1 mile away", and no sample profile ends
      in "away away". */
  lemma DistanceLineSamples()
    ensures DistanceLine(PeopleScreen.DummyPeople()[0]) == Some("1 mile away")
    ensures forall p :: p in PeopleScreen.DummyPeople() ==>
              DistanceLine(p).Some? && !EndsWith(DistanceLine(p).value, "away away")
  {
    assert !EndsWith("1 mile away", "away away");
    assert !EndsWith("3 miles away", "away away");
    assert !EndsWith("0.5 miles away", "away away");
  }

  // ---------------------------------------------------------------- connections

  /** `count ?? 0`. */
  function CountOrZero(c: Option<int>): int {
    if c.Some? then c.value else 0
  }

  /** A count used as a condition: present and non-zero (negative counts are truthy). */
  predicate TruthyCount(c: Option<int>) {
    c.Some? && c.value != 0
  }

  /** The noun, with an "s" unless the count is exactly one. */
  function Plural(count: int, noun: string): (r: string)
    ensures count == 1 ==> r == noun
    ensures count != 1 ==> r == noun + "s"
  {
    noun + (if count == 1 then "" else "s")
  }

  /** One connection row: shown when the count (missing counts as 0) is positive. */
  function Row(c: Option<int>, noun: string, tail: string): (r: Option<string>)
    ensures r.Some? <==> CountOrZero(c) > 0
    ensures r.Some? ==> r.value == NatToString(c.value) + " " + Plural(c.value, noun) + tail
  {
    if CountOrZero(c) > 0 then Some(NatToString(c.value) + " " + Plural(c.value, noun) + tail) else None
  }

  /** The three rows the summary can show. */
  function EventsRow(p: Person): Option<string> { Row(p.commonEvents, "event", " in common") }

  function FriendsRow(p: Person): Option<string> { Row(p.mutualFriendsCount, "mutual friend", "") }

  function ChatsRow(p: Person): Option<string> { Row(p.sharedGroupChatsCount, "shared group chat", "") }

  /** The rows shown: one for each positive count, in the order events in common, mutual
      friends, shared group chats, and nothing else. */
  function ConnectionRows(p: Person): (r: seq<string>)
    ensures |r| == (if CountOrZero(p.commonEvents) > 0 then 1 else 0)
                   + (if CountOrZero(p.mutualFriendsCount) > 0 then 1 else 0)
                   + (if CountOrZero(p.sharedGroupChatsCount) > 0 then 1 else 0)
    ensures EventsRow(p).Some? ==> r[0] == EventsRow(p).value
    ensures FriendsRow(p).Some? ==> r[if EventsRow(p).Some? then 1 else 0] == FriendsRow(p).value
    ensures ChatsRow(p).Some? ==> r[|r| - 1] == ChatsRow(p).value
  {
    (if EventsRow(p).Some? then [EventsRow(p).value] else [])
    + (if FriendsRow(p).Some? then [FriendsRow(p).value] else [])
    + (if ChatsRow(p).Some? then [ChatsRow(p).value] else [])
  }

  /** "No mutual connections yet.": shown when none of the three counts is truthy. */
  predicate FallbackShown(p: Person) {
    !(TruthyCount(p.commonEvents) || TruthyCount(p.mutualFriendsCount) || TruthyCount(p.sharedGroupChatsCount))
  }

  /** No count is negative. */
  predicate CountsNonNegative(p: Person) {
    CountOrZero(p.commonEvents) >= 0 && CountOrZero(p.mutualFriendsCount) >= 0
    && CountOrZero(p.sharedGroupChatsCount) >= 0
  }

  /** With non-negative counts the summary shows either some rows or the fallback, never both
      and never neither; the fallback is shown exactly when all counts are 0 or missing. */
  lemma RowsOrFallback(p: Person)
    requires CountsNonNegative(p)
    ensures (|ConnectionRows(p)| > 0) != FallbackShown(p)
    ensures FallbackShown(p) <==> CountOrZero(p.commonEvents) == 0 && CountOrZero(p.mutualFriendsCount) == 0
                                  && CountOrZero(p.sharedGroupChatsCount) == 0
  {
  }

  /** A negative count shows no row and still suppresses the fallback, so the summary is
      empty. */
  lemma NegativeCountShowsNothing(p: Person)
    requires p.commonEvents == Some(-1) && p.mutualFriendsCount.None? && p.sharedGroupChatsCount.None?
    ensures ConnectionRows(p) == [] && !FallbackShown(p)
  {
  }

  /** On the sample people: Jessie has "2 events in common", Sarah "1 event in common", Mike
      only the fallback. */
  lemma ConnectionSamples()
    ensures ConnectionRows(PeopleScreen.DummyPeople()[0]) == ["2 events in common"]
    ensures ConnectionRows(PeopleScreen.DummyPeople()[2]) == ["1 event in common"]
    ensures ConnectionRows(PeopleScreen.DummyPeople()[1]) == [] && FallbackShown(PeopleScreen.DummyPeople()[1])
  {
    assert NatToString(2) == "2" && NatToString(1) == "1";
    assert Plural(2, "event") == "event" + "s" == "events";
    assert Row(Some(2), "event", " in common") == Some("2" + " " + "events" + " in common");
    assert "2" + " " + "events" + " in common" == "2 events in common";
    assert Row(Some(1), "event", " in common") == Some("1" + " " + "event" + " in common");
    assert "1" + " " + "event" + " in common" == "1 event in common";
  }
}
