/** The `Person` record shown by the people cards and the profile screen, and the
    `people.find(p => p.id === id)` lookup the screens share. Bio, interests and image are
    display-only and not part of the record here; the three connection counts and the
    pronouns are the optional fields that the profile screen reads. */
module Person {
  import opened Wrappers

  datatype Person = Person(
    id: string,
    name: string,
    age: nat,
    distance: Option<string>,
    commonEvents: Option<int>,
    mutualFriendsCount: Option<int>,
    sharedGroupChatsCount: Option<int>,
    pronouns: Option<string>)

  /** `people.find(p => p.id === id)`: a person with that id, or nothing when no person has
      it. */
  function FindById(people: seq<Person>, id: string): (r: Option<Person>)
    ensures r.None? <==> forall p :: p in people ==> p.id != id
    ensures r.Some? ==> r.value.id == id && r.value in people
    decreases |people|
  {
    if people == [] then None
    else if people[0].id == id then Some(people[0])
    else
      assert forall p :: p in people ==> p == people[0] || p in people[1..];
      FindById(people[1..], id)
  }

  /** The person found is the first one with that id. */
  lemma {:induction false} FindByIdIsFirst(people: seq<Person>, id: string)
    requires FindById(people, id).Some?
    ensures exists k :: 0 <= k < |people| && people[k] == FindById(people, id).value
                        && forall j :: 0 <= j < k ==> people[j].id != id
    decreases |people|
  {
    if people[0].id == id {
      assert people[0] == FindById(people, id).value;
    } else {
      FindByIdIsFirst(people[1..], id);
      var k :| 0 <= k < |people[1..]| && people[1..][k] == FindById(people[1..], id).value
               && forall j :: 0 <= j < k ==> people[1..][j].id != id;
      assert people[k + 1] == FindById(people, id).value;
      forall j | 0 <= j < k + 1 ensures people[j].id != id {
        if j > 0 {
          assert people[j] == people[1..][j - 1];
        }
      }
    }
  }

  /** `person?.name || 'them'`: the name of the person found, unless none was found or the
      name is empty. */
  function NameOrThem(p: Option<Person>): (r: string)
    ensures r != ""
    ensures p.Some? && p.value.name != "" ==> r == p.value.name
    ensures !(p.Some? && p.value.name != "") ==> r == "them"
  {
    if p.Some? && p.value.name != "" then p.value.name else "them"
  }
}
