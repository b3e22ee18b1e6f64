/** The native event form: the `eventFormSchema` field checks, the initial values it derives
    from the optional defaults, the submit step that folds the time into the date, and the
    submit button's label. */
module EventFormNative {
  import opened Wrappers
  import opened Strings
  import opened Validators

  /** The values the schema checks (`tags` and `imageUrl` may be absent; `isPrivate` may be
      absent and then defaults to false). */
  datatype EventFormValues = EventFormValues(
    title: string,
    description: string,
    date: string,
    time: string,
    location: string,
    category: string,
    tags: Option<string>,
    imageUrl: Option<string>,
    isPrivate: Option<bool>)

  /** `Partial<EventFormValues>`: the optional defaults a caller may pass. */
  datatype EventDefaults = EventDefaults(
    title: Option<string>,
    description: Option<string>,
    date: Option<string>,
    time: Option<string>,
    location: Option<string>,
    category: Option<string>,
    tags: Option<string>,
    imageUrl: Option<string>,
    isPrivate: Option<bool>)

  /** The fields that can carry a validation error (`tags` and `isPrivate` never do). */
  datatype EventField = Title | Description | Date | Time | Location | Category | ImageUrl

  /** The set of fields whose check fails. `dateParses` stands for `!isNaN(Date.parse(d))`
      and `isUrl` for zod's URL check. */
  function Errors(v: EventFormValues, dateParses: string -> bool, isUrl: string -> bool): (r: set<EventField>)
    ensures Title in r <==> !LengthBetween(v.title, 3, 100)
    ensures Description in r <==> !LengthBetween(v.description, 10, 1000)
    ensures Date in r <==> !dateParses(v.date)
    ensures Time in r <==> !IsTimeOfDay(v.time)
    ensures Location in r <==> !LengthBetween(v.location, 5, 200)
    ensures Category in r <==> !LengthBetween(v.category, 2, 50)
    ensures ImageUrl in r <==> !OptionalUrlOrEmpty(v.imageUrl, isUrl)
  {
    (if LengthBetween(v.title, 3, 100) then {} else {Title})
    + (if LengthBetween(v.description, 10, 1000) then {} else {Description})
    + (if dateParses(v.date) then {} else {Date})
    + (if IsTimeOfDay(v.time) then {} else {Time})
    + (if LengthBetween(v.location, 5, 200) then {} else {Location})
    + (if LengthBetween(v.category, 2, 50) then {} else {Category})
    + (if OptionalUrlOrEmpty(v.imageUrl, isUrl) then {} else {ImageUrl})
  }

  /** The time field is accepted exactly for zero-padded times of day. */
  lemma TimeAcceptedIffClockTime(v: EventFormValues, dateParses: string -> bool, isUrl: string -> bool)
    ensures Time !in Errors(v, dateParses, isUrl) <==>
            exists h: nat, m: nat :: h < 24 && m < 60 && v.time == FormatTime(h, m)
  {
    TimeOfDayExactly(v.time);
  }

  /** An empty or missing image URL is accepted whatever the URL check says; tags and the
      privacy flag never affect validation. */
  lemma UnconstrainedFields(v: EventFormValues, dateParses: string -> bool, isUrl: string -> bool,
                            tags: Option<string>, isPrivate: Option<bool>)
    ensures v.imageUrl == None || v.imageUrl == Some("") ==> ImageUrl !in Errors(v, dateParses, isUrl)
    ensures Errors(v.(tags := tags, isPrivate := isPrivate), dateParses, isUrl) == Errors(v, dateParses, isUrl)
  {
  }

  // ---------------------------------------------------------------- submit

  /** `${date}T${time}:00Z`: the date, a `T`, the time and the seconds-and-UTC suffix. */
  function CombineDateTime(date: string, time: string): (r: string)
    ensures |r| == |date| + |time| + 5
    ensures StartsWith(r, date) && r[|date|] == 'T' && EndsWith(r, ":00Z")
    ensures r[|date| + 1..|date| + 1 + |time|] == time
  {
    date + "T" + time + ":00Z"
  }

  /** Takes a combined value apart again: the date before the `T`, the five time characters
      before the `:00Z` suffix. */
  function SplitDateTime(s: string): (r: Option<(string, string)>)
    ensures r.Some? ==> CombineDateTime(r.value.0, r.value.1) == s && |r.value.1| == 5
  {
    if |s| >= 10 && s[|s| - 10] == 'T' && s[|s| - 4..] == ":00Z" then
      var r := (s[..|s| - 10], s[|s| - 9..|s| - 4]);
      assert CombineDateTime(r.0, r.1) == s[..|s| - 10] + [s[|s| - 10]] + s[|s| - 9..|s| - 4] + s[|s| - 4..];
      Some(r)
    else None
  }

  /** For an accepted time the combination loses nothing: splitting gives date and time
      back. */
  lemma {:induction false} SplitCombine(date: string, time: string)
    requires IsTimeOfDay(time)
    ensures SplitDateTime(CombineDateTime(date, time)) == Some((date, time))
  {
    var s := CombineDateTime(date, time);
    assert s[|s| - 10] == 'T';
    assert s[|s| - 4..] == ":00Z";
    assert s[..|s| - 10] == date;
    assert s[|s| - 9..|s| - 4] == time;
  }

  /** Hence different accepted inputs never submit the same combined date. */
  lemma CombineInjective(d1: string, t1: string, d2: string, t2: string)
    requires IsTimeOfDay(t1) && IsTimeOfDay(t2)
    requires CombineDateTime(d1, t1) == CombineDateTime(d2, t2)
    ensures d1 == d2 && t1 == t2
  {
    SplitCombine(d1, t1);
    SplitCombine(d2, t2);
  }

  /** `handleFormSubmit`: `{ ...data, date: combinedDateTime }` — the date becomes the combined
      value and every other field is passed on unchanged. */
  function SubmitData(v: EventFormValues): (r: EventFormValues)
    ensures r.date == CombineDateTime(v.date, v.time)
    ensures r.(date := v.date) == v
  {
    v.(date := CombineDateTime(v.date, v.time))
  }

  // ---------------------------------------------------------------- initial values and label

  /** `defaults?.field || fallback`. */
  function OrElse(o: Option<string>, fallback: string): (r: string)
    ensures Truthy(o) ==> r == o.value
    ensures !Truthy(o) ==> r == fallback
  {
    if Truthy(o) then o.value else fallback
  }

  /** `defaultValues?.`: reading a field of absent defaults gives `undefined`, as if every
      field were absent. */
  function Given(d: Option<EventDefaults>): (r: EventDefaults)
    ensures d.None? ==> r == EventDefaults(None, None, None, None, None, None, None, None, None)
    ensures d.Some? ==> r == d.value
  {
    if d.Some? then d.value else EventDefaults(None, None, None, None, None, None, None, None, None)
  }

  /** The form's initial values. `formatDay` stands for `format(new Date(d), 'yyyy-MM-dd')`,
      `today` and `nowTime` for today's date and the current `HH:mm`. The privacy flag starts
      false whatever the defaults say. */
  function InitialValues(d: Option<EventDefaults>, formatDay: string -> string, today: string, nowTime: string)
    : (r: EventFormValues)
    ensures r.isPrivate == Some(false)
    ensures r.date == if Truthy(Given(d).date) then formatDay(Given(d).date.value) else today
    ensures r.time == OrElse(Given(d).time, nowTime)
    ensures r.title == OrElse(Given(d).title, "")
    ensures r.description == OrElse(Given(d).description, "")
    ensures r.location == OrElse(Given(d).location, "")
    ensures r.category == OrElse(Given(d).category, "")
    ensures r.tags == Some(OrElse(Given(d).tags, "")) && r.imageUrl == Some(OrElse(Given(d).imageUrl, ""))
    ensures d.None? ==> r.title == "" && r.description == "" && r.location == "" && r.category == ""
  {
    EventFormValues(
      OrElse(Given(d).title, ""),
      OrElse(Given(d).description, ""),
      if Truthy(Given(d).date) then formatDay(Given(d).date.value) else today,
      OrElse(Given(d).time, nowTime),
      OrElse(Given(d).location, ""),
      OrElse(Given(d).category, ""),
      Some(OrElse(Given(d).tags, "")),
      Some(OrElse(Given(d).imageUrl, "")),
      Some(false))
  }

  /** The submit button's title: "Submitting..." while loading, otherwise "Update Event"
      exactly when the defaults carry a non-empty title. */
  function SubmitLabel(isLoading: bool, d: Option<EventDefaults>): (r: string)
    ensures isLoading ==> r == "Submitting..."
    ensures !isLoading ==> (r == "Update Event" <==> Truthy(Given(d).title))
    ensures !isLoading ==> (r == "Create Event" <==> !Truthy(Given(d).title))
  {
    if isLoading then "Submitting..."
    else if Truthy(Given(d).title) then "Update Event"
    else "Create Event"
  }

  /** Without defaults the initial values never validate: the title, description, location
      and category all start empty. */
  lemma BlankFormInvalid(formatDay: string -> string, today: string, nowTime: string,
                         dateParses: string -> bool, isUrl: string -> bool)
    ensures {Title, Description, Location, Category} <= Errors(InitialValues(None, formatDay, today, nowTime), dateParses, isUrl)
  {
  }
}
