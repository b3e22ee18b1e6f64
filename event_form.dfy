/** The web event form. Its schema states the same field checks as the native form's; its
    initial values spread the defaults over `isPrivate: false`, and its submit label only asks
    whether defaults were passed at all. */
module EventForm {
  import opened Wrappers
  import opened Strings
  import opened Validators
  import opened EventFormNative

  /** The check zod runs for one field. */
  predicate Check(v: EventFormValues, f: EventField, dateParses: string -> bool, isUrl: string -> bool) {
    match f
    case Title => LengthBetween(v.title, 3, 100)
    case Description => LengthBetween(v.description, 10, 1000)
    case Date => dateParses(v.date)
    case Time => IsTimeOfDay(v.time)
    case Location => LengthBetween(v.location, 5, 200)
    case Category => LengthBetween(v.category, 2, 50)
    case ImageUrl => OptionalUrlOrEmpty(v.imageUrl, isUrl)
  }

  function AllFields(): set<EventField> {
    {Title, Description, Date, Time, Location, Category, ImageUrl}
  }

  /** The fields whose check fails. */
  function Errors(v: EventFormValues, dateParses: string -> bool, isUrl: string -> bool): (r: set<EventField>)
    ensures forall f :: f in r <==> !Check(v, f, dateParses, isUrl)
  {
    set f | f in AllFields() && !Check(v, f, dateParses, isUrl)
  }

  /** The web schema reports exactly the errors the native schema reports: the two forms
      accept the same inputs. */
  lemma SameSchemaAsNative(v: EventFormValues, dateParses: string -> bool, isUrl: string -> bool)
    ensures Errors(v, dateParses, isUrl) == EventFormNative.Errors(v, dateParses, isUrl)
  {
    var w := Errors(v, dateParses, isUrl);
    var n := EventFormNative.Errors(v, dateParses, isUrl);
    forall f ensures f in w <==> f in n {
      match f
      case Title =>
      case Description =>
      case Date =>
      case Time =>
      case Location =>
      case Category =>
      case ImageUrl =>
    }
  }

  /** `handleSubmit` builds the same combined date as the native form; for an accepted time the
      submitted record still determines the date and time that were entered, and nothing
      else changes. */
  lemma SubmitLosesNothing(v: EventFormValues)
    requires IsTimeOfDay(v.time)
    ensures SplitDateTime(SubmitData(v).date) == Some((v.date, v.time))
    ensures SubmitData(v).(date := v.date) == v
  {
    SplitCombine(v.date, v.time);
  }

  /** `{ isPrivate: false, ...defaultValues, date: ... }`: every field the defaults carry is
      taken over, the privacy flag included; the date becomes `isoDay(date)` (for
      `new Date(d).toISOString().split('T')[0]`) when a non-empty date is given and `''`
      otherwise. */
  function InitialDefaults(d: Option<EventDefaults>, isoDay: string -> string): (r: EventDefaults)
    ensures r.isPrivate == if Given(d).isPrivate.Some? then Given(d).isPrivate else Some(false)
    ensures r.date == if Truthy(Given(d).date) then Some(isoDay(Given(d).date.value)) else Some("")
    ensures r.(isPrivate := Given(d).isPrivate, date := Given(d).date) == Given(d)
  {
    var g := Given(d);
    g.(isPrivate := if g.isPrivate.Some? then g.isPrivate else Some(false),
       date := if Truthy(g.date) then Some(isoDay(g.date.value)) else Some(""))
  }

  /** Defaults that set `isPrivate: true` start the web form private, while the native form
      always starts public. */
  lemma PrivacyStartDiffers(d: Option<EventDefaults>, isoDay: string -> string, formatDay: string -> string,
                            today: string, nowTime: string)
    ensures DefaultFalse(InitialDefaults(d, isoDay).isPrivate) != DefaultFalse(InitialValues(d, formatDay, today, nowTime).isPrivate)
            <==> d.Some? && d.value.isPrivate == Some(true)
  {
  }

  /** The button text: "Submitting..." while loading, otherwise "Update Event" whenever a
      defaults object is passed, whatever its title. */
  function SubmitLabel(isLoading: bool, d: Option<EventDefaults>): (r: string)
    ensures isLoading ==> r == "Submitting..."
    ensures !isLoading ==> (r == "Update Event" <==> d.Some?)
    ensures !isLoading ==> (r == "Create Event" <==> d.None?)
  {
    if isLoading then "Submitting..." else if d.Some? then "Update Event" else "Create Event"
  }

  /** The two labels disagree exactly when the form is idle and the defaults have no
      non-empty title: the web form then says "Update Event", the native form "Create
      Event". */
  lemma LabelsDifferIff(isLoading: bool, d: Option<EventDefaults>)
    ensures SubmitLabel(isLoading, d) != EventFormNative.SubmitLabel(isLoading, d)
            <==> !isLoading && d.Some? && !Truthy(d.value.title)
  {
  }
}
