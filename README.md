# VibeWave core logic in Dafny

VibeWave is a social events app, built twice: once as React Native screens and once as
Next.js web pages, over static sample data. This project models the parts of it that make
decisions, and proves what they guarantee. Those parts are:

- **People cursor.** The "Discover People" screen and page each hold a list of people and a
  cursor into it. Vibe and skip advance the cursor: the native screen wraps to 0 past the
  end, while the web page uses `(i + 1) % n`. Refresh either shuffles the list or restores
  it. Both are classes (`PeopleScreen.Screen`, `PeoplePage.Page`) whose methods update the
  fields.
- **Toast queue.** `ToastProvider` appends toasts under ids `toast-0`, `toast-1`, ... drawn
  from a counter that only grows, and removes them by id. `CustomToast` shows the last toast,
  with the colour and icon of its type.
- **Event search.** A case-insensitive substring match on title or location, combined with
  an optional case-insensitive exact category match.
- **Notifications.** Mark one read, mark all read, and clear. A press is routed by the
  notification's type and related id.
- **Chat.** Sending is refused for blank input. Otherwise the message is appended under id
  `m{n+1}` and the input is cleared. Selecting a chat resets the messages on the native
  screen but not on the web page. The web page also has avatar initials.
- **Bottom navigation.** The active-tab rule.
- **Form schemas.** The zod schemas of the event, sign-up and log-in forms, native and web.
  This includes the event submit step `date + "T" + time + ":00Z"` and the button labels.
- **Profile.** The other-user profile: lookup by id, the age and distance lines, and the
  connection summary.

Shared pieces:

- `Strings` models the JavaScript string operations used: ASCII `toLowerCase`/`toUpperCase`,
  `startsWith`, `includes`, `trim` and `${n}`.
- `Sequences` defines order-preserving subsequences, which is the shape of every
  `Array.prototype.filter`.
- `Validators` holds the zod primitives.
- `Person` holds the person record and `find` by id.
- `Chat` holds the message record and its numbering.

How things outside the model appear in it:

- Clocks (`new Date()`, `Date.now()`) become integer parameters.
- The shuffle `sort(() => Math.random() - 0.5)` becomes a parameter that must be a
  permutation of the sample people.
- zod's `.email()` and `.url()`, and `Date.parse`, become predicate parameters.
- Navigation is modelled as the abstract result `NotificationsScreen.Destination`.

## Model

| member | source | states |
|---|---|---|
| `ToastContext.ToastIdInjective` | src/contexts/ToastContext.tsx:20-26 | Different counter values produce different `toast-n` ids. |
| `ToastContext.DismissAfter` | src/contexts/ToastContext.tsx:30 | The dismiss delay is never 0. A non-zero duration is kept; a missing or zero duration becomes 3000. |
| `ToastContext.ToastId` | src/contexts/ToastContext.tsx:26 | The id is `toast-` followed by decimal digits that read back as the counter value. |
| `ToastContext.AppendFreshKeepsDistinct` | src/contexts/ToastContext.tsx:26-27 | Appending a toast whose id is fresh keeps all ids pairwise distinct. |
| `ToastContext.RemoveId` | src/contexts/ToastContext.tsx:38-39 | A toast survives iff its id differs from the one hidden. The survivors stay in their original order. |
| `ToastContext.RemoveIdKeepsCopies` | src/contexts/ToastContext.tsx:38 | Every copy of a surviving toast is kept, and no copy of a hidden one, as `filter` does. |
| `ToastContext.RemoveAbsentId` | src/contexts/ToastContext.tsx:38-39 | Hiding an id that no toast carries changes nothing. |
| `ToastContext.HideTwice` | src/contexts/ToastContext.tsx:37-39 | Hiding twice is the same as hiding once. |
| `ToastContext.ShowThenHide` | src/contexts/ToastContext.tsx:25-39 | Showing a toast under a fresh id and then hiding that id restores the previous list. |
| `ToastContext.RemoveIdKeepsDistinct` | src/contexts/ToastContext.tsx:38 | Filtering by id keeps the ids distinct. |
| `ToastContext.ToastProvider.constructor` | src/contexts/ToastContext.tsx:20-23 | The provider starts with an empty list. The module-level counter keeps its current value. |
| `ToastContext.ToastProvider.ShowToast` | src/contexts/ToastContext.tsx:25-35 | The id is `toast-` plus the old counter, and the counter grows by one. Exactly one toast is appended at the end; its id is held by no earlier toast. The returned delay is `DismissAfter(duration)`. Ids stay distinct and are always counter-issued. |
| `ToastContext.ToastProvider.HideToast` | src/contexts/ToastContext.tsx:37-39 | The new list is `RemoveId` of the old one. The counter and the invariant are kept. |
| `CustomToast.Displayed` | src/components/shared/CustomToast.tsx:12-17 | Nothing is displayed iff the list is empty; otherwise the last toast is. |
| `CustomToast.StylesDistinguishTypes` | src/components/shared/CustomToast.tsx:19-47 | The colour map and the icon map are both injective on the four types. The fallback colour `card` is never chosen. |
| `CustomToast.BackgroundColor` | src/components/shared/CustomToast.tsx:19-32 | success → chart5, error → destructive, info → secondary, warning → chart4. |
| `CustomToast.IconName` | src/components/shared/CustomToast.tsx:34-47 | success → check-circle, error → x-circle, info → info, warning → alert-triangle. |
| `CustomToast.TitleLine` | src/components/shared/CustomToast.tsx:54 | The title line appears iff the title is present and non-empty. |
| `CustomToast.CloseTarget` | src/components/shared/CustomToast.tsx:57 | The close button targets the id of the last toast, and exists iff the list is non-empty. |
| `CustomToast.CloseRemovesDisplayed` | src/components/shared/CustomToast.tsx:57 | With distinct ids, closing removes exactly the displayed toast and keeps the rest in order. |
| `CustomToast.ShownToastIsDisplayed` | src/components/shared/CustomToast.tsx:17 | Right after a show, the new toast is the one displayed. |
| `Person.FindById` | src/screens/people/PeopleScreen.tsx:32 | Returns nothing iff no person has the id. Otherwise it returns a listed person with that id. |
| `Person.FindByIdIsFirst` | src/screens/people/PeopleScreen.tsx:38 | The person found is the first one with that id. |
| `Person.NameOrThem` | src/screens/people/PeopleScreen.tsx:33 | Gives the found person's name, or "them" when nobody was found or the name is empty. |
| `PeopleScreen.NextIndex` | src/screens/people/PeopleScreen.tsx:43-52 | The next cursor is always in range, or 0 for an empty list; there is no "exhausted" value. For an in-range cursor it equals `(i + 1) % n`. |
| `PeopleScreen.AdvanceTimesForward` | src/screens/people/PeopleScreen.tsx:44-51 | Before the end, k advances move the cursor exactly k places. |
| `PeopleScreen.AdvanceTimesAdd` | src/screens/people/PeopleScreen.tsx:45 | a advances followed by b advances equal a + b advances. |
| `PeopleScreen.AdvanceTimesWraps` | src/screens/people/PeopleScreen.tsx:46-49 | The advance past the last person lands on 0. |
| `PeopleScreen.FullCycleReturns` | src/screens/people/PeopleScreen.tsx:43-52 | n advances from any valid cursor return to it. |
| `PeopleScreen.CurrentPersonAt` | src/screens/people/PeopleScreen.tsx:61 | `people[i]` is defined iff i is in range. |
| `PeopleScreen.EmptyStateIffNoPeople` | src/screens/people/PeopleScreen.tsx:122-148 | With a valid cursor, the "No more people" branch is taken iff the list is empty. |
| `PeopleScreen.StatsLine` | src/screens/people/PeopleScreen.tsx:132-136 | The "Showing profile i of n" line appears iff the cursor is in range. It reads `currentIndex + 1` of `people.length`, a position in [1, n]. |
| `PeopleScreen.VibeToast` | src/screens/people/PeopleScreen.tsx:33 | The success toast "Vibed! ✨" with the message "You sent a vibe to {name or them}!". |
| `PeopleScreen.SkipToast` | src/screens/people/PeopleScreen.tsx:39 | The info toast "Skipped" with the message "You skipped {name or them}.". |
| `PeopleScreen.RefreshToast` | src/screens/people/PeopleScreen.tsx:57 | The untitled info toast "Profiles refreshed!". |
| `PeopleScreen.Screen.constructor` | src/screens/people/PeopleScreen.tsx:28-29 | The screen starts on the sample list at cursor 0. |
| `PeopleScreen.Screen.CurrentPerson` | src/screens/people/PeopleScreen.tsx:61 | Under the invariant the card always shows `people[currentIndex]`, which is one of the sample people. |
| `PeopleScreen.Screen.ShowNextPerson` | src/screens/people/PeopleScreen.tsx:43-52 | The cursor becomes `NextIndex`; the list is unchanged. The invariant "the list is a permutation of the sample and the cursor is in range" is kept. |
| `PeopleScreen.Screen.HandleVibe` | src/screens/people/PeopleScreen.tsx:31-35 | Shows the vibe toast (name or "them") and advances exactly once. The list is untouched. |
| `PeopleScreen.Screen.HandleSkip` | src/screens/people/PeopleScreen.tsx:37-41 | Shows the skip toast and advances exactly once. The list is untouched. |
| `PeopleScreen.Screen.RefreshPeople` | src/screens/people/PeopleScreen.tsx:54-59 | The list becomes the given permutation of the sample people, with the same length. The cursor becomes 0 and the refresh toast is shown. |
| `PeoplePage.NextIndex` | src/app/people/page.tsx:37 | `(i + 1) % n` lies in [0, n). It needs n > 0; an empty list would give NaN. |
| `PeoplePage.AgreesWithNativeRule` | src/app/people/page.tsx:36-42 | For an in-range cursor, the modulo rule equals the native wrap rule. |
| `PeoplePage.RulesDifferOffRange` | src/app/people/page.tsx:37 | Off range the two rules differ: from 5 of 4, the modulo rule gives 2 and the native rule gives 0. |
| `PeoplePage.StatusLine` | src/app/people/page.tsx:83-87 | The status line appears iff the list is non-empty and reads `i + 1` of n. |
| `PeoplePage.StatusLineAgreesWithNative` | src/app/people/page.tsx:83-87 | For an in-range cursor the page's status line equals the native screen's; past the end of a non-empty list only the page shows it. |
| `PeoplePage.Page.constructor` | src/app/people/page.tsx:19-20 | The page starts on the four sample people at cursor 0. |
| `PeoplePage.Page.ShowNextPerson` | src/app/people/page.tsx:36-42 | The cursor becomes the modulo successor; the list is unchanged. |
| `PeoplePage.Page.HandleVibe` | src/app/people/page.tsx:22-27 | Advances exactly once; the list is never modified. |
| `PeoplePage.Page.HandleSkip` | src/app/people/page.tsx:29-34 | Advances exactly once; the list is never modified. |
| `PeoplePage.Page.HeaderRefresh` | src/app/people/page.tsx:55 | Only the cursor is reset to 0. |
| `PeoplePage.Page.EmptyStateRefresh` | src/app/people/page.tsx:76 | The list is restored to the sample people and the cursor to 0. |
| `PeoplePage.Page.CurrentPerson` | src/app/people/page.tsx:44 | Under the invariant the card always shows `people[currentIndex]`. |
| `EventsScreen.FilterEvents` | src/screens/events/EventsScreen.tsx:36-41 | An event is kept iff the lowercased query occurs in the lowercased title or location, and the category filter is empty or equal ignoring case. The result is an order-preserving subsequence. |
| `EventsScreen.FilterKeepsCopies` | src/screens/events/EventsScreen.tsx:36-41 | Every copy of a kept event survives the filter, and no copy of a dropped one. |
| `EventsScreen.MatchesQuery` | src/screens/events/EventsScreen.tsx:37-38 | `matchesQuery`: the lowercased query is a substring of the lowercased title or of the lowercased location. |
| `EventsScreen.MatchesCategory` | src/screens/events/EventsScreen.tsx:39 | `matchesCategory`: an empty filter is falsy and passes everything; otherwise the lowercased category must equal the lowercased filter. |
| `EventsScreen.Kept` | src/screens/events/EventsScreen.tsx:40 | The filter callback keeps an event iff both checks hold. |
| `EventsScreen.FilteredEvents` | src/screens/events/EventsScreen.tsx:14-19 | The same, over the screen's three sample events. |
| `EventsScreen.EmptyFiltersKeepAll` | src/screens/events/EventsScreen.tsx:37-39 | An empty query and an empty category keep every event, in order. |
| `EventsScreen.CategoryIsExactMatch` | src/screens/events/EventsScreen.tsx:39 | The category filter "Mus" keeps nothing; "music" keeps exactly the music festival. |
| `EventsScreen.KeptByLongerQuery` | src/screens/events/EventsScreen.tsx:37-38 | An event kept for a longer query is kept for every prefix of it. |
| `EventsScreen.LongerQueryShrinks` | src/screens/events/EventsScreen.tsx:36-40 | Appending characters to the query yields a subsequence of the previous result. |
| `EventsScreen.View` | src/screens/events/EventsScreen.tsx:153-162 | "No events found" is shown iff no sample event is kept. Otherwise the non-empty filtered list is shown. |
| `NotificationsScreen.MarkRead` | src/screens/notifications/NotificationsScreen.tsx:27-29 | An entry becomes read iff it was read or has the pressed id. Every other field and every other entry is unchanged, and the length is kept. |
| `NotificationsScreen.MarkAllRead` | src/screens/notifications/NotificationsScreen.tsx:63 | Every entry is read. Length, order and all other fields are kept. |
| `NotificationsScreen.MarkReadLowersUnread` | src/screens/notifications/NotificationsScreen.tsx:28 | Pressing never raises the unread count. |
| `NotificationsScreen.MarkAllReadClearsUnread` | src/screens/notifications/NotificationsScreen.tsx:62-63 | After mark-all the unread count is 0. |
| `NotificationsScreen.MarkAllReadIdempotent` | src/screens/notifications/NotificationsScreen.tsx:62 | Mark-all is idempotent. |
| `NotificationsScreen.MarkReadIdempotent` | src/screens/notifications/NotificationsScreen.tsx:27 | Pressing the same notification twice equals pressing it once. |
| `NotificationsScreen.MarkReadAbsent` | src/screens/notifications/NotificationsScreen.tsx:29 | Pressing an id that no entry carries changes nothing. |
| `NotificationsScreen.MarkAllAbsorbsMarkRead` | src/screens/notifications/NotificationsScreen.tsx:27-63 | Pressing then marking all equals marking all. |
| `NotificationsScreen.HeaderActionsShown` | src/screens/notifications/NotificationsScreen.tsx:163-172 | The mark-all and clear buttons are offered iff the list is non-empty. |
| `NotificationsScreen.HasRelatedId` | src/screens/notifications/NotificationsScreen.tsx:36 | `if (item.relatedId)`: the related id is present and not the empty string. |
| `NotificationsScreen.Route` | src/screens/notifications/NotificationsScreen.tsx:32-59 | A press navigates iff the related id is truthy and the type is neither system nor generic. Event types go to the event detail, message and group types to the chat tab, friend requests to the profile, each with the related id. Every toast is an info toast. |
| `NotificationsScreen.SystemAndGenericOnlyToast` | src/screens/notifications/NotificationsScreen.tsx:57-58 | System and generic notifications always show the default toast, even when they carry a related id. |
| `NotificationsScreen.SampleRoutes` | src/data/notifications.ts:17-92 | On the sample data the RSVP goes to event 1, the message to chat3 and the request to p2. The generic one goes to a toast. |
| `NotificationsScreen.Screen.constructor` | src/screens/notifications/NotificationsScreen.tsx:23 | The screen starts with the sample notifications. |
| `NotificationsScreen.Screen.Press` | src/screens/notifications/NotificationsScreen.tsx:25-60 | The list becomes `MarkRead(old, id)` and the unread count does not grow. The result is `Route(item)`. |
| `NotificationsScreen.Screen.MarkAllAsRead` | src/screens/notifications/NotificationsScreen.tsx:62-65 | The list becomes `MarkAllRead(old)` with nothing unread. The success toast is shown. |
| `NotificationsScreen.Screen.ClearAllNotifications` | src/screens/notifications/NotificationsScreen.tsx:67-70 | The list becomes empty and the header buttons disappear. The info toast is shown. |
| `Chat.WellNumberedDistinct` | src/screens/chat/ChatScreen.tsx:64 | In a list numbered `m1, m2, ...` all ids are distinct. |
| `Chat.MessageId` | src/screens/chat/ChatScreen.tsx:64 | The id `m${n}` is an `m` followed by decimal digits that read back as n. |
| `Chat.UserMessage` | src/screens/chat/ChatScreen.tsx:63-68 | The appended message: the next id, the untrimmed text, sender `user`, no avatar or name, and the clock value. |
| `Chat.SendBlocked` | src/screens/chat/ChatScreen.tsx:62 | The guard `trim() === ''` holds iff the text consists only of ECMAScript whitespace. |
| `Chat.AppendUserMessage` | src/screens/chat/ChatScreen.tsx:63-69 | Exactly one message is appended at the end, and earlier messages are kept. It carries id `m{n+1}`, the untrimmed text, sender `user` and the clock value. The numbering invariant is preserved. |
| `ChatScreen.InitialMessages` | src/screens/chat/ChatScreen.tsx:34-38 | The initial messages are numbered `m1..m3`. |
| `ChatScreen.Screen.constructor` | src/screens/chat/ChatScreen.tsx:43-45 | The screen starts on the first chat, with the initial messages and an empty input. |
| `ChatScreen.Screen.TypeText` | src/screens/chat/ChatScreen.tsx:239 | Typing replaces the input only. |
| `ChatScreen.Screen.SendDisabled` | src/screens/chat/ChatScreen.tsx:245 | The send button is disabled exactly when the send guard refuses. |
| `ChatScreen.Screen.HandleSendMessage` | src/screens/chat/ChatScreen.tsx:61-71 | Blank input leaves the messages and the input unchanged. Otherwise the message is appended by `AppendUserMessage` and the input becomes empty. The numbering invariant is kept. |
| `ChatScreen.Screen.SelectChat` | src/screens/chat/ChatScreen.tsx:48-55 | Selecting a different chat resets the messages to the initial ones. Re-selecting the current chat changes nothing. |
| `ChatPage.InitialMessages` | src/app/chat/page.tsx:25-29 | The page's initial messages are numbered `m1..m3`. |
| `ChatPage.AvatarFallback` | src/app/chat/page.tsx:77 | The fallback is the first two characters upper-cased, or fewer for a shorter name. |
| `ChatPage.MessageAvatarFallback` | src/app/chat/page.tsx:110 | The message avatar shows the first character of the chat name, not upper-cased, or nothing for an empty name. |
| `ChatPage.Prefix` | src/app/chat/page.tsx:77 | `substring(0, n)`: the first n characters, or the whole name when it is shorter. |
| `ChatPage.SampleAvatarFallbacks` | src/app/chat/page.tsx:20-22 | The sample chats show "NE", "TE" and "AL". |
| `ChatPage.Page.constructor` | src/app/chat/page.tsx:33-35 | The page starts on the first chat, with the initial messages and an empty input. |
| `ChatPage.Page.TypeText` | src/app/chat/page.tsx:134 | Typing replaces the input only. |
| `ChatPage.Page.SendDisabled` | src/app/chat/page.tsx:138 | The button is disabled exactly when the send guard refuses. |
| `ChatPage.Page.HandleSendMessage` | src/app/chat/page.tsx:47-57 | Blank input is a no-op. Otherwise one user message is appended under `m{n+1}` and the input is cleared. The numbering invariant is kept. |
| `ChatPage.Page.KeyPress` | src/app/chat/page.tsx:135 | Enter sends exactly as the button does; any other key changes nothing. |
| `ChatPage.Page.SelectChat` | src/app/chat/page.tsx:73 | Selecting a chat keeps the messages and the input. |
| `BottomNav.NavItems` | src/components/layout/BottomNav.tsx:8-14 | There are five items: Home `/`, Events `/events`, Create `/events/create`, People `/people` and Profile `/profile`, in this order. The hrefs are distinct, and an item is central iff it is Create. |
| `BottomNav.IsActive` | src/components/layout/BottomNav.tsx:21 | The root item is active only on `/` itself; every other item is active whenever the pathname starts with its href. |
| `BottomNav.ActiveLabels` | src/components/layout/BottomNav.tsx:21-22 | A label is listed iff its item is active. The root item is active only on `/`; every other item is active when the pathname starts with its href. |
| `BottomNav.HomeActiveOnlyOnRoot` | src/components/layout/BottomNav.tsx:22 | Home is active iff the pathname is `/`, and then it is the only active item. |
| `BottomNav.PrefixRuleExamples` | src/components/layout/BottomNav.tsx:10-22 | On `/events/create` Events and Create are both active. `/eventsX` activates Events, and `/people` activates only People. |
| `BottomNav.View` | src/components/layout/BottomNav.tsx:36-39 | An item has a label iff it is not central. It has a dot iff it is active and not central. |
| `BottomNav.CentralNeverDotted` | src/components/layout/BottomNav.tsx:37 | On the create page, Create is active but has no dot, while Events has one. |
| `Validators.ParseTime` | src/components/events/EventFormNative.tsx:17 | An accepted time reads back as an hour below 24 and a minute below 60, which render as the same text. |
| `Validators.FormatTimeAccepted` | src/components/events/EventForm.tsx:26 | Every zero-padded time of day is accepted, and parses back to its hour and minute. |
| `Validators.TimeOfDayExactly` | src/components/events/EventFormNative.tsx:17 | The HH:MM pattern accepts exactly the zero-padded renderings of h < 24, m < 60. |
| `Validators.DefaultFalse` | src/components/events/EventFormNative.tsx:22 | `.default(false)`: the flag is true iff it is given as true. |
| `Validators.IsTimeOfDay` | src/components/events/EventFormNative.tsx:17 | The pattern `^([01]\d\|2[0-3]):([0-5]\d)$`: hours 00-23, a colon, minutes 00-59, and nothing more. |
| `Validators.MinLength` | src/components/auth/LoginFormNative.tsx:16 | `.min(n)`: at least n characters. |
| `Validators.LengthBetween` | src/components/events/EventFormNative.tsx:14 | `.min(lo).max(hi)`: between lo and hi characters, both included. |
| `Validators.OptionalUrlOrEmpty` | src/components/events/EventFormNative.tsx:21 | `.url().optional().or(z.literal(''))`: absent, empty, or a URL. |
| `EventFormNative.Errors` | src/components/events/EventFormNative.tsx:13-23 | The field checks: title 3..100, description 10..1000, a parsable date, an HH:MM time, location 5..200, category 2..50, and an image URL that is absent, empty or a URL. Each field is in error iff its check fails. |
| `EventFormNative.TimeAcceptedIffClockTime` | src/components/events/EventFormNative.tsx:17 | The time field has no error iff it is a zero-padded h < 24, m < 60. |
| `EventFormNative.UnconstrainedFields` | src/components/events/EventFormNative.tsx:20-22 | An empty or missing image URL is always accepted. Tags and the privacy flag never affect the errors. |
| `EventFormNative.SplitDateTime` | src/components/events/EventFormNative.tsx:83 | Whatever it splits recombines to its input. |
| `EventFormNative.CombineDateTime` | src/components/events/EventFormNative.tsx:83 | The combined value is the date, a `T`, the time and `:00Z`, five characters longer than date and time together. |
| `EventFormNative.SplitCombine` | src/components/events/EventFormNative.tsx:83 | For an accepted time, splitting `date + "T" + time + ":00Z"` gives back the date and the time. |
| `EventFormNative.CombineInjective` | src/components/events/EventFormNative.tsx:82-84 | Different accepted date/time pairs never combine to the same value. |
| `EventFormNative.SubmitData` | src/components/events/EventFormNative.tsx:81-85 | Submit replaces the date by the combined value and leaves every other field unchanged. |
| `EventFormNative.OrElse` | src/components/events/EventFormNative.tsx:48-54 | `x \|\| fallback` gives a truthy default, else the fallback. |
| `EventFormNative.InitialValues` | src/components/events/EventFormNative.tsx:43-56 | `isPrivate` starts false whatever the defaults say. The date is the formatted default or today, and the time is the truthy default or the current time. Title, description, location, category, tags and image URL take the truthy default or `''`; without defaults the four text fields start empty. |
| `EventFormNative.SubmitLabel` | src/components/events/EventFormNative.tsx:240 | "Submitting..." while loading. Otherwise "Update Event" iff the defaults carry a non-empty title, else "Create Event". |
| `EventFormNative.BlankFormInvalid` | src/components/events/EventFormNative.tsx:45-55 | Without defaults the title, description, location and category are all in error. |
| `EventForm.Errors` | src/components/events/EventForm.tsx:22-32 | A field is in error iff its own check fails. |
| `EventForm.Check` | src/components/events/EventForm.tsx:23-31 | Each field's own zod check: the same bounds, date predicate, time pattern and optional-URL rule as the native schema. |
| `EventForm.SameSchemaAsNative` | src/components/events/EventForm.tsx:23-31 | The web schema reports exactly the native schema's errors on every input: same bounds, same time pattern, same empty-URL rule. |
| `EventForm.SubmitLosesNothing` | src/components/events/EventForm.tsx:52-55 | Submit changes only the date. For an accepted time, the combined date still yields the entered date and time. |
| `EventForm.InitialDefaults` | src/components/events/EventForm.tsx:43-50 | Every field the defaults carry is taken over unchanged, except two. `isPrivate` is the given flag or `false`. The date becomes the ISO day of a non-empty default, or `''`. |
| `EventForm.PrivacyStartDiffers` | src/components/events/EventForm.tsx:46-47 | The web and native forms start with different privacy iff the defaults set `isPrivate: true`. |
| `EventForm.SubmitLabel` | src/components/events/EventForm.tsx:190-192 | "Submitting..." while loading. Otherwise "Update Event" iff a defaults object was passed. |
| `EventForm.LabelsDifferIff` | src/components/events/EventForm.tsx:191 | The web and native labels differ iff the form is idle and the defaults exist without a non-empty title. |
| `SignupFormNative.Errors` | src/components/auth/SignupFormNative.tsx:14-25 | fullName needs length ≥ 2 and password length ≥ 8. The email must pass the check and the terms must be agreed. A password mismatch is reported on `confirmPassword`. |
| `SignupFormNative.ValidIff` | src/components/auth/SignupFormNative.tsx:14-25 | No errors iff all field checks and the password equality hold. |
| `SignupFormNative.DefaultsInvalid` | src/components/auth/SignupFormNative.tsx:39-45 | The default values fail on name, password and terms, whatever the email check says. |
| `SignupFormNative.SubmitButton` | src/components/auth/SignupFormNative.tsx:151 | Shows "Creating Account..." and is disabled exactly while loading. |
| `SignupForm.Errors` | src/components/auth/SignupForm.tsx:22-34 | A field is in error iff its own check fails. |
| `SignupForm.Check` | src/components/auth/SignupForm.tsx:23-33 | Each field's own check, with the password equality reported on `confirmPassword`. |
| `SignupForm.SameSchemaAsNative` | src/components/auth/SignupForm.tsx:22-34 | The web form accepts and rejects exactly as the native one. |
| `SignupForm.DefaultsInvalid` | src/components/auth/SignupForm.tsx:46-53 | The default values never validate; the terms error is always present. |
| `SignupForm.MismatchOnConfirmation` | src/components/auth/SignupForm.tsx:31-34 | A mismatch with a long enough password is reported on `confirmPassword`, not on `password`. |
| `LoginFormNative.Errors` | src/components/auth/LoginFormNative.tsx:15-18 | emailOrPhone is in error iff empty, with no trimming. password is in error iff shorter than 6. The form is valid iff both pass. |
| `LoginFormNative.DefaultsInvalidSpaceValid` | src/components/auth/LoginFormNative.tsx:30-36 | The empty defaults fail on both fields. A lone space with a 6-character password passes. |
| `LoginFormNative.SubmitButton` | src/components/auth/LoginFormNative.tsx:192 | Shows "Logging In..." and is disabled exactly while loading. |
| `LoginForm.Errors` | src/components/auth/LoginForm.tsx:20-23 | A field is in error iff its own check fails. |
| `LoginForm.Check` | src/components/auth/LoginForm.tsx:21-22 | emailOrPhone needs at least 1 character, password at least 6. |
| `LoginForm.SameSchemaAsNative` | src/components/auth/LoginForm.tsx:20-23 | The web form accepts and rejects exactly as the native one. |
| `LoginForm.DefaultsInvalid` | src/components/auth/LoginForm.tsx:33-39 | The empty defaults fail on both fields. |
| `LoginForm.SubmitButton` | src/components/auth/LoginForm.tsx:78-80 | Shows "Logging In..." and is disabled while loading, identically to the native button. |
| `OtherUserProfile.Lookup` | src/screens/profile/OtherUserProfileScreen.tsx:30-38 | The profile is shown iff some sample person has the id, and it is that person. Otherwise an error toast "User profile not found." is shown and the screen goes back. |
| `OtherUserProfile.LookupSamples` | src/screens/profile/OtherUserProfileScreen.tsx:31 | "p2" opens Mike's profile; "p9" goes back. |
| `OtherUserProfile.VibeToast` | src/screens/profile/OtherUserProfileScreen.tsx:40-44 | Nothing before the person is loaded. Then a success toast titled "Vibe Sent!" with the message "You sent a vibe to {name}.". |
| `OtherUserProfile.MessageToast` | src/screens/profile/OtherUserProfileScreen.tsx:46-50 | Nothing before the person is loaded. Then an info toast titled "Message (Coming Soon!)" with the message "You will soon be able to message {name}.". |
| `OtherUserProfile.AgeLine` | src/screens/profile/OtherUserProfileScreen.tsx:116-118 | The pronoun suffix, with its literal separator, appears iff pronouns are present and non-empty. |
| `OtherUserProfile.CardDistance` | src/components/people/PersonCardNative.tsx:145 | The card shows the distance iff it is truthy, and the text shown is the distance as given. |
| `OtherUserProfile.DistanceLineAsWritten` | src/screens/profile/OtherUserProfileScreen.tsx:119-124 | The profile line, as written, is the distance followed by " away". |
| `OtherUserProfile.DistanceRepeatsAway` | src/screens/profile/OtherUserProfileScreen.tsx:122 | For Jessie the line reads "1 mile away away"; no sample person's line matches their card. |
| `OtherUserProfile.DistanceLine` | src/screens/profile/OtherUserProfileScreen.tsx:119-124 | The intended line equals the card's distance text. |
| `OtherUserProfile.DistanceLineSamples` | src/screens/profile/OtherUserProfileScreen.tsx:122 | The intended line for Jessie reads "1 mile away"; no sample line ends in "away away". |
| `OtherUserProfile.Plural` | src/screens/profile/OtherUserProfileScreen.tsx:142 | The noun gets an "s" unless the count equals 1. |
| `OtherUserProfile.Row` | src/screens/profile/OtherUserProfileScreen.tsx:139-144 | A row is shown iff the count (missing counts as 0) is > 0. It reads `n noun[s]` plus its tail. |
| `OtherUserProfile.EventsRow` | src/screens/profile/OtherUserProfileScreen.tsx:139-144 | The "n event[s] in common" row. |
| `OtherUserProfile.FriendsRow` | src/screens/profile/OtherUserProfileScreen.tsx:145-150 | The "n mutual friend[s]" row. |
| `OtherUserProfile.ChatsRow` | src/screens/profile/OtherUserProfileScreen.tsx:151-156 | The "n shared group chat[s]" row. |
| `OtherUserProfile.ConnectionRows` | src/screens/profile/OtherUserProfileScreen.tsx:139-156 | One row per positive count (a missing count being 0) and no other: the events row first, then the friends row, then the chats row last. |
| `OtherUserProfile.FallbackShown` | src/screens/profile/OtherUserProfileScreen.tsx:157 | "No mutual connections yet." shows iff none of the three counts is truthy; a negative count is truthy. |
| `OtherUserProfile.RowsOrFallback` | src/screens/profile/OtherUserProfileScreen.tsx:139-159 | For non-negative counts, exactly one of "some row" and "fallback" holds. The fallback shows iff all counts are 0 or missing. |
| `OtherUserProfile.NegativeCountShowsNothing` | src/screens/profile/OtherUserProfileScreen.tsx:157 | A count of -1 shows no row and still suppresses the fallback. |
| `OtherUserProfile.ConnectionSamples` | src/screens/profile/OtherUserProfileScreen.tsx:142 | Jessie shows "2 events in common" and Sarah "1 event in common"; Mike shows only the fallback. |
| `Strings.Lower` | src/screens/events/EventsScreen.tsx:37-39 | `toLowerCase` maps each ASCII capital to its small letter and keeps every other character; the length is kept and no capital remains. |
| `Strings.Upper` | src/app/chat/page.tsx:77 | `toUpperCase` maps each ASCII small letter to its capital and keeps every other character; no small letter remains. |
| `Strings.LowerConcat` | src/screens/events/EventsScreen.tsx:37 | Lowercasing commutes with concatenation. |
| `Strings.LowerIdempotent` | src/screens/events/EventsScreen.tsx:39 | Lowercasing twice is lowercasing once. |
| `Strings.StartsWith` | src/components/layout/BottomNav.tsx:21 | `startsWith`: the prefix of the text of the pattern's length is the pattern. |
| `Strings.Includes` | src/screens/events/EventsScreen.tsx:37-38 | `includes`: the pattern starts at some position of the text. |
| `Strings.IncludesIffOccurs` | src/screens/events/EventsScreen.tsx:37-38 | The scan finds the pattern iff it occurs at some position, in both directions. |
| `Strings.Truthy` | src/components/events/EventFormNative.tsx:47-55 | An optional string as a condition: `undefined` and `''` are falsy, everything else is truthy. |
| `Strings.TrimStart` | src/screens/chat/ChatScreen.tsx:62 | Drops exactly the leading whitespace: what remains is a suffix that does not start with whitespace. |
| `Strings.TrimEnd` | src/screens/chat/ChatScreen.tsx:62 | Drops exactly the trailing whitespace: what remains is a prefix that does not end with whitespace. |
| `Strings.Trim` | src/screens/chat/ChatScreen.tsx:62 | `trim()`: the result is empty or starts and ends with a character that is not whitespace. |
| `Strings.TrimEmptyIffBlank` | src/screens/chat/ChatScreen.tsx:62 | `trim()` gives `''` iff every character is ECMAScript whitespace. |
| `Strings.NatToString` | src/contexts/ToastContext.tsx:26 | `${n}`: at least one decimal digit, and no leading zero unless n is 0. |
| `Strings.ParseNatToString` | src/contexts/ToastContext.tsx:26 | Reading the rendered digits gives the number back. |
| `Strings.NatToStringInjective` | src/screens/chat/ChatScreen.tsx:64 | Different numbers render differently. |

## Left out

- **Rendering.** Rendering, styles, icons and scrolling are not modelled. Only the values
  that decide what is drawn are.
- **Navigation.** `navigation.navigate` and `goBack` appear only as the abstract results
  `NotificationsScreen.Destination` and `OtherUserProfile.ProfileOutcome`.
- **Timers.** The toast auto-dismiss `setTimeout` is left out.
  `ToastProvider.ShowToast` returns the delay instead of scheduling the hide.
- **Randomness.** The shuffle is not modelled as a random source.
  `PeopleScreen.Screen.RefreshPeople` accepts any permutation of the sample people.
- **Clocks and dates.** `new Date()`, `Date.now()`, date-fns `format` and `toISOString` are
  parameters. So are `Date.parse` in the date check and the picker handlers that mutate a
  `Date` (`onDateChange`, `onTimeChange`). Timestamps are integers.
- **Foreign validators.** zod's `.email()` and `.url()` are uninterpreted predicate
  parameters. zod string lengths count UTF-16 code units; the model counts sequence
  elements.
- **Unicode case.** `toLowerCase` and `toUpperCase` are modelled for ASCII letters only.
  Other characters are left unchanged.
- ChatPage.Prefix: `substring` is modelled over Unicode code points, while JavaScript counts
  UTF-16 code units. So `ChatPage.AvatarFallback` and `ChatPage.MessageAvatarFallback` differ
  from the app for a name starting with a character outside the Basic Multilingual Plane. For
  "😀ab" the app shows "😀" and a lone high surrogate; the model shows "😀A" and "😀". For
  names made only of Basic Multilingual Plane characters, the model and the app agree. The
  model includes no UTF-16 encoding.
- **Toast type defaults.** The toast type is a closed enumeration of four values, so the
  `default` branches of `getBackgroundColor` and `getIconName` are unreachable in the model.
  `CustomToast.StylesDistinguishTypes` states that the `card` fallback is never chosen.
- **Web toasts.** The web people page's toasts go through a `use-toast` hook that is not part
  of this model. `PeoplePage.Page.HandleVibe` and `HandleSkip` model only the cursor.
- **Log-only buttons.** The filter buttons only log to the console, so they change no state.
  This covers the People filter and the events "Apply Filters" button. The event list is a
  function of the query and the category alone.
- **Display-only fields.** The person's bio, interests and images, the events' image URL
  and the notifications' icon fields are not modelled.
- **Loading flags.** `isLoading` is modelled as a boolean, so `undefined` is treated as
  false.
- **Chat timestamps.** The chat messages' timestamps are computed once, when the module
  loads. The model takes that moment as the `loadTime` parameter.
- **Wiring defects.** Some imports are broken (a `dummyPeople` that the people screen does
  not export; `createStackNavigator`, `GradientButton` and `Badge` used without imports).
  The model uses the people screen's sample list for the profile lookup, as the import
  intends. `Person` carries the optional counts and pronouns that the profile reads.
- **React state updates.** State setters are modelled as immediate field assignments.
  React's batching applies the same final values, because each handler sets each field at
  most once.
- **Undefined versus absent.** In `EventForm.InitialDefaults` an explicitly `undefined`
  field and a missing field are the same `None`.

## Findings

| source | as written | input that shows it | evidently intended | confidence | as-written member | corrected member |
|---|---|---|---|---|---|---|
| src/screens/profile/OtherUserProfileScreen.tsx:122 | The distance line prints the distance text and then the word "away". | Jessie (`p1`), whose distance is "1 mile away", gets the line "1 mile away away". | The distance is shown as given, as the people cards do (src/components/people/PersonCard.tsx:17,41). | not executed; high for the shown text | `OtherUserProfile.DistanceRepeatsAway` | `OtherUserProfile.DistanceLineSamples` |
