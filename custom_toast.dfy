/** What `CustomToast` renders from the toast queue: nothing for an empty queue, otherwise the
    last toast, coloured and iconed by its type, with a close button that hides its id. */
module CustomToast {
  import opened Wrappers
  import opened ToastContext

  /** The theme colours the background switch chooses from. */
  datatype ThemeColor = Chart5 | Destructive | Secondary | Chart4 | Card

  /** The toast on screen: none for an empty queue, otherwise the most recently shown one. */
  function Displayed(toasts: seq<ToastMessage>): (r: Option<ToastMessage>)
    ensures r.None? <==> toasts == []
    ensures r.Some? ==> r.value == toasts[|toasts| - 1]
  {
    if |toasts| == 0 then None else Some(toasts[|toasts| - 1])
  }

  /** `getBackgroundColor`. */
  function BackgroundColor(kind: ToastType): ThemeColor {
    match kind
    case Success => Chart5
    case Error => Destructive
    case Info => Secondary
    case Warning => Chart4
  }

  /** `getIconName`. */
  function IconName(kind: ToastType): string {
    match kind
    case Success => "check-circle"
    case Error => "x-circle"
    case Info => "info"
    case Warning => "alert-triangle"
  }

  /** The two maps tell every toast type apart: no two types share a colour or an icon, and
      the fallback colour `card` is never chosen for a declared type. */
  lemma StylesDistinguishTypes(a: ToastType, b: ToastType)
    ensures BackgroundColor(a) == BackgroundColor(b) <==> a == b
    ensures IconName(a) == IconName(b) <==> a == b
    ensures BackgroundColor(a) != Card
  {
    match a
    case Success =>
      assert IconName(a)[0] == 'c';
    case Error =>
      assert IconName(a)[0] == 'x';
    case Info =>
      assert |IconName(a)| == 4;
    case Warning =>
      assert IconName(a)[0] == 'a';
  }

  /** The title line `{currentToast.title && <Text>...}`: shown only for a present, non-empty
      title (an empty string is falsy and renders nothing). */
  function TitleLine(t: ToastMessage): (r: Option<string>)
    ensures r.Some? <==> t.title.Some? && t.title.value != ""
    ensures r.Some? ==> r == t.title
  {
    match t.title
    case Some(s) => if s != "" then Some(s) else None
    case None => None
  }

  /** The id the close button hides: that of the displayed toast. */
  function CloseTarget(toasts: seq<ToastMessage>): (r: Option<string>)
    ensures r.Some? <==> toasts != []
    ensures r.Some? ==> r.value == toasts[|toasts| - 1].id
  {
    match Displayed(toasts)
    case Some(t) => Some(t.id)
    case None => None
  }

  /** In a queue whose ids are distinct, the close button removes exactly the displayed toast
      and leaves the others in order. */
  lemma {:induction false} CloseRemovesDisplayed(toasts: seq<ToastMessage>)
    requires toasts != [] && DistinctIds(toasts)
    ensures RemoveId(toasts, CloseTarget(toasts).value) == toasts[..|toasts| - 1]
  {
    var front := toasts[..|toasts| - 1];
    var last := toasts[|toasts| - 1];
    assert front + [last] == toasts;
    DistinctIdsLastFresh(toasts);
    ShowThenHide(front, last);
  }

  /** In a list with distinct ids, the last toast's id occurs nowhere before it. */
  lemma {:induction false} DistinctIdsLastFresh(ts: seq<ToastMessage>)
    requires ts != [] && DistinctIds(ts)
    ensures forall t :: t in ts[..|ts| - 1] ==> t.id != ts[|ts| - 1].id
    decreases |ts|
  {
    if |ts| > 1 {
      DistinctIdsLastFresh(ts[1..]);
      assert ts[1..][..|ts[1..]| - 1] == ts[1..|ts| - 1];
      assert ts[..|ts| - 1] == [ts[0]] + ts[1..|ts| - 1];
      assert ts[|ts| - 1] in ts[1..];
    }
  }

  /** Right after `showToast`, the new toast is the one on screen. */
  lemma ShownToastIsDisplayed(toasts: seq<ToastMessage>, m: ToastMessage)
    ensures Displayed(toasts + [m]) == Some(m)
  {
  }
}
