/** The toast queue of `ToastProvider`: a list of toasts that `showToast` appends to, under
    ids `toast-0`, `toast-1`, ... drawn from a counter that only grows, and that `hideToast`
    filters by id. */
module ToastContext {
  import opened Wrappers
  import opened Strings
  import opened Sequences

  datatype ToastType = Success | Error | Info | Warning

  /** What a caller passes to `showToast`: a toast without its id. */
  datatype ToastDetails = ToastDetails(
    message: string,
    kind: ToastType,
    duration: Option<int>,
    title: Option<string>)

  /** A toast in the queue. */
  datatype ToastMessage = ToastMessage(
    id: string,
    message: string,
    kind: ToastType,
    duration: Option<int>,
    title: Option<string>)

  /** `{ ...toastDetails, id }`. */
  function WithId(d: ToastDetails, id: string): ToastMessage {
    ToastMessage(id, d.message, d.kind, d.duration, d.title)
  }

  /** The id `toast-${n}` that the counter value `n` produces: the prefix, then decimal
      digits that read back as `n`. */
  function ToastId(n: nat): (r: string)
    ensures |r| > 6 && StartsWith(r, "toast-")
    ensures forall i :: 6 <= i < |r| ==> IsDigit(r[i])
    ensures ParseDigits(r[6..]) == n
  {
    ParseNatToString(n);
    var r := "toast-" + NatToString(n);
    assert r[6..] == NatToString(n);
    r
  }

  /** Different counter values never produce the same id. */
  lemma ToastIdInjective(a: nat, b: nat)
    requires a != b
    ensures ToastId(a) != ToastId(b)
  {
    if ToastId(a) == ToastId(b) {
      PrefixedNatInjective("toast-", a, b);
    }
  }

  /** The auto-dismiss delay `toastDetails.duration || 3000`: a missing or zero duration
      becomes 3000 ms, any other value is kept. */
  function DismissAfter(duration: Option<int>): (ms: int)
    ensures ms != 0
    ensures duration.Some? && duration.value != 0 ==> ms == duration.value
    ensures duration.None? || duration == Some(0) ==> ms == 3000
  {
    match duration
    case Some(d) => if d != 0 then d else 3000
    case None => 3000
  }

  /** No two toasts of the list share an id: each differs from every toast after it. */
  ghost predicate DistinctIds(ts: seq<ToastMessage>)
    decreases |ts|
  {
    ts == [] || ((forall t :: t in ts[1..] ==> t.id != ts[0].id) && DistinctIds(ts[1..]))
  }

  /** Appending a toast with a fresh id keeps the ids distinct. */
  lemma {:induction false} AppendFreshKeepsDistinct(ts: seq<ToastMessage>, m: ToastMessage)
    requires DistinctIds(ts)
    requires forall t :: t in ts ==> t.id != m.id
    ensures DistinctIds(ts + [m])
    decreases |ts|
  {
    if ts == [] {
      assert [] + [m] == [m];
      assert [m][1..] == [];
    } else {
      AppendFreshKeepsDistinct(ts[1..], m);
      assert (ts + [m])[1..] == ts[1..] + [m];
    }
  }

  /** `ts.filter(toast => toast.id !== id)`: exactly the toasts with another id survive,
      in their original order (and every copy of them, `RemoveIdKeepsCopies`). */
  function RemoveId(ts: seq<ToastMessage>, id: string): (r: seq<ToastMessage>)
    ensures forall t :: t in r <==> t in ts && t.id != id
    ensures IsSubsequence(r, ts)
    decreases |ts|
  {
    if ts == [] then []
    else
      var rest := RemoveId(ts[1..], id);
      SubsequenceConsRight(ts[0], rest, ts[1..]);
      assert [ts[0]] + ts[1..] == ts;
      if ts[0].id != id then [ts[0]] + rest else rest
  }

  /** The filter keeps every copy of a surviving toast and no copy of a hidden one. */
  lemma {:induction false} RemoveIdKeepsCopies(ts: seq<ToastMessage>, id: string)
    ensures forall t :: multiset(RemoveId(ts, id))[t] == if t.id != id then multiset(ts)[t] else 0
    decreases |ts|
  {
    if ts != [] {
      RemoveIdKeepsCopies(ts[1..], id);
      assert [ts[0]] + ts[1..] == ts;
      assert multiset(ts) == multiset([ts[0]]) + multiset(ts[1..]);
    }
  }

  /** Hiding an id that no toast carries changes nothing. */
  lemma {:induction false} RemoveAbsentId(ts: seq<ToastMessage>, id: string)
    requires forall t :: t in ts ==> t.id != id
    ensures RemoveId(ts, id) == ts
    decreases |ts|
  {
    if ts != [] {
      RemoveAbsentId(ts[1..], id);
      assert [ts[0]] + ts[1..] == ts;
    }
  }

  /** Hiding twice is hiding once. */
  lemma HideTwice(ts: seq<ToastMessage>, id: string)
    ensures RemoveId(RemoveId(ts, id), id) == RemoveId(ts, id)
  {
    RemoveAbsentId(RemoveId(ts, id), id);
  }

  /** Showing a toast under a fresh id and then hiding that id restores the list. */
  lemma {:induction false} ShowThenHide(ts: seq<ToastMessage>, m: ToastMessage)
    requires forall t :: t in ts ==> t.id != m.id
    ensures RemoveId(ts + [m], m.id) == ts
    decreases |ts|
  {
    if ts == [] {
      assert [] + [m] == [m];
      assert [m][1..] == [];
    } else {
      ShowThenHide(ts[1..], m);
      assert (ts + [m])[1..] == ts[1..] + [m];
      assert [ts[0]] + ts[1..] == ts;
    }
  }

  /** Filtering keeps ids distinct. */
  lemma {:induction false} RemoveIdKeepsDistinct(ts: seq<ToastMessage>, id: string)
    requires DistinctIds(ts)
    ensures DistinctIds(RemoveId(ts, id))
    decreases |ts|
  {
    if ts != [] {
      RemoveIdKeepsDistinct(ts[1..], id);
      var rest := RemoveId(ts[1..], id);
      if ts[0].id != id {
        assert ([ts[0]] + rest)[1..] == rest;
      }
    }
  }

  /** The toast state of the provider. The counter is the module-level `toastCount`, which
      survives a remount of the provider; the constructor therefore takes its current value. */
  class ToastProvider {
    var toasts: seq<ToastMessage>
    var toastCount: nat

    /** Every toast in the list carries an id that the counter has already issued, and the
        ids are pairwise distinct. */
    ghost predicate Valid()
      reads this
    {
      && (forall i :: 0 <= i < |toasts| ==> exists k: nat :: k < toastCount && toasts[i].id == ToastId(k))
      && DistinctIds(toasts)
    }

    constructor (counter: nat)
      ensures Valid() && toasts == [] && toastCount == counter
    {
      toasts := [];
      toastCount := counter;
    }

    /** `showToast`: takes the next id, appends one toast at the end, and returns its id with
        the delay after which the provider's timer will hide it. */
    method ShowToast(details: ToastDetails) returns (id: string, dismissAfter: int)
      requires Valid()
      modifies this
      ensures Valid()
      ensures id == ToastId(old(toastCount)) && toastCount == old(toastCount) + 1
      ensures toasts == old(toasts) + [WithId(details, id)]
      ensures forall t :: t in old(toasts) ==> t.id != id
      ensures dismissAfter == DismissAfter(details.duration)
    {
      id := ToastId(toastCount);
      forall t | t in toasts ensures t.id != id {
        var i :| 0 <= i < |toasts| && toasts[i] == t;
        var k: nat :| k < toastCount && toasts[i].id == ToastId(k);
        ToastIdInjective(k, toastCount);
      }
      AppendFreshKeepsDistinct(toasts, WithId(details, id));
      var old_toasts := toasts;
      toasts := toasts + [WithId(details, id)];
      toastCount := toastCount + 1;
      dismissAfter := DismissAfter(details.duration);
      forall i | 0 <= i < |toasts| ensures exists k: nat :: k < toastCount && toasts[i].id == ToastId(k) {
        if i == |old_toasts| {
          assert toasts[i].id == ToastId(toastCount - 1);
        } else {
          assert toasts[i] == old_toasts[i];
          var k: nat :| k < toastCount - 1 && old_toasts[i].id == ToastId(k);
        }
      }
    }

    /** `hideToast(id)`: removes every toast with that id and keeps the rest in order. */
    method HideToast(id: string)
      requires Valid()
      modifies this
      ensures Valid()
      ensures toasts == RemoveId(old(toasts), id) && toastCount == old(toastCount)
    {
      var old_toasts := toasts;
      RemoveIdKeepsDistinct(toasts, id);
      toasts := RemoveId(toasts, id);
      forall i | 0 <= i < |toasts| ensures exists k: nat :: k < toastCount && toasts[i].id == ToastId(k) {
        assert toasts[i] in old_toasts;
        var j :| 0 <= j < |old_toasts| && old_toasts[j] == toasts[i];
        var k: nat :| k < toastCount && old_toasts[j].id == ToastId(k);
      }
    }
  }
}
