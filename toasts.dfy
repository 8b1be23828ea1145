/** The notification queue of ToastContext: toasts are appended by `showToast`
    and filtered out by id. `Date.now()` ids and `setTimeout` callbacks are
    inputs here: a toast's id is the millisecond timestamp passed in, and a
    scheduled removal is an entry of `pending` that `Fire` runs. */
module Toasts {
  import opened Wrappers
  import opened Seqs

  const SuccessKind: string := "success"
  const ErrorKind: string := "error"

  /** `{id, message, type}`. The source's id is the string `Date.now().toString()`; a `nat` is
      used because decimal rendering is injective (`Text.NatToString` reads back through
      `DigitsValue`), so comparing the strings is comparing the numbers. */
  datatype Toast = Toast(id: nat, message: string, kind: string)

  datatype Style = SuccessStyle | ErrorStyle

  /** The `type` argument of `showToast`, defaulting to `'success'` when omitted. */
  function KindOrDefault(kind: Option<string>): (k: string)
    ensures kind.None? ==> k == SuccessKind
    ensures kind.Some? ==> k == kind.value
  {
    kind.GetOr(SuccessKind)
  }

  /** `ToastItem`'s style choice: only the exact type `'error'` is drawn as an error. */
  function StyleOf(t: Toast): (s: Style)
    ensures s == ErrorStyle <==> t.kind == ErrorKind
  {
    if t.kind == ErrorKind then ErrorStyle else SuccessStyle
  }

  /** `removeToast(id)`: keeps, in order, every toast whose id differs. */
  function Without(toasts: seq<Toast>, id: nat): (r: seq<Toast>)
    ensures |r| <= |toasts|
    ensures forall t :: t in r <==> t in toasts && t.id != id
  {
    Filter(toasts, (t: Toast) => t.id != id)
  }

  /** Removal distributes over concatenation: the survivors keep their relative order. */
  lemma WithoutConcat(a: seq<Toast>, b: seq<Toast>, id: nat)
    ensures Without(a + b, id) == Without(a, id) + Without(b, id)
  {
    FilterConcat(a, b, (t: Toast) => t.id != id);
  }

  /** Removing an id no toast carries leaves the queue as it was. */
  lemma WithoutAbsent(toasts: seq<Toast>, id: nat)
    requires forall i :: 0 <= i < |toasts| ==> toasts[i].id != id
    ensures Without(toasts, id) == toasts
  {
    FilterAllKept(toasts, (t: Toast) => t.id != id);
  }

  /** Showing a toast under a fresh id and then running its expiry restores the queue. */
  lemma ShowThenExpire(toasts: seq<Toast>, now: nat, message: string, kind: string)
    requires forall i :: 0 <= i < |toasts| ==> toasts[i].id != now
    ensures Without(toasts + [Toast(now, message, kind)], now) == toasts
  {
    WithoutConcat(toasts, [Toast(now, message, kind)], now);
    WithoutAbsent(toasts, now);
  }

  /** Two toasts shown in the same millisecond share an id, so the first one's
      expiry also removes the second, earlier than its own three seconds. */
  lemma SameMillisecondExpireTogether(toasts: seq<Toast>, now: nat, m1: string, k1: string, m2: string, k2: string)
    requires forall i :: 0 <= i < |toasts| ==> toasts[i].id != now
    ensures Without(toasts + [Toast(now, m1, k1)] + [Toast(now, m2, k2)], now) == toasts
  {
    var shown := [Toast(now, m1, k1), Toast(now, m2, k2)];
    assert toasts + [Toast(now, m1, k1)] + [Toast(now, m2, k2)] == toasts + shown;
    WithoutConcat(toasts, shown, now);
    assert Without(shown, now) == Without(shown[1..], now) == [];
    WithoutAbsent(toasts, now);
  }

  /** The ids of the toasts appended to `before` to give `after`, in order: a handler that
      shows toasts schedules exactly these removals. */
  function AddedIds(before: seq<Toast>, after: seq<Toast>): (ids: seq<nat>)
    requires |before| <= |after|
    ensures |ids| == |after| - |before|
    ensures |after| == |before| ==> ids == []
    ensures |after| == |before| + 1 ==> ids == [after[|before|].id]
  {
    seq<nat>(|after| - |before|, i requires 0 <= i < |after| - |before| => after[|before| + i].id)
  }

  /** The ToastProvider state: the rendered list, in render order, and the ids
      whose removal callbacks (the 3000 ms expiry and the 300 ms close) are still pending. */
  class ToastQueue {
    var toasts: seq<Toast>
    var pending: seq<nat>

    /** Every toast on screen has a removal scheduled for its id, so none stays forever. */
    ghost predicate Valid()
      reads this
    {
      forall t :: t in toasts ==> t.id in pending
    }

    constructor ()
      ensures Valid() && toasts == [] && pending == []
    {
      toasts := [];
      pending := [];
    }

    /** `showToast(message, type)`: appends one toast and schedules the removal of its own id. */
    method ShowToast(message: string, kind: Option<string>, now: nat)
      requires Valid()
      modifies this
      ensures Valid()
      ensures toasts == old(toasts) + [Toast(now, message, KindOrDefault(kind))]
      ensures pending == old(pending) + [now]
    {
      toasts := toasts + [Toast(now, message, KindOrDefault(kind))];
      pending := pending + [now];
    }

    /** `removeToast(id)`. */
    method RemoveToast(id: nat)
      requires Valid()
      modifies this
      ensures Valid()
      ensures toasts == Without(old(toasts), id) && pending == old(pending)
    {
      toasts := Without(toasts, id);
    }

    /** The close button of a rendered toast schedules the removal of that toast's id. */
    method Close(t: Toast)
      requires Valid() && t in toasts
      modifies this
      ensures Valid()
      ensures toasts == old(toasts) && pending == old(pending) + [t.id]
    {
      pending := pending + [t.id];
    }

    /** The `k`-th pending callback runs: it removes every toast with its id. */
    method Fire(k: nat)
      requires Valid() && k < |pending|
      modifies this
      ensures Valid()
      ensures toasts == Without(old(toasts), old(pending)[k])
      ensures pending == old(pending)[..k] + old(pending)[k + 1..]
    {
      var id := pending[k];
      ghost var before := pending;
      pending := pending[..k] + pending[k + 1..];
      toasts := Without(toasts, id);
      forall t | t in toasts
        ensures t.id in pending
      {
        var j :| 0 <= j < |before| && before[j] == t.id;
        if j < k {
          assert pending[j] == t.id;
        } else {
          assert j != k;
          assert pending[j - 1] == t.id;
        }
      }
    }
  }
}
