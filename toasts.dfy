/**
 * The application-wide toast list: `show` puts a new toast in front and
 * keeps at most five, `remove` drops the toasts with a given id, and the
 * global event handler ignores events without a message.
 *
 * The generated id (time and randomness) is a parameter.
 */
module Toasts {
  import opened Wrappers
  import opened Seqs

  const MaxToasts := 5
  const DefaultDuration := 3500

  /** A key of the object handed to `show`: left out, present but undefined, or given. */
  datatype Key<T> = Absent | Undefined | Given(value: T)

  datatype ToastInput = ToastInput(
    id: Key<string>, kind: Key<string>, duration: Key<int>, message: Key<string>, title: Key<string>)

  /** A stored toast; `None` is an undefined field. */
  datatype Toast = Toast(
    id: Option<string>, kind: Option<string>, duration: Option<int>, message: Option<string>, title: Option<string>)

  /** `{ key: dflt, ...t }` for one key. */
  function Override<T>(k: Key<T>, dflt: Option<T>): Option<T> {
    match k
    case Absent => dflt
    case Undefined => None
    case Given(v) => Some(v)
  }

  /** `{ id: genId(), type: "info", duration: 3500, ...t }`. */
  function MakeToast(t: ToastInput, freshId: string): Toast {
    Toast(Override(t.id, Some(freshId)), Override(t.kind, Some("info")), Override(t.duration, Some(DefaultDuration)),
          Override(t.message, None), Override(t.title, None))
  }

  /** `[item, ...prev].slice(0, 5)`. */
  function Shown(prev: seq<Toast>, item: Toast): seq<Toast> {
    Take([item] + prev, MaxToasts)
  }

  predicate OtherId(id: Option<string>, t: Toast) { t.id != id }

  /** `prev.filter(t => t.id !== id)`. */
  function Removed(prev: seq<Toast>, id: Option<string>): seq<Toast> {
    Filter(prev, t => OtherId(id, t))
  }

  /**
   * The new toast is first, then the previous toasts in their order; at
   * most five are kept, so showing into a full list drops the oldest.
   */
  lemma ShownFacts(prev: seq<Toast>, item: Toast)
    ensures var next := Shown(prev, item);
            && |next| == (if |prev| + 1 < MaxToasts then |prev| + 1 else MaxToasts)
            && next[0] == item
            && next[1..] == Take(prev, MaxToasts - 1)
  {
  }

  /** Exactly the toasts with that id go, the rest keep their order, and an unknown id changes nothing. */
  lemma RemovedFacts(prev: seq<Toast>, id: Option<string>)
    ensures Subseq(Removed(prev, id), prev)
    ensures forall t :: t in Removed(prev, id) <==> t in prev && t.id != id
    ensures (forall t :: t in prev ==> t.id != id) ==> Removed(prev, id) == prev
    ensures forall t: Toast :: t.id != id ==> multiset(Removed(prev, id))[t] == multiset(prev)[t]
  {
    FilterIsSubseq(prev, t => OtherId(id, t));
    FilterCounts(prev, t => OtherId(id, t));
    if forall t :: t in prev ==> t.id != id {
      FilterKeepsAll(prev, t => OtherId(id, t));
    }
  }

  /** Showing a toast with a fresh id and then removing it leaves the previous first four toasts. */
  lemma ShowThenRemove(prev: seq<Toast>, t: ToastInput, freshId: string)
    requires t.id.Absent?
    requires forall u :: u in prev ==> u.id != Some(freshId)
    ensures Removed(Shown(prev, MakeToast(t, freshId)), Some(freshId)) == Take(prev, MaxToasts - 1)
  {
    var item := MakeToast(t, freshId);
    var kept := Take(prev, MaxToasts - 1);
    assert Shown(prev, item) == [item] + kept;
    FilterAppend([item], kept, u => OtherId(Some(freshId), u));
    assert Filter([item], u => OtherId(Some(freshId), u)) == [];
    forall u | u in kept ensures u.id != Some(freshId) {
      assert u in prev;
    }
    FilterKeepsAll(kept, u => OtherId(Some(freshId), u));
  }

  /** `e.detail` of a "raahi:toast" event; `None` is an undefined field. */
  datatype Detail = Detail(message: Option<string>, kind: Option<string>, title: Option<string>, duration: Option<int>)

  /** The handler passes all four keys, even undefined ones. */
  function DetailInput(d: Detail): ToastInput {
    ToastInput(Absent,
      if d.kind.Some? then Given(d.kind.value) else Undefined,
      if d.duration.Some? then Given(d.duration.value) else Undefined,
      if d.message.Some? then Given(d.message.value) else Undefined,
      if d.title.Some? then Given(d.title.value) else Undefined)
  }

  /** `e.detail || {}` destructured, then `if (!message) return;`. */
  predicate HasMessage(detail: Option<Detail>) {
    detail.Some? && detail.value.message.Some? && detail.value.message.value != ""
  }

  const KnownKinds := ["info", "success", "warning", "error"]

  /** `typeStyles[toast.type] || typeStyles.info`: which style a toast is drawn with. */
  function StyleKind(t: Toast): string {
    if t.kind.Some? && t.kind.value in KnownKinds then t.kind.value else "info"
  }

  /** `toast.duration || 3500`: the auto-close delay. */
  function CloseDelay(t: Toast): int {
    if t.duration.Some? && t.duration.value != 0 then t.duration.value else DefaultDuration
  }

  /**
   * A toast raised through the event keeps the event's type and duration
   * as given: an undefined one overrides the default and it is the drawing
   * code that falls back to the info style and 3500 ms.
   */
  lemma EventToastsFallBackWhenDrawn(d: Detail, freshId: string)
    ensures var t := MakeToast(DetailInput(d), freshId);
            && t.id == Some(freshId) && t.kind == d.kind && t.duration == d.duration
            && t.message == d.message && t.title == d.title
            && (d.kind.None? ==> StyleKind(t) == "info")
            && (d.duration.None? ==> CloseDelay(t) == DefaultDuration)
  {
  }

  /** The mounted provider's list of toasts. */
  class ToastList {
    var toasts: seq<Toast>

    predicate Valid()
      reads this
    {
      |toasts| <= MaxToasts
    }

    constructor ()
      ensures toasts == [] && Valid()
    {
      toasts := [];
    }

    method Show(t: ToastInput, freshId: string)
      modifies this
      ensures toasts == Shown(old(toasts), MakeToast(t, freshId))
      ensures Valid()
    {
      var item := MakeToast(t, freshId);
      toasts := Take([item] + toasts, MaxToasts);
    }

    method Remove(id: Option<string>)
      modifies this
      requires Valid()
      ensures toasts == Removed(old(toasts), id)
      ensures Valid()
    {
      toasts := Filter(toasts, u => OtherId(id, u));
    }

    /** The global event handler: an event without a message changes nothing. */
    method Handle(detail: Option<Detail>, freshId: string)
      modifies this
      requires Valid()
      ensures !HasMessage(detail) ==> toasts == old(toasts)
      ensures HasMessage(detail) ==> toasts == Shown(old(toasts), MakeToast(DetailInput(detail.value), freshId))
      ensures Valid()
    {
      var d := if detail.Some? then detail.value else Detail(None, None, None, None);
      if d.message.None? || d.message.value == "" {
        return;
      }
      Show(DetailInput(d), freshId);
    }
  }
}
