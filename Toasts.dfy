/** The toast-notification store: entries are pushed, shown, and removed by id. */
module Toasts {
  import opened Base
  import opened RecordList

  /** A notification as a caller passes it; `id` is absent unless the caller supplies one. */
  datatype Incoming = Incoming(id: Option<int>, message: string, kind: string)

  datatype Toast = Toast(id: int, message: string, kind: string, show: bool)

  /** Stored ids are always numbers, so `n.id !== undefined` holds of every entry. */
  function ToastKey(t: Toast): Option<int> { Some(t.id) }

  /**
   * The entry ADD_NOTIFICATION pushes: `{ id: Date.now(), ...notification, show: true }`,
   * with `now` for `Date.now()`.
   */
  function Stamp(n: Incoming, now: int): (t: Toast)
    ensures t.show
    ensures n.id.Some? ==> t.id == n.id.value
    ensures n.id.None? ==> t.id == now
    ensures t.message == n.message && t.kind == n.kind
  {
    Toast(if n.id.Some? then n.id.value else now, n.message, n.kind, true)
  }

  /** Removing an id no entry carries leaves the list as it was. */
  lemma RemoveAbsentId(s: seq<Toast>, id: Option<int>)
    requires forall j :: 0 <= j < |s| ==> ToastKey(s[j]) != id
    ensures RemoveId(s, ToastKey, id) == s
  {
  }

  /**
   * Adding a notification and then removing the stored entry's id gives back
   * the list as it was, provided no earlier entry shares that id.
   */
  lemma AddThenRemoveRestores(s: seq<Toast>, n: Incoming, now: int)
    requires forall j :: 0 <= j < |s| ==> s[j].id != Stamp(n, now).id
    ensures RemoveId(s + [Stamp(n, now)], ToastKey, Some(Stamp(n, now).id)) == s
  {
    var t := Stamp(n, now);
    RemoveIdAppend(s, [t], ToastKey, Some(t.id));
    assert RemoveId([t], ToastKey, Some(t.id)) == [];
  }

  /**
   * The `add` action as written removes `notification.id` after five seconds:
   * for a notification without an id that is `undefined`, which no stored
   * entry carries, so the timer's removal leaves the toast in place; only an
   * explicit `remove` with the stored id takes it away.
   */
  lemma AutoRemoveAsWrittenKeepsToast(s: seq<Toast>, n: Incoming, now: int)
    requires n.id.None?
    ensures RemoveId(s + [Stamp(n, now)], ToastKey, n.id) == s + [Stamp(n, now)]
    ensures Stamp(n, now) in RemoveId(s + [Stamp(n, now)], ToastKey, n.id)
  {
    RemoveAbsentId(s + [Stamp(n, now)], n.id);
  }

  class ToastStore {
    var notifications: seq<Toast>

    constructor ()
      ensures notifications == []
    {
      notifications := [];
    }

    /** ADD_NOTIFICATION: push the stamped entry onto the end. */
    method AddNotification(n: Incoming, now: int)
      modifies this
      ensures notifications == old(notifications) + [Stamp(n, now)]
    {
      notifications := notifications + [Stamp(n, now)];
    }

    /** REMOVE_NOTIFICATION: every entry with the id is filtered out, the rest keep their order. */
    method RemoveNotification(id: Option<int>)
      modifies this
      ensures notifications == RemoveId(old(notifications), ToastKey, id)
    {
      notifications := RemoveId(notifications, ToastKey, id);
    }

    /**
     * The `add` action, corrected: commit the entry and return the id the
     * five-second timer must remove, the stored entry's own id.
     */
    method Add(n: Incoming, now: int) returns (removeAfterTimeout: Option<int>)
      modifies this
      ensures notifications == old(notifications) + [Stamp(n, now)]
      ensures removeAfterTimeout == Some(Stamp(n, now).id)
    {
      AddNotification(n, now);
      removeAfterTimeout := Some(Stamp(n, now).id);
    }
  }
}
