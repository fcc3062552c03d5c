/**
 * The toast queue: notifications are appended when shown and filtered out
 * by id when closed.  A stored preference can switch off success toasts;
 * error toasts are always shown.  The random id and the auto-close timer
 * are outside the model: the id is a parameter.
 */
module Notifications {
  import opened Prefs

  datatype Kind = Success | Error

  datatype Notification = Notification(id: string, kind: Kind, message: string)

  /** A toast a handler asks for: `showSuccess(message)` or `showError(message)`. */
  datatype Notice = Notice(kind: Kind, message: string)

  /**
   * `prefs.enableNotifications !== false`, read inside a `try`: a read that
   * throws is ignored, so the toast is shown.
   */
  predicate SuccessEnabled(stored: Stored)
  {
    Property(stored, "enableNotifications") != Value(JBool(false))
  }

  /** Whether `addNotification(kind, ..)` appends. */
  predicate Shown(kind: Kind, stored: Stored)
  {
    kind == Error || SuccessEnabled(stored)
  }

  /** `list.filter(n => n.id !== id)`. */
  function WithoutId(ns: seq<Notification>, id: string): (r: seq<Notification>)
    ensures |r| <= |ns|
    ensures forall n :: n in r <==> n in ns && n.id != id
  {
    if ns == [] then []
    else (if ns[0].id == id then [] else [ns[0]]) + WithoutId(ns[1..], id)
  }

  /** Success toasts are dropped exactly when the stored preference is the literal `false`. */
  lemma SuccessDroppedExactly(stored: Stored)
    ensures !SuccessEnabled(stored) <==>
      stored.Parsed? && stored.doc.JObject? && "enableNotifications" in stored.doc.fields
      && stored.doc.fields["enableNotifications"] == JBool(false)
  {
  }

  /** Nothing stored, unreadable text and a preference that is not `false` all leave toasts on. */
  lemma MissingPrefsEnable(stored: Stored)
    requires stored == NothingStored || stored == Malformed || stored == Parsed(JNull)
             || (stored.Parsed? && !stored.doc.JObject?)
    ensures SuccessEnabled(stored) && Shown(Success, stored)
  {
  }

  /** Filtering by id works piece by piece, so the kept entries stay in their order. */
  lemma {:induction false} WithoutIdAppend(a: seq<Notification>, b: seq<Notification>, id: string)
    ensures WithoutId(a + b, id) == WithoutId(a, id) + WithoutId(b, id)
  {
    if a != [] {
      assert (a + b)[1..] == a[1..] + b;
      WithoutIdAppend(a[1..], b, id);
    } else {
      assert a + b == b;
    }
  }

  /** Closing an id that is not in the list changes nothing. */
  lemma {:induction false} WithoutUnknownId(ns: seq<Notification>, id: string)
    requires forall n :: n in ns ==> n.id != id
    ensures WithoutId(ns, id) == ns
  {
    if ns != [] {
      assert ns[0] in ns;
      assert forall n :: n in ns[1..] ==> n in ns;
      WithoutUnknownId(ns[1..], id);
      assert [ns[0]] + ns[1..] == ns;
    }
  }

  /** The toast queue of the provider. */
  class NotificationCenter {
    var notifications: seq<Notification>

    constructor()
      ensures notifications == []
    {
      notifications := [];
    }

    /** `addNotification(kind, message)` with the given id and stored preferences. */
    method Add(kind: Kind, message: string, id: string, stored: Stored)
      modifies this
      ensures Shown(kind, stored) ==> notifications == old(notifications) + [Notification(id, kind, message)]
      ensures !Shown(kind, stored) ==> notifications == old(notifications)
    {
      var read := Property(stored, "enableNotifications");
      if read != Throws {
        var enabled := read != Value(JBool(false));
        if kind == Success && !enabled {
          return;
        }
      }
      notifications := notifications + [Notification(id, kind, message)];
    }

    /** `removeNotification(id)`. */
    method Remove(id: string)
      modifies this
      ensures notifications == WithoutId(old(notifications), id)
    {
      notifications := WithoutId(notifications, id);
    }

    method ShowSuccess(message: string, id: string, stored: Stored)
      modifies this
      ensures SuccessEnabled(stored) ==> notifications == old(notifications) + [Notification(id, Success, message)]
      ensures !SuccessEnabled(stored) ==> notifications == old(notifications)
    {
      Add(Success, message, id, stored);
    }

    /** Error toasts do not depend on the preference. */
    method ShowError(message: string, id: string, stored: Stored)
      modifies this
      ensures notifications == old(notifications) + [Notification(id, Error, message)]
    {
      Add(Error, message, id, stored);
    }
  }
}
