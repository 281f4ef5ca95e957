/**
 * The notification list the stores report to: entries are appended with a
 * fresh id and a defaulted timeout, removed by id, or cleared all at once.
 * The timer that removes a transient entry is not modelled; `AddNotification`
 * returns the delay it would schedule.
 */
module Notifications {
  import opened Base

  datatype Kind = Success | Error | Warning | Info

  /** A button offered on a notification; the callback it runs is not modelled. */
  datatype Action = Action(caption: string, primary: bool)

  /** What a caller passes to `addNotification`: everything but the id; absent members are `None`. */
  datatype NotificationInput = NotificationInput(
    kind: Kind,
    title: string,
    message: string,
    actions: Option<seq<Action>>,
    persistent: Option<bool>,
    timeout: Option<real>)

  datatype Notification = Notification(
    id: string,
    kind: Kind,
    title: string,
    message: string,
    actions: Option<seq<Action>>,
    persistent: Option<bool>,
    timeout: real)

  const DEFAULT_TIMEOUT: real := 5000.0
  const WARNING_TIMEOUT: real := 7000.0

  /** `notification.persistent` is truthy. */
  predicate IsPersistent(input: NotificationInput) {
    input.persistent == Some(true)
  }

  /**
   * `{ id, timeout: persistent ? 0 : 5000, ...notification }`: the spread comes
   * last, so a timeout given by the caller wins over the default.
   */
  function Stamped(input: NotificationInput, id: string): (n: Notification)
    ensures n.id == id && n.kind == input.kind && n.title == input.title && n.message == input.message
    ensures n.actions == input.actions && n.persistent == input.persistent
    ensures n.timeout == (if input.timeout.Some? then input.timeout.value
                          else if IsPersistent(input) then 0.0 else DEFAULT_TIMEOUT)
  {
    var defaultTimeout := if IsPersistent(input) then 0.0 else DEFAULT_TIMEOUT;
    Notification(id, input.kind, input.title, input.message, input.actions, input.persistent,
                 if input.timeout.Some? then input.timeout.value else defaultTimeout)
  }

  /** The delay after which the entry removes itself, when it does: not persistent and a non-zero timeout. */
  function RemovalDelay(input: NotificationInput, n: Notification): Option<real> {
    if !IsPersistent(input) && n.timeout != 0.0 then Some(n.timeout) else None
  }

  /**
   * An entry is removed automatically exactly when it is not persistent and
   * was not given a zero timeout: the default timeout of a transient entry is never zero.
   */
  lemma AutoRemovalIffTransient(input: NotificationInput, id: string)
    ensures RemovalDelay(input, Stamped(input, id)).Some? <==>
              !IsPersistent(input) && input.timeout != Some(0.0)
    ensures RemovalDelay(input, Stamped(input, id)).Some? ==>
              RemovalDelay(input, Stamped(input, id)).value ==
                (if input.timeout.Some? then input.timeout.value else DEFAULT_TIMEOUT)
  {
  }

  function SuccessInput(title: string, message: string, timeout: real := DEFAULT_TIMEOUT): NotificationInput {
    NotificationInput(Success, title, message, None, None, Some(timeout))
  }

  function ErrorInput(title: string, message: string, actions: Option<seq<Action>>): NotificationInput {
    NotificationInput(Error, title, message, actions, Some(true), None)
  }

  function WarningInput(title: string, message: string, timeout: real := WARNING_TIMEOUT): NotificationInput {
    NotificationInput(Warning, title, message, None, None, Some(timeout))
  }

  function InfoInput(title: string, message: string, timeout: real := DEFAULT_TIMEOUT): NotificationInput {
    NotificationInput(Info, title, message, None, None, Some(timeout))
  }

  /** `showError`: a persistent error with timeout 0 that carries the given actions and never removes itself. */
  lemma ErrorNotificationShape(title: string, message: string, actions: Option<seq<Action>>, id: string)
    ensures var input := ErrorInput(title, message, actions);
            && Stamped(input, id) == Notification(id, Error, title, message, actions, Some(true), 0.0)
            && RemovalDelay(input, Stamped(input, id)) == None
  {
  }

  /**
   * `showSuccess`, `showWarning` and `showInfo` with their default timeouts:
   * transient entries removed after 5000, 7000 and 5000 milliseconds.
   */
  lemma TransientNotificationShapes(title: string, message: string, id: string)
    ensures var n := Stamped(SuccessInput(title, message), id);
            n.kind == Success && n.persistent == None && n.timeout == 5000.0
            && RemovalDelay(SuccessInput(title, message), n) == Some(5000.0)
    ensures var n := Stamped(WarningInput(title, message), id);
            n.kind == Warning && n.persistent == None && n.timeout == 7000.0
            && RemovalDelay(WarningInput(title, message), n) == Some(7000.0)
    ensures var n := Stamped(InfoInput(title, message), id);
            n.kind == Info && n.persistent == None && n.timeout == 5000.0
            && RemovalDelay(InfoInput(title, message), n) == Some(5000.0)
  {
  }

  /** Matches the entries with id `id`. */
  function HasId(id: string): Notification -> bool {
    (n: Notification) => n.id == id
  }

  /** `findIndex` of the id, then `splice(index, 1)` when found. */
  function RemoveFirst(s: seq<Notification>, id: string): seq<Notification> {
    match FindFirst(s, HasId(id))
    case None => s
    case Some(i) => s[..i] + s[i + 1..]
  }

  /** Removing an id that no entry has changes nothing. */
  lemma RemoveAbsentId(s: seq<Notification>, id: string)
    requires forall j :: 0 <= j < |s| ==> s[j].id != id
    ensures RemoveFirst(s, id) == s
  {
    assert forall j :: 0 <= j < |s| ==> !HasId(id)(s[j]);
  }

  /**
   * Removing a present id deletes exactly the first entry with that id: the
   * entries before it and after it stay, in order.
   */
  lemma RemovePresentId(s: seq<Notification>, id: string, i: nat)
    requires i < |s| && s[i].id == id
    requires forall j :: 0 <= j < i ==> s[j].id != id
    ensures |RemoveFirst(s, id)| == |s| - 1
    ensures forall j :: 0 <= j < i ==> RemoveFirst(s, id)[j] == s[j]
    ensures forall j :: i <= j < |s| - 1 ==> RemoveFirst(s, id)[j] == s[j + 1]
    ensures multiset(RemoveFirst(s, id)) + multiset{s[i]} == multiset(s)
  {
    assert FindFirst(s, HasId(id)) == Some(i) by {
      assert HasId(id)(s[i]);
      assert forall j :: 0 <= j < i ==> !HasId(id)(s[j]);
    }
    var r := s[..i] + s[i + 1..];
    assert RemoveFirst(s, id) == r;
    assert multiset(r) + multiset{s[i]} == multiset(s) by {
      assert s == s[..i] + [s[i]] + s[i + 1..];
    }
  }

  /** Adding an entry under an id no entry has, then removing that id, restores the list. */
  lemma AddThenRemove(s: seq<Notification>, input: NotificationInput, id: string)
    requires forall j :: 0 <= j < |s| ==> s[j].id != id
    ensures RemoveFirst(s + [Stamped(input, id)], id) == s
  {
    var t := s + [Stamped(input, id)];
    RemovePresentId(t, id, |s|);
    assert RemoveFirst(t, id) == s;
  }

  /** The shared list of notifications on display. */
  class NotificationList {
    var notifications: seq<Notification>

    constructor()
      ensures notifications == []
    {
      notifications := [];
    }

    /**
     * `addNotification`: appends one entry under the fresh id `freshId`, keeps
     * the earlier entries, returns the id and the delay of its automatic removal.
     */
    method AddNotification(input: NotificationInput, freshId: string) returns (id: string, removalAfter: Option<real>)
      modifies this
      ensures notifications == old(notifications) + [Stamped(input, freshId)]
      ensures id == freshId
      ensures removalAfter == RemovalDelay(input, Stamped(input, freshId))
    {
      id := freshId;
      var n := Stamped(input, id);
      notifications := notifications + [n];
      removalAfter := RemovalDelay(input, n);
    }

    /** `removeNotification`: deletes the first entry with the id, if any. */
    method RemoveNotification(id: string)
      modifies this
      ensures notifications == RemoveFirst(old(notifications), id)
    {
      var index := FindFirst(notifications, HasId(id));
      if index.Some? {
        notifications := notifications[..index.value] + notifications[index.value + 1..];
      }
    }

    /** `clearAll` */
    method ClearAll()
      modifies this
      ensures notifications == []
    {
      notifications := [];
    }

    method ShowSuccess(title: string, message: string, freshId: string, timeout: real := DEFAULT_TIMEOUT)
      returns (id: string)
      modifies this
      ensures notifications == old(notifications) + [Stamped(SuccessInput(title, message, timeout), freshId)]
      ensures id == freshId
    {
      var removalAfter;
      id, removalAfter := AddNotification(SuccessInput(title, message, timeout), freshId);
    }

    method ShowError(title: string, message: string, actions: Option<seq<Action>>, freshId: string)
      returns (id: string)
      modifies this
      ensures notifications == old(notifications) + [Stamped(ErrorInput(title, message, actions), freshId)]
      ensures id == freshId
    {
      var removalAfter;
      id, removalAfter := AddNotification(ErrorInput(title, message, actions), freshId);
    }

    method ShowWarning(title: string, message: string, freshId: string, timeout: real := WARNING_TIMEOUT)
      returns (id: string)
      modifies this
      ensures notifications == old(notifications) + [Stamped(WarningInput(title, message, timeout), freshId)]
      ensures id == freshId
    {
      var removalAfter;
      id, removalAfter := AddNotification(WarningInput(title, message, timeout), freshId);
    }

    method ShowInfo(title: string, message: string, freshId: string, timeout: real := DEFAULT_TIMEOUT)
      returns (id: string)
      modifies this
      ensures notifications == old(notifications) + [Stamped(InfoInput(title, message, timeout), freshId)]
      ensures id == freshId
    {
      var removalAfter;
      id, removalAfter := AddNotification(InfoInput(title, message, timeout), freshId);
    }
  }
}
