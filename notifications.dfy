/** The notifications screen. The table keeps its own copy of the list and
    writes every new list to the shared notification context as well (its
    `syncState`), so the sidebar sees what the table shows. Each handler
    changes the list only after the notification service accepted the call,
    and delete / clear-all only after the user confirmed. */
module Notifications {
  import opened Wrappers
  import opened Lists

  datatype Notification = Notification(id: string, message: string, read: bool, createdAt: string)

  /** A JavaScript value as far as the table and the sidebar look at it:
      what a response body or the context may hold. Booleans, numbers and
      strings appear as `Scalar`, carrying only their truthiness. */
  datatype Payload =
    | Undefined
    | Null
    | Scalar(truthy: bool)
    | List(items: seq<Notification>)
    | Record(fields: map<string, Payload>)

  predicate Truthy(p: Payload) {
    match p
    case Undefined => false
    case Null => false
    case Scalar(t) => t
    case List(_) => true
    case Record(_) => true
  }

  /** `p?.key`: the field of an object, `undefined` for anything else. */
  function Field(p: Payload, key: string): Payload {
    if p.Record? && key in p.fields then p.fields[key] else Undefined
  }

  /** The list `fetchNotifications` keeps from a response body:
      `data?.notifications || data?.data || (Array.isArray(data) ? data : [])`. */
  function SelectList(data: Payload): (r: Payload)
    ensures Truthy(r)
  {
    var n := Field(data, "notifications");
    if Truthy(n) then n
    else
      var d := Field(data, "data");
      if Truthy(d) then d
      else if data.List? then data
      else List([])
  }

  /** The selection never yields a falsy value: a body without a usable
      field, and one that is not itself an array, gives the empty list. */
  lemma SelectListTruthy(data: Payload)
    ensures Truthy(SelectList(data))
    ensures !Truthy(Field(data, "notifications")) && !Truthy(Field(data, "data")) && !data.List?
      ==> SelectList(data) == List([])
  {
  }

  /** The three response shapes the selection accepts. An empty
      `notifications` array is truthy in JavaScript, so it is kept even when
      `data` holds a non-empty one. */
  lemma SelectListShapes(items: seq<Notification>, other: seq<Notification>)
    ensures SelectList(Record(map["notifications" := List(items), "data" := List(other)])) == List(items)
    ensures SelectList(Record(map["data" := List(items)])) == List(items)
    ensures SelectList(List(items)) == List(items)
    ensures SelectList(Record(map["notifications" := Null, "data" := Scalar(false)])) == List([])
  {
    var m := map["notifications" := Null, "data" := Scalar(false)];
    assert Field(Record(m), "notifications") == Null;
    assert Field(Record(m), "data") == Scalar(false);
  }

  /* ---------------- the list transforms ---------------- */

  function MarkRead(list: seq<Notification>, id: string): (r: seq<Notification>)
    ensures |r| == |list|
  {
    Map(list, (n: Notification) => if n.id == id then n.(read := true) else n)
  }

  function MarkAllRead(list: seq<Notification>): (r: seq<Notification>)
    ensures |r| == |list|
  {
    Map(list, (n: Notification) => n.(read := true))
  }

  function Delete(list: seq<Notification>, id: string): (r: seq<Notification>)
    ensures |r| <= |list|
  {
    Filter(list, (n: Notification) => n.id != id)
  }

  /** Mark-read sets `read` on exactly the entries with that id; ids,
      messages, dates, order and length stay. */
  lemma MarkReadAt(list: seq<Notification>, id: string, i: nat)
    requires i < |list|
    ensures |MarkRead(list, id)| == |list|
    ensures var a, b := list[i], MarkRead(list, id)[i];
      b.id == a.id && b.message == a.message && b.createdAt == a.createdAt
      && b.read == (a.read || a.id == id)
  {
    MapAt(list, (n: Notification) => if n.id == id then n.(read := true) else n, i);
  }

  lemma {:induction false} MarkReadIdempotent(list: seq<Notification>, id: string)
    ensures MarkRead(MarkRead(list, id), id) == MarkRead(list, id)
  {
    var once := MarkRead(list, id);
    forall i | 0 <= i < |list| ensures MarkRead(once, id)[i] == once[i] {
      MarkReadAt(list, id, i);
      MarkReadAt(once, id, i);
    }
  }

  /** Marking an id that is not listed changes nothing. */
  lemma MarkReadAbsentId(list: seq<Notification>, id: string)
    requires forall i :: 0 <= i < |list| ==> list[i].id != id
    ensures MarkRead(list, id) == list
  {
    MapIdentity(list, (n: Notification) => if n.id == id then n.(read := true) else n);
  }

  /** Mark-all-read leaves every entry read and changes nothing else. */
  lemma MarkAllReadAt(list: seq<Notification>, i: nat)
    requires i < |list|
    ensures |MarkAllRead(list)| == |list|
    ensures MarkAllRead(list)[i] == list[i].(read := true) && MarkAllRead(list)[i].read
  {
    MapAt(list, (n: Notification) => n.(read := true), i);
  }

  /** Delete removes exactly the entries with that id and keeps every other
      entry, each as often as it was listed, in their order. */
  lemma DeleteSpec(list: seq<Notification>, id: string, n: Notification)
    ensures IsSubsequence(Delete(list, id), list)
    ensures n in Delete(list, id) <==> n in list && n.id != id
    ensures multiset(Delete(list, id))[n] == if n.id != id then multiset(list)[n] else 0
  {
    var keep := (n: Notification) => n.id != id;
    FilterIsSubsequence(list, keep);
    FilterMultiset(list, keep, n);
    if n in Delete(list, id) {
      FilterSound(list, keep, n);
    }
    if n in list && n.id != id {
      FilterComplete(list, keep, n);
    }
  }

  /** Deleting an id that is not listed changes nothing. */
  lemma DeleteAbsentId(list: seq<Notification>, id: string)
    requires forall i :: 0 <= i < |list| ==> list[i].id != id
    ensures Delete(list, id) == list
  {
    FilterKeepsAll(list, (n: Notification) => n.id != id);
  }

  /** Deleting the same id twice is deleting it once. */
  lemma DeleteIdempotent(list: seq<Notification>, id: string)
    ensures Delete(Delete(list, id), id) == Delete(list, id)
  {
    FilterIdempotent(list, (n: Notification) => n.id != id);
  }

  /* ---------------- the shared copy and the table ---------------- */

  /** The notification context: one list shared by the table and the
      sidebar; it starts as the empty array. */
  class NotificationContext {
    var notifications: Payload

    constructor ()
      ensures notifications == List([])
    {
      notifications := List([]);
    }
  }

  class NotificationTable {
    const context: NotificationContext
    var notifications: Payload

    /** The table's copy is the context's copy. */
    ghost predicate Valid()
      reads this, context
    {
      notifications == context.notifications
    }

    /** The table mounts with an empty list of its own. The context may
        still hold the list of an earlier visit to the page, so the two
        copies agree only once the first fetch has synced them (until then
        the page shows only its loading message), or when the context is
        still empty. */
    constructor (ctx: NotificationContext)
      ensures context == ctx && notifications == List([])
      ensures ctx.notifications == old(ctx.notifications)
      ensures Valid() <==> ctx.notifications == List([])
    {
      context := ctx;
      notifications := List([]);
    }

    /** `syncState`: both copies get the new list. */
    method SyncState(list: Payload)
      modifies this, context
      ensures notifications == list && context.notifications == list && Valid()
    {
      notifications := list;
      context.notifications := list;
    }

    /** `fetchNotifications`: `response` is the body of a successful request,
        `None` a failed one, which empties the list. */
    method FetchNotifications(response: Option<Payload>)
      modifies this, context
      ensures Valid()
      ensures notifications == if response.Some? then SelectList(response.value) else List([])
    {
      if response.Some? {
        SyncState(SelectList(response.value));
      } else {
        SyncState(List([]));
      }
    }

    /** `handleMarkRead`. The transform runs after the service answered;
        a list that is not an array makes it throw inside the same `try`, so
        it is handled like a failed call. */
    method HandleMarkRead(id: string, serviceOk: bool)
      requires Valid()
      modifies this, context
      ensures Valid()
      ensures notifications == if serviceOk && old(notifications).List?
        then List(MarkRead(old(notifications).items, id)) else old(notifications)
    {
      if serviceOk && notifications.List? {
        SyncState(List(MarkRead(notifications.items, id)));
      }
    }

    /** `handleMarkAllRead`. */
    method HandleMarkAllRead(serviceOk: bool)
      requires Valid()
      modifies this, context
      ensures Valid()
      ensures notifications == if serviceOk && old(notifications).List?
        then List(MarkAllRead(old(notifications).items)) else old(notifications)
    {
      if serviceOk && notifications.List? {
        SyncState(List(MarkAllRead(notifications.items)));
      }
    }

    /** `handleDelete`: nothing happens unless the user confirmed. */
    method HandleDelete(id: string, confirmed: bool, serviceOk: bool)
      requires Valid()
      modifies this, context
      ensures Valid()
      ensures notifications == if confirmed && serviceOk && old(notifications).List?
        then List(Delete(old(notifications).items, id)) else old(notifications)
    {
      if !confirmed {
        return;
      }
      if serviceOk && notifications.List? {
        SyncState(List(Delete(notifications.items, id)));
      }
    }

    /** `handleClearAll`: after confirmation and a successful call, empty. */
    method HandleClearAll(confirmed: bool, serviceOk: bool)
      requires Valid()
      modifies this, context
      ensures Valid()
      ensures notifications == if confirmed && serviceOk then List([]) else old(notifications)
    {
      if !confirmed {
        return;
      }
      if serviceOk {
        SyncState(List([]));
      }
    }
  }
}
