/** The navigation sidebar: six fixed links, the one whose address is the
    current path highlighted, and a red dot on the Notifications link while
    the shared notification list holds unread entries. */
module Sidebar {
  import opened Lists
  import opened Notifications

  datatype Link = Link(name: string, href: string)

  const Links: seq<Link> := [
    Link("Dashboard", "/dashboard"),
    Link("Categories", "/dashboard/categories"),
    Link("Providers", "/dashboard/providers"),
    Link("Appointments", "/dashboard/appointments"),
    Link("Notifications", "/dashboard/notifications"),
    Link("Users", "/dashboard/users")
  ]

  function Unread(list: seq<Notification>): seq<Notification> {
    Filter(list, (n: Notification) => !n.read)
  }

  /** `unreadCount`: the entries not yet read when the context holds an
      array, zero for any other value. */
  function UnreadCount(p: Payload): (c: nat)
    ensures p.List? ==> c <= |p.items|
  {
    if p.List? then |Unread(p.items)| else 0
  }

  predicate IsActive(pathname: string, link: Link) {
    pathname == link.href
  }

  predicate ShowsDot(link: Link, unreadCount: nat) {
    link.name == "Notifications" && unreadCount > 0
  }

  /** The unread entries are the listed ones whose `read` is false, each
      as often as it is listed, in list order. */
  lemma UnreadMembers(list: seq<Notification>, n: Notification)
    ensures IsSubsequence(Unread(list), list)
    ensures n in Unread(list) <==> n in list && !n.read
    ensures multiset(Unread(list))[n] == if !n.read then multiset(list)[n] else 0
  {
    var keep := (n: Notification) => !n.read;
    FilterIsSubsequence(list, keep);
    FilterMultiset(list, keep, n);
    if n in Unread(list) {
      FilterSound(list, keep, n);
    }
    if n in list && !n.read {
      FilterComplete(list, keep, n);
    }
  }

  /** The count never exceeds the list, and is zero exactly when every
      entry is read; anything but an array counts as zero. */
  lemma UnreadCountSpec(p: Payload)
    ensures p.List? ==> UnreadCount(p) <= |p.items|
    ensures p.List? ==> (UnreadCount(p) == 0 <==> forall i :: 0 <= i < |p.items| ==> p.items[i].read)
    ensures !p.List? ==> UnreadCount(p) == 0
  {
    if p.List? {
      var keep := (n: Notification) => !n.read;
      if UnreadCount(p) == 0 {
        forall i | 0 <= i < |p.items| ensures p.items[i].read {
          if !p.items[i].read {
            FilterComplete(p.items, keep, p.items[i]);
          }
        }
      }
      if forall i :: 0 <= i < |p.items| ==> p.items[i].read {
        FilterKeepsNone(p.items, keep);
      }
    }
  }

  /** Mark-all-read clears the count, and so the dot. */
  lemma MarkAllReadClearsCount(list: seq<Notification>)
    ensures UnreadCount(List(MarkAllRead(list))) == 0
  {
    forall i | 0 <= i < |list| ensures MarkAllRead(list)[i].read {
      MarkAllReadAt(list, i);
    }
    UnreadCountSpec(List(MarkAllRead(list)));
  }

  /** Marking one notification read never raises the count. */
  lemma {:induction false} MarkReadLowersCount(list: seq<Notification>, id: string)
    ensures |Unread(MarkRead(list, id))| <= |Unread(list)|
  {
    if list != [] {
      var f := (n: Notification) => if n.id == id then n.(read := true) else n;
      assert MarkRead(list, id) == [f(list[0])] + MarkRead(list[1..], id);
      assert MarkRead(list, id)[1..] == MarkRead(list[1..], id);
      MarkReadLowersCount(list[1..], id);
    }
  }

  /** No two links share an address, so at most one is highlighted. */
  lemma AtMostOneActive(pathname: string, i: nat, j: nat)
    requires i < |Links| && j < |Links|
    requires IsActive(pathname, Links[i]) && IsActive(pathname, Links[j])
    ensures i == j
  {
  }

  /** The dot is shown on one link only, the Notifications link, and only
      while something is unread. */
  lemma DotOnlyOnNotifications(unreadCount: nat, i: nat)
    requires i < |Links|
    ensures ShowsDot(Links[i], unreadCount) <==> i == 4 && unreadCount > 0
  {
  }
}
