// The notification bell of the page layout (src/components/Layout.tsx): a list
// of notifications with a read flag, the unread count shown on the badge, and
// the two ways of marking entries read. Each operation computes a new list
// with `map` and replaces the old one.

module Layout {

  /** The layout's own notification record (numeric id, no kind). */
  datatype Notification = Notification(id: int, message: string, read: bool, timestamp: int)

  /** `notifications.filter(n => !n.read).length`. */
  function UnreadCount(ns: seq<Notification>): (n: nat)
    ensures n <= |ns|
    ensures n == 0 <==> forall i :: 0 <= i < |ns| ==> ns[i].read
    decreases |ns|
  {
    if ns == [] then 0
    else
      var rest := UnreadCount(ns[1..]);
      assert forall i :: 1 <= i < |ns| ==> ns[i] == ns[1..][i - 1];
      (if ns[0].read then 0 else 1) + rest
  }

  /** The read flags of the list, in order. */
  function ReadFlags(ns: seq<Notification>): (r: seq<bool>)
    ensures |r| == |ns|
    ensures forall i :: 0 <= i < |ns| ==> r[i] == ns[i].read
    decreases |ns|
  {
    if ns == [] then [] else [ns[0].read] + ReadFlags(ns[1..])
  }

  /** The badge counts exactly the entries whose flag is false. */
  lemma {:induction false} UnreadCountIsUnreadEntries(ns: seq<Notification>)
    ensures UnreadCount(ns) == multiset(ReadFlags(ns))[false]
    decreases |ns|
  {
    if ns != [] {
      UnreadCountIsUnreadEntries(ns[1..]);
      assert ReadFlags(ns) == [ns[0].read] + ReadFlags(ns[1..]);
      assert multiset(ReadFlags(ns)) == multiset{ns[0].read} + multiset(ReadFlags(ns[1..]));
    }
  }

  /** `markAsRead(id)`: the entries with that id become read, the others stay as they are. */
  function MarkAsRead(ns: seq<Notification>, id: int): (r: seq<Notification>)
    ensures |r| == |ns|
    ensures forall i :: 0 <= i < |ns| ==> r[i] == if ns[i].id == id then ns[i].(read := true) else ns[i]
    decreases |ns|
  {
    if ns == [] then []
    else [if ns[0].id == id then ns[0].(read := true) else ns[0]] + MarkAsRead(ns[1..], id)
  }

  /** `markAllAsRead()`: every entry becomes read, nothing else changes. */
  function MarkAllAsRead(ns: seq<Notification>): (r: seq<Notification>)
    ensures |r| == |ns|
    ensures forall i :: 0 <= i < |ns| ==> r[i] == ns[i].(read := true)
    decreases |ns|
  {
    if ns == [] then [] else [ns[0].(read := true)] + MarkAllAsRead(ns[1..])
  }

  lemma MarkAsReadIdempotent(ns: seq<Notification>, id: int)
    ensures MarkAsRead(MarkAsRead(ns, id), id) == MarkAsRead(ns, id)
  {
  }

  /** An id that no entry carries leaves the list as it was. */
  lemma MarkAsReadUnknownId(ns: seq<Notification>, id: int)
    requires forall i :: 0 <= i < |ns| ==> ns[i].id != id
    ensures MarkAsRead(ns, id) == ns
  {
  }

  /** Marking two ids read gives the same list in either order. */
  lemma MarkAsReadCommutes(ns: seq<Notification>, a: int, b: int)
    ensures MarkAsRead(MarkAsRead(ns, a), b) == MarkAsRead(MarkAsRead(ns, b), a)
  {
  }

  /** Marking one entry read never raises the count, and lowers it when that entry was unread. */
  lemma {:induction false} MarkAsReadLowersUnread(ns: seq<Notification>, id: int)
    ensures UnreadCount(MarkAsRead(ns, id)) <= UnreadCount(ns)
    ensures (exists i :: 0 <= i < |ns| && ns[i].id == id && !ns[i].read) ==>
      UnreadCount(MarkAsRead(ns, id)) < UnreadCount(ns)
    decreases |ns|
  {
    if ns != [] {
      MarkAsReadLowersUnread(ns[1..], id);
      var r := MarkAsRead(ns, id);
      assert r[1..] == MarkAsRead(ns[1..], id);
      if exists i :: 0 <= i < |ns| && ns[i].id == id && !ns[i].read {
        var i :| 0 <= i < |ns| && ns[i].id == id && !ns[i].read;
        if i > 0 {
          assert ns[1..][i - 1] == ns[i];
        }
      }
    }
  }

  /** After marking everything read the badge shows zero. */
  lemma MarkAllAsReadClearsUnread(ns: seq<Notification>)
    ensures UnreadCount(MarkAllAsRead(ns)) == 0
    ensures UnreadCount(MarkAllAsRead(ns)) <= UnreadCount(ns)
  {
  }

  /** Marking all read subsumes any earlier single mark. */
  lemma MarkAllAfterMarkOne(ns: seq<Notification>, id: int)
    ensures MarkAllAsRead(MarkAsRead(ns, id)) == MarkAllAsRead(ns)
  {
  }
}
