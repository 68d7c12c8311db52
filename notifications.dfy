/** The notification list held by the notification context: a derived unread count, marking one
  * or all entries as read, and prepending a new entry. */
module Notifications {
  import opened Seqs

  datatype NotificationType = Info | Warning | Error | Success

  datatype Notification = Notification(
    id: string, title: string, message: string, kind: NotificationType, timestamp: string, read: bool)

  /** The entry as `addNotification` receives it: no id, no timestamp, no read flag. */
  datatype NewNotification = NewNotification(title: string, message: string, kind: NotificationType)

  const MockNotifications: seq<Notification> := [
    Notification("1", "Alerta de Segurança",
      "Tentativa de acesso não autorizado detectada na Área de Pesquisa", Warning, "2024-01-15T10:30:00Z", false),
    Notification("2", "Backup Concluído",
      "Backup automático dos dados foi concluído com sucesso", Success, "2024-01-15T09:15:00Z", false),
    Notification("3", "Manutenção Programada",
      "Sistema de segurança será atualizado às 02:00", Info, "2024-01-15T08:45:00Z", true)
  ]

  function IsUnread(): Notification -> bool {
    (n: Notification) => !n.read
  }

  function HasId(id: string): Notification -> bool {
    (n: Notification) => n.id == id
  }

  function MarkedRead(): Notification -> Notification {
    (n: Notification) => n.(read := true)
  }

  /** `notifications.filter(n => !n.read).length`. */
  function UnreadCount(ns: seq<Notification>): nat {
    |Filter(IsUnread(), ns)|
  }

  /** `markAsRead(id)`: every entry with that id (ids need not be unique) is marked read. */
  function MarkRead(ns: seq<Notification>, id: string): seq<Notification> {
    ReplaceWhere(HasId(id), MarkedRead(), ns)
  }

  /** `markAllAsRead()`. */
  function MarkAllRead(ns: seq<Notification>): seq<Notification> {
    Map(MarkedRead(), ns)
  }

  /** `addNotification(n)`: the new entry, with the given id and timestamp and unread, goes first. */
  function Add(ns: seq<Notification>, n: NewNotification, id: string, timestamp: string): seq<Notification> {
    [Notification(id, n.title, n.message, n.kind, timestamp, false)] + ns
  }

  /** The unread count is the number of entries whose `read` flag is false: zero exactly when every
    * entry is read, and the full length exactly when none is. */
  lemma UnreadCountCounts(ns: seq<Notification>)
    ensures UnreadCount(ns) <= |ns|
    ensures UnreadCount(ns) == 0 <==> forall i :: 0 <= i < |ns| ==> ns[i].read
    ensures UnreadCount(ns) == |ns| <==> forall i :: 0 <= i < |ns| ==> !ns[i].read
  {
    FilterSpec(IsUnread(), ns);
    FilterLengthExact(IsUnread(), ns);
    forall i | 0 <= i < |ns| && !ns[i].read
      ensures UnreadCount(ns) > 0
    {
      assert ns[i] in Filter(IsUnread(), ns);
    }
    if forall i :: 0 <= i < |ns| ==> ns[i].read {
      assert forall i :: 0 <= i < |ns| ==> !IsUnread()(ns[i]);
      FilterNone(IsUnread(), ns);
    }
  }

  /** Marking one id sets `read` on exactly the entries with that id, and keeps every other
    * entry, the order and the length. */
  lemma MarkReadSpec(ns: seq<Notification>, id: string)
    ensures |MarkRead(ns, id)| == |ns|
    ensures forall i :: 0 <= i < |ns| ==>
      MarkRead(ns, id)[i] == if ns[i].id == id then ns[i].(read := true) else ns[i]
  {
    ReplaceWhereSpec(HasId(id), MarkedRead(), ns);
  }

  /** Marking an id that no entry has changes nothing. */
  lemma MarkUnknownIsNoOp(ns: seq<Notification>, id: string)
    requires forall i :: 0 <= i < |ns| ==> ns[i].id != id
    ensures MarkRead(ns, id) == ns
  {
    ReplaceNone(HasId(id), MarkedRead(), ns);
  }

  /** Marking the same id twice is marking it once, and marking never raises the unread count. */
  lemma MarkReadIdempotent(ns: seq<Notification>, id: string)
    ensures MarkRead(MarkRead(ns, id), id) == MarkRead(ns, id)
    ensures UnreadCount(MarkRead(ns, id)) <= UnreadCount(ns)
  {
    var once := MarkRead(ns, id);
    MarkReadSpec(ns, id);
    MarkReadSpec(once, id);
    FilterSpec(IsUnread(), ns);
    UnreadNotMoreThan(once, ns);
  }

  /** When each entry of `a` is the matching entry of `b` or that entry marked read, `a` has no
    * more unread entries than `b`. */
  lemma {:induction false} UnreadNotMoreThan(a: seq<Notification>, b: seq<Notification>)
    requires |a| == |b|
    requires forall i :: 0 <= i < |a| ==> a[i] == b[i] || a[i] == b[i].(read := true)
    ensures UnreadCount(a) <= UnreadCount(b)
  {
    if a != [] {
      UnreadNotMoreThan(a[..|a| - 1], b[..|b| - 1]);
    }
  }

  /** After marking all, nothing is unread; length, order and every field but `read` are kept. */
  lemma MarkAllReadSpec(ns: seq<Notification>)
    ensures |MarkAllRead(ns)| == |ns|
    ensures forall i :: 0 <= i < |ns| ==> MarkAllRead(ns)[i] == ns[i].(read := true)
    ensures UnreadCount(MarkAllRead(ns)) == 0
  {
    MapSpec(MarkedRead(), ns);
    UnreadCountCounts(MarkAllRead(ns));
  }

  /** Marking all twice is marking all once. */
  lemma MarkAllReadIdempotent(ns: seq<Notification>)
    ensures MarkAllRead(MarkAllRead(ns)) == MarkAllRead(ns)
  {
    MarkAllReadSpec(ns);
    MarkAllReadSpec(MarkAllRead(ns));
  }

  /** Adding puts one unread entry in front of the old list, so the unread count grows by one. */
  lemma AddSpec(ns: seq<Notification>, n: NewNotification, id: string, timestamp: string)
    ensures |Add(ns, n, id, timestamp)| == |ns| + 1
    ensures Add(ns, n, id, timestamp)[1..] == ns
    ensures var first := Add(ns, n, id, timestamp)[0];
      !first.read && first.id == id && first.timestamp == timestamp &&
      first.title == n.title && first.message == n.message && first.kind == n.kind
    ensures UnreadCount(Add(ns, n, id, timestamp)) == UnreadCount(ns) + 1
  {
    var first := Notification(id, n.title, n.message, n.kind, timestamp, false);
    FilterAppend(IsUnread(), [first], ns);
    assert [first] == [] + [first];
  }

  /** The initial list has three entries, two of them unread. */
  lemma InitialList()
    ensures |MockNotifications| == 3
    ensures UnreadCount(MockNotifications) == 2
  {
    var m := MockNotifications;
    var p := IsUnread();
    assert m == [m[0]] + [m[1]] + [m[2]];
    FilterAppend(p, [m[0]] + [m[1]], [m[2]]);
    FilterAppend(p, [m[0]], [m[1]]);
    assert [m[0]] == [] + [m[0]] && [m[1]] == [] + [m[1]] && [m[2]] == [] + [m[2]];
  }

  /** The provider's state: the list that the three operations replace. */
  class NotificationCenter {
    var notifications: seq<Notification>

    constructor()
      ensures notifications == MockNotifications
    {
      notifications := MockNotifications;
    }

    function Unread(): nat
      reads this
    {
      UnreadCount(notifications)
    }

    method MarkAsRead(id: string)
      modifies this
      ensures notifications == MarkRead(old(notifications), id)
    {
      notifications := MarkRead(notifications, id);
    }

    method MarkAllAsRead()
      modifies this
      ensures notifications == MarkAllRead(old(notifications))
      ensures Unread() == 0
    {
      notifications := MarkAllRead(notifications);
      MarkAllReadSpec(old(notifications));
    }

    /** `id` and `timestamp` stand for `Date.now().toString()` and `new Date().toISOString()`. */
    method AddNotification(n: NewNotification, id: string, timestamp: string)
      modifies this
      ensures notifications == Add(old(notifications), n, id, timestamp)
      ensures Unread() == old(Unread()) + 1
    {
      AddSpec(notifications, n, id, timestamp);
      notifications := Add(notifications, n, id, timestamp);
    }
  }
}
