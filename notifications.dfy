/**
 * The notification centre: notifications generated from the deals (pending
 * funding, funded today, high value), merged into the existing list without
 * repeating an id, the list operations (mark read, mark all read, remove),
 * the badge counts, and the toast for the first unread high-priority entry.
 */
module Notifications {

  import opened Wrappers
  import opened Seqs
  import opened Deals

  /** The ids `unfunded-<id>`, `funded-<id>` and `high-value-<id>`, kept apart as constructors. */
  datatype NoteId = UnfundedId(dealId: nat) | FundedTodayId(dealId: nat) | HighValueId(dealId: nat)

  /** The notification `type`, which is also the toast severity. */
  datatype Kind = Warning | Success | Info

  datatype Priority = High | Medium | Low

  /** A notification; title and message are display text. */
  datatype Notification = Notification(
    id: NoteId,
    kind: Kind,
    dealId: nat,
    timestamp: int,
    read: bool,
    priority: Priority)

  /** The three checks the generation effect runs, one loop each. */
  datatype Check = PendingCheck | FundedTodayCheck | HighValueCheck

  /** Days from the deal date to `today`; only used when the deal date is present. */
  function PendingFor(d: Deal, today: int): int
    requires d.dealDate.Some?
  {
    today - d.dealDate.value
  }

  /** Whether a check produces a notification for a deal. */
  predicate Triggers(c: Check, d: Deal, today: int) {
    match c
    case PendingCheck => d.fundedDate.None? && d.dealDate.Some? && PendingFor(d, today) > 7
    case FundedTodayCheck => d.fundedDate.Some? && d.fundedDate.value == today
    case HighValueCheck => d.amount.Some? && d.amount.value > 50000.0 && d.fundedDate.None?
  }

  /** The notification a check produces for a deal, stamped `today` and unread. */
  function NoteFor(c: Check, d: Deal, today: int): Notification
    requires Triggers(c, d, today)
  {
    match c
    case PendingCheck =>
      Notification(UnfundedId(d.id), Warning, d.id, today, false, if PendingFor(d, today) > 14 then High else Medium)
    case FundedTodayCheck => Notification(FundedTodayId(d.id), Success, d.id, today, false, Low)
    case HighValueCheck => Notification(HighValueId(d.id), Info, d.id, today, false, Medium)
  }

  /** One check's notifications, in deal order. */
  function CheckNotes(deals: seq<Deal>, today: int, c: Check): seq<Notification> {
    if deals == [] then []
    else
      var q, last := deals[..|deals| - 1], deals[|deals| - 1];
      if Triggers(c, last, today) then CheckNotes(q, today, c) + [NoteFor(c, last, today)] else CheckNotes(q, today, c)
  }

  /** `newNotifications`: the pending, then the funded-today, then the high-value ones. */
  function Generated(deals: seq<Deal>, today: int): seq<Notification> {
    CheckNotes(deals, today, PendingCheck) + CheckNotes(deals, today, FundedTodayCheck)
      + CheckNotes(deals, today, HighValueCheck)
  }

  /** One `deals.forEach` loop of the generation effect. */
  method RunCheck(deals: seq<Deal>, today: int, c: Check, acc: seq<Notification>) returns (out: seq<Notification>)
    ensures out == acc + CheckNotes(deals, today, c)
  {
    out := acc;
    for k := 0 to |deals|
      invariant out == acc + CheckNotes(deals[..k], today, c)
    {
      var deal := deals[k];
      if Triggers(c, deal, today) {
        out := out + [NoteFor(c, deal, today)];
      }
      assert deals[..k + 1][..k] == deals[..k];
    }
    assert deals[..|deals|] == deals;
  }

  /** The generation effect's three loops. */
  method GenerateNotifications(deals: seq<Deal>, today: int) returns (incoming: seq<Notification>)
    ensures incoming == Generated(deals, today)
  {
    incoming := RunCheck(deals, today, PendingCheck, []);
    incoming := RunCheck(deals, today, FundedTodayCheck, incoming);
    incoming := RunCheck(deals, today, HighValueCheck, incoming);
  }

  /** A check's notifications are exactly those of the deals it triggers on. */
  lemma {:induction false} CheckNotesMember(deals: seq<Deal>, today: int, c: Check, n: Notification)
    ensures n in CheckNotes(deals, today, c) <==>
              exists d | d in deals :: Triggers(c, d, today) && n == NoteFor(c, d, today)
  {
    if deals != [] {
      var q, last := deals[..|deals| - 1], deals[|deals| - 1];
      CheckNotesMember(q, today, c, n);
      assert deals == q + [last];
    }
  }

  lemma GeneratedMember(deals: seq<Deal>, today: int, c: Check, d: Deal)
    requires d in deals && Triggers(c, d, today)
    ensures NoteFor(c, d, today) in Generated(deals, today)
  {
    CheckNotesMember(deals, today, c, NoteFor(c, d, today));
  }

  /**
   * The generation rules: an unfunded deal more than 7 days old gets a pending
   * notification, of high priority exactly when more than 14 days old; an
   * unfunded deal over 50000 gets a high-value one; a deal funded today gets
   * a funded one.
   */
  lemma GenerationRules(deals: seq<Deal>, today: int, d: Deal)
    requires d in deals
    ensures d.fundedDate.None? && d.dealDate.Some? && today - d.dealDate.value > 7 ==>
              exists n | n in Generated(deals, today) :: n.id == UnfundedId(d.id)
                && (n.priority == High <==> today - d.dealDate.value > 14)
    ensures d.amount.Some? && d.amount.value > 50000.0 && d.fundedDate.None? ==>
              exists n | n in Generated(deals, today) :: n.id == HighValueId(d.id) && n.priority == Medium
    ensures d.fundedDate == Some(today) ==>
              exists n | n in Generated(deals, today) :: n.id == FundedTodayId(d.id) && n.priority == Low
  {
    if Triggers(PendingCheck, d, today) {
      GeneratedMember(deals, today, PendingCheck, d);
    }
    if Triggers(HighValueCheck, d, today) {
      GeneratedMember(deals, today, HighValueCheck, d);
    }
    if Triggers(FundedTodayCheck, d, today) {
      GeneratedMember(deals, today, FundedTodayCheck, d);
    }
  }

  /** Conversely, every generated notification comes from a deal its check triggers on, and is identified by it. */
  lemma GeneratedSource(deals: seq<Deal>, today: int, n: Notification)
    requires n in Generated(deals, today)
    ensures exists c, d | d in deals :: Triggers(c, d, today) && n == NoteFor(c, d, today)
    ensures !n.read && n.timestamp == today
    ensures n.id.UnfundedId? ==>
              exists d | d in deals :: (d.id == n.id.dealId && d.fundedDate.None?
                && d.dealDate.Some? && today - d.dealDate.value > 7)
    ensures n.id.HighValueId? ==>
              exists d | d in deals :: (d.id == n.id.dealId && d.fundedDate.None?
                && d.amount.Some? && d.amount.value > 50000.0)
    ensures n.priority == High ==> n.id.UnfundedId?
  {
    var c: Check;
    if n in CheckNotes(deals, today, PendingCheck) {
      c := PendingCheck;
    } else if n in CheckNotes(deals, today, FundedTodayCheck) {
      c := FundedTodayCheck;
    } else {
      c := HighValueCheck;
    }
    CheckNotesMember(deals, today, c, n);
  }

  // ===================================================================
  // List operations
  // ===================================================================

  function Ids(ns: seq<Notification>): (r: seq<NoteId>)
    ensures |r| == |ns|
    ensures forall i | 0 <= i < |ns| :: r[i] == ns[i].id
  {
    if ns == [] then [] else Ids(ns[..|ns| - 1]) + [ns[|ns| - 1].id]
  }

  /** `[...prev, ...newNotifications.filter(n => !existingIds.includes(n.id))]`. */
  function Merge(prev: seq<Notification>, incoming: seq<Notification>): seq<Notification> {
    var existing := Ids(prev);
    prev + Filter(incoming, (n: Notification) => n.id !in existing)
  }

  /**
   * The merge keeps the previous list as a prefix, and after it exactly the
   * new notifications whose id is not already present; with distinct ids on
   * both sides the result has distinct ids.
   */
  lemma MergeSpec(prev: seq<Notification>, incoming: seq<Notification>, n: Notification)
    ensures |Merge(prev, incoming)| >= |prev| && Merge(prev, incoming)[..|prev|] == prev
    ensures n in Merge(prev, incoming)[|prev|..] <==> n in incoming && n.id !in Ids(prev)
  {
    var existing := Ids(prev);
    var added := Filter(incoming, (x: Notification) => x.id !in existing);
    assert Merge(prev, incoming)[|prev|..] == added;
    FilterMember(incoming, (x: Notification) => x.id !in existing, n);
  }

  /** A merge of a list that already holds all the new ids changes nothing. */
  lemma MergeKnown(prev: seq<Notification>, incoming: seq<Notification>)
    requires forall i | 0 <= i < |incoming| :: incoming[i].id in Ids(prev)
    ensures Merge(prev, incoming) == prev
  {
    var existing := Ids(prev);
    FilterNone(incoming, (x: Notification) => x.id !in existing);
  }

  /** Distinct ids stay distinct through a merge. */
  lemma MergeDistinct(prev: seq<Notification>, incoming: seq<Notification>)
    requires Distinct(Ids(prev)) && Distinct(Ids(incoming))
    ensures Distinct(Ids(Merge(prev, incoming)))
  {
    var existing := Ids(prev);
    var p := (x: Notification) => x.id !in existing;
    var added := Filter(incoming, p);
    var m := Merge(prev, incoming);
    FilterPreservesDistinctIds(incoming, p);
    forall i, j | 0 <= i < j < |m| ensures Ids(m)[i] != Ids(m)[j] {
      if j >= |prev| {
        assert m[j] == added[j - |prev|];
        FilterMember(incoming, p, m[j]);
        if i >= |prev| {
          assert m[i] == added[i - |prev|];
        } else {
          assert m[i] == prev[i];
          assert Ids(prev)[i] == m[i].id;
        }
      } else {
        assert m[i] == prev[i] && m[j] == prev[j];
      }
    }
  }

  /** Filtering keeps the ids of a list with distinct ids distinct. */
  lemma {:induction false} FilterPreservesDistinctIds(s: seq<Notification>, p: Notification -> bool)
    requires Distinct(Ids(s))
    ensures Distinct(Ids(Filter(s, p)))
  {
    if s != [] {
      var q, last := s[..|s| - 1], s[|s| - 1];
      assert Ids(q) == Ids(s)[..|s| - 1];
      FilterPreservesDistinctIds(q, p);
      if p(last) {
        var f := Filter(q, p);
        var g := f + [last];
        forall i | 0 <= i < |f| ensures f[i].id != last.id {
          FilterMember(q, p, f[i]);
          var k :| 0 <= k < |q| && q[k] == f[i];
          assert Ids(s)[k] == f[i].id && Ids(s)[|s| - 1] == last.id;
        }
        forall i, j | 0 <= i < j < |g| ensures Ids(g)[i] != Ids(g)[j] {
          if j < |f| {
            assert g[i] == f[i] && g[j] == f[j];
            assert Ids(f)[i] == f[i].id && Ids(f)[j] == f[j].id;
          }
        }
      }
    }
  }

  /** `prev.map(n => n.id === id ? {...n, read: true} : n)`. */
  function MarkRead(ns: seq<Notification>, id: NoteId): seq<Notification> {
    seq(|ns|, i requires 0 <= i < |ns| => if ns[i].id == id then ns[i].(read := true) else ns[i])
  }

  /**
   * Marking one id read changes only the `read` field of the entries with that
   * id; length, order and all other entries stay; doing it twice is doing it once.
   */
  lemma MarkReadSpec(ns: seq<Notification>, id: NoteId)
    ensures |MarkRead(ns, id)| == |ns|
    ensures forall i | 0 <= i < |ns| ::
              (ns[i].id == id ==> MarkRead(ns, id)[i] == ns[i].(read := true))
              && (ns[i].id != id ==> MarkRead(ns, id)[i] == ns[i])
    ensures MarkRead(MarkRead(ns, id), id) == MarkRead(ns, id)
    ensures Ids(MarkRead(ns, id)) == Ids(ns)
  {
  }

  /** `prev.map(n => ({...n, read: true}))`. */
  function MarkAllRead(ns: seq<Notification>): seq<Notification> {
    seq(|ns|, i requires 0 <= i < |ns| => ns[i].(read := true))
  }

  /** `prev.filter(n => n.id !== id)`. */
  function Remove(ns: seq<Notification>, id: NoteId): seq<Notification> {
    Filter(ns, (n: Notification) => n.id != id)
  }

  /** After a removal no entry has that id, and every other entry is kept. */
  lemma RemoveSpec(ns: seq<Notification>, id: NoteId, n: Notification)
    ensures id !in Ids(Remove(ns, id))
    ensures n in Remove(ns, id) <==> n in ns && n.id != id
    ensures id !in Ids(ns) ==> Remove(ns, id) == ns
  {
    var r := Remove(ns, id);
    FilterMember(ns, (x: Notification) => x.id != id, n);
    if id !in Ids(ns) {
      forall i | 0 <= i < |ns| ensures ns[i].id != id {
        assert Ids(ns)[i] == ns[i].id;
      }
      FilterAll(ns, (x: Notification) => x.id != id);
    }
  }

  // ===================================================================
  // Counts and the toast
  // ===================================================================

  predicate Unread(n: Notification) {
    !n.read
  }

  /** An unread high-priority notification: what raises a toast. */
  predicate Urgent(n: Notification) {
    !n.read && n.priority == High
  }

  function UnreadCount(ns: seq<Notification>): nat {
    |Filter(ns, Unread)|
  }

  function HighPriorityCount(ns: seq<Notification>): nat {
    |Filter(ns, Urgent)|
  }

  /** `highPriorityCount <= unreadCount <= length`; everything is read after mark-all-read. */
  lemma CountBounds(ns: seq<Notification>)
    ensures HighPriorityCount(ns) <= UnreadCount(ns) <= |ns|
    ensures |MarkAllRead(ns)| == |ns| && UnreadCount(MarkAllRead(ns)) == 0 && HighPriorityCount(MarkAllRead(ns)) == 0
    ensures Ids(MarkAllRead(ns)) == Ids(ns)
  {
    FilterThen(ns, Unread, (n: Notification) => n.priority == High, Urgent);
    FilterNone(MarkAllRead(ns), Unread);
    FilterNone(MarkAllRead(ns), Urgent);
  }

  /** `notifications.find(n => !n.read && n.priority === 'high')`, as an index. */
  function FirstUrgent(ns: seq<Notification>): Option<nat> {
    FindIndex(ns, Urgent)
  }

  /** The toast: shown open with a notification's message and severity. */
  datatype Toast = Toast(open: bool, about: Option<NoteId>, severity: Kind)

  const ClosedToast: Toast := Toast(false, None, Info)

  /** The toast effect: the first urgent notification opens the toast; without one it is left as it was. */
  function ToastAfter(t: Toast, ns: seq<Notification>): Toast {
    match FirstUrgent(ns)
    case Some(k) => Toast(true, Some(ns[k].id), ns[k].kind)
    case None => t
  }

  /** The toast opens exactly when some notification is urgent, and then for the first one. */
  lemma ToastRule(t: Toast, ns: seq<Notification>)
    ensures (exists i | 0 <= i < |ns| :: Urgent(ns[i])) ==>
              exists i | 0 <= i < |ns| :: Urgent(ns[i]) && (forall j | 0 <= j < i :: !Urgent(ns[j]))
                && ToastAfter(t, ns) == Toast(true, Some(ns[i].id), ns[i].kind)
    ensures (forall i | 0 <= i < |ns| :: !Urgent(ns[i])) ==> ToastAfter(t, ns) == t
  {
    match FirstUrgent(ns)
    case Some(k) =>
      assert Urgent(ns[k]) && (forall j | 0 <= j < k :: !Urgent(ns[j]));
    case None =>
  }

  // ===================================================================
  // The component's state
  // ===================================================================

  /**
   * The notification list and toast. `reported` records the ids handed to
   * the `onMarkAsRead` callback, which exists when `hasOnMarkAsRead`. Every
   * change of the list re-runs the toast effect.
   */
  class NotificationCenter {
    var notifications: seq<Notification>
    var toast: Toast
    var reported: seq<NoteId>
    const hasOnMarkAsRead: bool

    constructor (hasOnMarkAsRead: bool)
      ensures notifications == [] && toast == ClosedToast && reported == []
      ensures this.hasOnMarkAsRead == hasOnMarkAsRead
    {
      notifications := [];
      toast := ClosedToast;
      reported := [];
      this.hasOnMarkAsRead := hasOnMarkAsRead;
    }

    /** The deals changed: generate, merge, then the toast effect. */
    method Refresh(deals: seq<Deal>, today: int)
      modifies this
      ensures notifications == Merge(old(notifications), Generated(deals, today))
      ensures toast == ToastAfter(old(toast), notifications)
      ensures reported == old(reported)
    {
      var incoming := GenerateNotifications(deals, today);
      var existing := Ids(notifications);
      notifications := notifications + Filter(incoming, (n: Notification) => n.id !in existing);
      toast := ToastAfter(toast, notifications);
    }

    /** `markAsRead`: mark the entries with this id read and report the id. */
    method MarkAsRead(id: NoteId)
      modifies this
      ensures notifications == MarkRead(old(notifications), id)
      ensures toast == ToastAfter(old(toast), notifications)
      ensures reported == if hasOnMarkAsRead then old(reported) + [id] else old(reported)
    {
      notifications := MarkRead(notifications, id);
      if hasOnMarkAsRead {
        reported := reported + [id];
      }
      toast := ToastAfter(toast, notifications);
    }

    /** `markAllAsRead`: afterwards nothing is unread, so the toast stays as it was. */
    method MarkAllAsRead()
      modifies this
      ensures notifications == MarkAllRead(old(notifications))
      ensures UnreadCount(notifications) == 0 && |notifications| == |old(notifications)|
      ensures toast == old(toast) && reported == old(reported)
    {
      notifications := MarkAllRead(notifications);
      CountBounds(old(notifications));
      toast := ToastAfter(toast, notifications);
    }

    /** `removeNotification`. */
    method RemoveNotification(id: NoteId)
      modifies this
      ensures notifications == Remove(old(notifications), id)
      ensures toast == ToastAfter(old(toast), notifications)
      ensures reported == old(reported)
    {
      notifications := Remove(notifications, id);
      toast := ToastAfter(toast, notifications);
    }
  }
}
