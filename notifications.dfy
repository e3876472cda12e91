/** The notification list: what it loads, how a live notification is
    prepended, how items are marked read, and the split into alerts and
    other notifications. */
module Notifications {
  import opened Wrappers
  import opened Strings
  import opened Seqs
  import opened Payloads

  datatype Notification = Notification(
    id: Option<string>, kind: Option<string>, title: Option<string>,
    createdAt: Option<string>, isRead: Option<bool>)

  /** `isAlertType`: a present type equal to "alert" ignoring case. */
  predicate IsAlertType(t: Option<string>) {
    Truthy(t) && Lower(t.value) == "alert"
  }

  /** The type test accepts every capitalisation of "alert" and nothing else. */
  lemma IsAlertTypeCases()
    ensures IsAlertType(Some("alert")) && IsAlertType(Some("ALERT")) && IsAlertType(Some("Alert"))
    ensures !IsAlertType(None) && !IsAlertType(Some("")) && !IsAlertType(Some("alerts"))
  {
    assert Lower("ALERT") == "alert";
    assert Lower("Alert") == "alert";
    assert |Lower("alerts")| == 6;
  }

  /** The initial load: with a token, the server's list (or none). */
  function Load(items: seq<Notification>, token: bool, resp: Response<seq<Notification>>): (r: seq<Notification>)
    ensures !token || resp.Failed? ==> r == items
    ensures token && resp.Ok? ==> r == resp.data.GetOr([])
  {
    if !token || resp.Failed? then items else resp.data.GetOr([])
  }

  /** `{ createdAt: now, isRead: false, ...notif }` put in front. */
  function Prepend(items: seq<Notification>, notif: Notification, now: string): (r: seq<Notification>)
    ensures |r| == |items| + 1 && r[1..] == items
    ensures r[0].id == notif.id && r[0].kind == notif.kind && r[0].title == notif.title
    ensures r[0].createdAt == (if notif.createdAt.Some? then notif.createdAt else Some(now))
    ensures r[0].isRead == (if notif.isRead.Some? then notif.isRead else Some(false))
  {
    [notif.(createdAt := Some(notif.createdAt.GetOr(now)), isRead := Some(notif.isRead.GetOr(false)))] + items
  }

  /** A prepended notification keeps its own timestamp and read flag and is
      otherwise stamped now and unread. */
  lemma PrependDefaults(items: seq<Notification>, notif: Notification, now: string)
    ensures notif.createdAt.None? && notif.isRead.None? ==>
      Prepend(items, notif, now)[0] == notif.(createdAt := Some(now), isRead := Some(false))
    ensures notif.createdAt.Some? && notif.isRead.Some? ==> Prepend(items, notif, now)[0] == notif
  {
  }

  function MarkRead(n: Notification): Notification {
    n.(isRead := Some(true))
  }

  /** After a successful PUT, every item with the notification's id is
      flagged read; without a token or after a failure nothing changes. */
  function MarkAsReadById(items: seq<Notification>, id: string, token: bool, putOk: bool): (r: seq<Notification>)
    ensures |r| == |items|
    ensures token && putOk ==> forall i :: 0 <= i < |r| ==>
      r[i] == (if items[i].id == Some(id) then MarkRead(items[i]) else items[i])
    ensures !(token && putOk) ==> r == items
  {
    if token && putOk then
      seq(|items|, i requires 0 <= i < |items| => if items[i].id == Some(id) then MarkRead(items[i]) else items[i])
    else items
  }

  /** Marking by id flags exactly the items with that id, changes nothing but
      the read flag, and doing it twice is the same as once. */
  lemma MarkAsReadByIdSpec(items: seq<Notification>, id: string)
    ensures var r := MarkAsReadById(items, id, true, true);
      && (forall i :: 0 <= i < |r| && items[i].id == Some(id) ==> r[i].isRead == Some(true))
      && (forall i :: 0 <= i < |r| ==> r[i].(isRead := items[i].isRead) == items[i])
      && MarkAsReadById(r, id, true, true) == r
  {
    var r := MarkAsReadById(items, id, true, true);
    var r2 := MarkAsReadById(r, id, true, true);
    assert forall i :: 0 <= i < |r| ==> r2[i] == r[i];
  }

  /** Without an id only the item pressed, here the one at index `k`, is
      flagged, and no request is sent. */
  function MarkAsReadLocal(items: seq<Notification>, k: int): (r: seq<Notification>)
    ensures |r| == |items|
    ensures 0 <= k < |items| ==> r[k] == MarkRead(items[k])
    ensures forall i :: 0 <= i < |items| && i != k ==> r[i] == items[i]
  {
    if 0 <= k < |items| then items[k := MarkRead(items[k])] else items
  }

  predicate IsAlert(n: Notification) {
    IsAlertType(n.kind)
  }

  predicate IsOther(n: Notification) {
    !IsAlertType(n.kind)
  }

  function AlertItems(items: seq<Notification>): seq<Notification> {
    Filter(items, IsAlert)
  }

  function OtherItems(items: seq<Notification>): seq<Notification> {
    Filter(items, IsOther)
  }

  /** The two sections split the list: every item lands in exactly one, by
      its type, nothing is lost or duplicated, and each keeps list order. */
  lemma SectionsPartition(items: seq<Notification>, more: seq<Notification>)
    ensures multiset(AlertItems(items)) + multiset(OtherItems(items)) == multiset(items)
    ensures |AlertItems(items)| + |OtherItems(items)| == |items|
    ensures forall i :: 0 <= i < |AlertItems(items)| ==> IsAlertType(AlertItems(items)[i].kind)
    ensures forall i :: 0 <= i < |OtherItems(items)| ==> !IsAlertType(OtherItems(items)[i].kind)
    ensures AlertItems(items + more) == AlertItems(items) + AlertItems(more)
    ensures OtherItems(items + more) == OtherItems(items) + OtherItems(more)
  {
    FilterPartition(items, IsAlert, IsOther);
    FilterAppend(items, more, IsAlert);
    FilterAppend(items, more, IsOther);
  }

  /** A live notification goes to the top of its own section. */
  lemma PrependedLandsInItsSection(items: seq<Notification>, notif: Notification, now: string)
    ensures var r := Prepend(items, notif, now);
      && (IsAlertType(notif.kind) ==> AlertItems(r) == [r[0]] + AlertItems(items) && OtherItems(r) == OtherItems(items))
      && (!IsAlertType(notif.kind) ==> OtherItems(r) == [r[0]] + OtherItems(items) && AlertItems(r) == AlertItems(items))
  {
    var r := Prepend(items, notif, now);
    assert r == [r[0]] + items;
    FilterAppend([r[0]], items, IsAlert);
    FilterAppend([r[0]], items, IsOther);
  }
}
