/**
 * The notification store of src/lib/notifications.ts: a module-level list
 * of notifications, newest first and capped at 50, persisted under one key
 * of the browser's local storage, with a set of listeners told after every
 * change.
 *
 * The list operations are specified by functions on sequences; the store is
 * a class whose methods reassign its fields as the module's functions
 * reassign `notifications` and mutate `listeners`.
 */
module Notifications {
  import opened Common

  datatype NotificationType = NewLead | NewPhoto | NewMessage | StatusChange

  datatype Notification = Notification(
    id: string,
    kind: NotificationType,
    title: string,
    message: string,
    leadId: Option<string>,
    photoId: Option<string>,
    read: bool,
    createdAt: string)

  /** What `addNotification` is given: a notification without id, read flag and creation time. */
  datatype Draft = Draft(
    kind: NotificationType,
    title: string,
    message: string,
    leadId: Option<string>,
    photoId: Option<string>)

  const StorageKey: string := "notifications-storage"
  const Capacity: nat := 50

  /** The value under a storage key: a list written by this module, or text that does not parse. */
  datatype Stored = Saved(list: seq<Notification>) | Unparseable

  /** A registered listener, identified by the callback's identity. */
  type ListenerId = nat

  // ---------------------------------------------------------------------------
  // Storage

  /**
   * `loadFromStorage`: the stored list, or the empty list when there is no
   * window, no entry under the key, or an entry that does not parse.
   */
  function Load(hasWindow: bool, storage: map<string, Stored>): (r: seq<Notification>)
    ensures !hasWindow || StorageKey !in storage || storage[StorageKey].Unparseable? ==> r == []
  {
    if hasWindow && StorageKey in storage && storage[StorageKey].Saved?
    then storage[StorageKey].list
    else []
  }

  /**
   * `saveToStorage`: writes the list under the key when there is a window
   * and the write succeeds; a failed write is swallowed and changes nothing.
   */
  function Persist(hasWindow: bool, writeOk: bool, storage: map<string, Stored>,
                   items: seq<Notification>): (r: map<string, Stored>)
    ensures forall k :: k in storage && k != StorageKey ==> k in r && r[k] == storage[k]
    ensures r.Keys <= storage.Keys + {StorageKey}
  {
    if hasWindow && writeOk then storage[StorageKey := Saved(items)] else storage
  }

  /** A successful write is read back unchanged; a failed one leaves the next load as it was. */
  lemma PersistThenLoad(hasWindow: bool, writeOk: bool, storage: map<string, Stored>,
                        items: seq<Notification>)
    ensures Load(hasWindow, Persist(hasWindow, writeOk, storage, items))
         == if hasWindow && writeOk then items else Load(hasWindow, storage)
  {
  }

  /** A later write replaces an earlier one: only the last list written is kept. */
  lemma PersistOverwrites(hasWindow: bool, writeOk: bool, storage: map<string, Stored>,
                          first: seq<Notification>, second: seq<Notification>)
    ensures Persist(hasWindow, writeOk, Persist(hasWindow, writeOk, storage, first), second)
         == Persist(hasWindow, writeOk, storage, second)
  {
  }

  // ---------------------------------------------------------------------------
  // The list operations

  /** The new entry `addNotification` builds: the draft's fields, a fresh id, unread, stamped now. */
  function Stamp(d: Draft, id: string, now: string): Notification
  {
    Notification(id, d.kind, d.title, d.message, d.leadId, d.photoId, false, now)
  }

  /** `.slice(0, 50)`. */
  function Truncate(s: seq<Notification>): seq<Notification>
  {
    Take(s, Capacity)
  }

  /** `[n, ...items].slice(0, 50)`. */
  function Prepend(items: seq<Notification>, n: Notification): seq<Notification>
  {
    Truncate([n] + items)
  }

  /**
   * After an addition the new entry is first, the old entries follow in
   * their order, and only the oldest one is lost when the list was full.
   */
  lemma PrependShape(items: seq<Notification>, n: Notification)
    ensures var r := Prepend(items, n);
      |r| == Min(|items| + 1, Capacity)
      && r[0] == n
      && (forall i :: 1 <= i < |r| ==> r[i] == items[i - 1])
      && (|items| < Capacity ==> r[1..] == items)
  {
  }

  /** `items.map(n => n.id === id ? {...n, read: true} : n)`. */
  function MarkRead(items: seq<Notification>, id: string): (r: seq<Notification>)
    decreases |items|
  {
    if items == [] then []
    else [if items[0].id == id then items[0].(read := true) else items[0]] + MarkRead(items[1..], id)
  }

  /** `items.map(n => ({...n, read: true}))`. */
  function MarkAllRead(items: seq<Notification>): (r: seq<Notification>)
    decreases |items|
  {
    if items == [] then [] else [items[0].(read := true)] + MarkAllRead(items[1..])
  }

  predicate IsUnread(n: Notification)
  {
    !n.read
  }

  /** `getUnreadCount` over a list: `filter(n => !n.read).length`. */
  function UnreadCount(items: seq<Notification>): nat
  {
    Count(items, IsUnread)
  }

  /** b is a with some read flags changed and nothing else: same length, order and other fields. */
  ghost predicate SameButRead(a: seq<Notification>, b: seq<Notification>)
  {
    |a| == |b| && forall i :: 0 <= i < |a| ==> b[i] == a[i].(read := b[i].read)
  }

  /** No read flag goes from true to false between a and b, position by position. */
  ghost predicate ReadKept(a: seq<Notification>, b: seq<Notification>)
  {
    |a| == |b| && forall i :: 0 <= i < |a| ==> a[i].read ==> b[i].read
  }

  /** All ids in the list are different. */
  ghost predicate DistinctIds(s: seq<Notification>)
  {
    forall i, j :: 0 <= i < j < |s| ==> s[i].id != s[j].id
  }

  ghost predicate HasId(s: seq<Notification>, id: string)
  {
    exists i :: 0 <= i < |s| && s[i].id == id
  }

  /**
   * `markAsRead(id)` touches only the read flags: exactly the entries with
   * that id become read, every other entry keeps its flag.
   */
  lemma {:induction false} MarkReadEffect(items: seq<Notification>, id: string)
    ensures SameButRead(items, MarkRead(items, id))
    ensures ReadKept(items, MarkRead(items, id))
    ensures forall i :: 0 <= i < |items| ==>
      MarkRead(items, id)[i].read == (items[i].read || items[i].id == id)
    decreases |items|
  {
    if items != [] {
      MarkReadEffect(items[1..], id);
    }
  }

  /** Marking an id that no entry has changes nothing. */
  lemma {:induction false} MarkReadUnknown(items: seq<Notification>, id: string)
    requires !HasId(items, id)
    ensures MarkRead(items, id) == items
    decreases |items|
  {
    if items != [] {
      assert !HasId(items[1..], id) by {
        forall i | 0 <= i < |items[1..]| ensures items[1..][i].id != id {
          assert items[1..][i] == items[i + 1];
        }
      }
      MarkReadUnknown(items[1..], id);
    }
  }

  /** Marking the same id twice is the same as once. */
  lemma {:induction false} MarkReadIdempotent(items: seq<Notification>, id: string)
    ensures MarkRead(MarkRead(items, id), id) == MarkRead(items, id)
    decreases |items|
  {
    if items != [] {
      MarkReadIdempotent(items[1..], id);
    }
  }

  /** `markAllAsRead` makes every entry read and changes nothing else. */
  lemma {:induction false} MarkAllReadEffect(items: seq<Notification>)
    ensures SameButRead(items, MarkAllRead(items))
    ensures forall i :: 0 <= i < |items| ==> MarkAllRead(items)[i].read
    decreases |items|
  {
    if items != [] {
      MarkAllReadEffect(items[1..]);
    }
  }

  /** `markAllAsRead` is idempotent. */
  lemma {:induction false} MarkAllReadIdempotent(items: seq<Notification>)
    ensures MarkAllRead(MarkAllRead(items)) == MarkAllRead(items)
    decreases |items|
  {
    if items != [] {
      MarkAllReadIdempotent(items[1..]);
    }
  }

  /** After `markAllAsRead` the unread count is zero. */
  lemma NoUnreadAfterMarkAll(items: seq<Notification>)
    ensures UnreadCount(MarkAllRead(items)) == 0
  {
    MarkAllReadEffect(items);
    var r := MarkAllRead(items);
    forall x | x in r ensures !IsUnread(x) {
      var i :| 0 <= i < |r| && r[i] == x;
    }
    FilterNone(r, IsUnread);
  }

  /** Marking one id read lowers the unread count by the number of unread entries with that id. */
  lemma {:induction false} UnreadAfterMarkRead(items: seq<Notification>, id: string)
    ensures UnreadCount(MarkRead(items, id)) + Count(items, (n: Notification) => !n.read && n.id == id)
         == UnreadCount(items)
    decreases |items|
  {
    if items != [] {
      UnreadAfterMarkRead(items[1..], id);
    }
  }

  /** Adding to a list below the cap adds exactly one unread entry. */
  lemma UnreadAfterPrepend(items: seq<Notification>, n: Notification)
    requires !n.read && |items| < Capacity
    ensures UnreadCount(Prepend(items, n)) == UnreadCount(items) + 1
  {
    assert Prepend(items, n) == [n] + items;
    FilterAppend([n], items, IsUnread);
  }

  /** The unread count never exceeds the number of entries. */
  lemma UnreadAtMostLength(items: seq<Notification>)
    ensures UnreadCount(items) <= |items|
  {
  }

  /** A new entry with an id not yet in the list keeps the ids distinct. */
  lemma PrependKeepsIdsDistinct(items: seq<Notification>, n: Notification)
    requires DistinctIds(items) && !HasId(items, n.id)
    ensures DistinctIds(Prepend(items, n))
  {
    var r := Prepend(items, n);
    forall i, j | 0 <= i < j < |r| ensures r[i].id != r[j].id {
      if i == 0 {
        assert r[j] == items[j - 1];
      } else {
        assert r[i] == items[i - 1] && r[j] == items[j - 1];
      }
    }
  }

  // ---------------------------------------------------------------------------
  // Many additions in a row

  function Reversed<T>(s: seq<T>): (r: seq<T>)
    ensures |r| == |s|
    decreases |s|
  {
    if s == [] then [] else Reversed(s[1..]) + [s[0]]
  }

  /** The entries the drafts become when added in order, the k-th with the k-th id the oracle mints from `minted` on. */
  function Stamped(drafts: seq<Draft>, uuid: nat -> string, minted: nat, now: string): (r: seq<Notification>)
    ensures |r| == |drafts|
  {
    seq(|drafts|, k requires 0 <= k < |drafts| => Stamp(drafts[k], uuid(minted + k), now))
  }

  /** The list after `addNotification` was called with each draft in turn. */
  function AddAll(items: seq<Notification>, drafts: seq<Draft>, uuid: nat -> string,
                  minted: nat, now: string): seq<Notification>
    decreases |drafts|
  {
    if drafts == [] then items
    else
      var n := |drafts| - 1;
      Prepend(AddAll(items, drafts[..n], uuid, minted, now), Stamp(drafts[n], uuid(minted + n), now))
  }

  /** One more addition at the end of the drafts is one more `addNotification`. */
  lemma AddAllSnoc(items: seq<Notification>, drafts: seq<Draft>, d: Draft,
                   uuid: nat -> string, minted: nat, now: string)
    ensures AddAll(items, drafts + [d], uuid, minted, now)
         == Prepend(AddAll(items, drafts, uuid, minted, now), Stamp(d, uuid(minted + |drafts|), now))
  {
    assert (drafts + [d])[..|drafts|] == drafts;
  }

  /** Truncating twice is truncating once, even with a new head in between. */
  lemma TruncateCons(x: Notification, t: seq<Notification>)
    ensures Truncate([x] + Truncate(t)) == Truncate([x] + t)
  {
  }

  lemma {:induction false} ReversedSnoc<T>(s: seq<T>, x: T)
    ensures Reversed(s + [x]) == [x] + Reversed(s)
    decreases |s|
  {
    if s == [] {
    } else {
      assert (s + [x])[1..] == s[1..] + [x];
      ReversedSnoc(s[1..], x);
    }
  }

  /**
   * Cap and order over any number of additions: the list is the added
   * entries, newest first, followed by the old list, truncated to 50. (A
   * list loaded from storage is not truncated until the first addition, so
   * with no drafts the claim needs the old list to be within the cap.)
   */
  lemma {:induction false} AddAllNewestFirst(items: seq<Notification>, drafts: seq<Draft>,
                                             uuid: nat -> string, minted: nat, now: string)
    requires drafts != [] || |items| <= Capacity
    ensures AddAll(items, drafts, uuid, minted, now)
         == Truncate(Reversed(Stamped(drafts, uuid, minted, now)) + items)
    decreases |drafts|
  {
    if |drafts| == 1 {
      NewestFirstOne(items, drafts, uuid, minted, now);
    } else if drafts != [] {
      AddAllNewestFirst(items, drafts[..|drafts| - 1], uuid, minted, now);
      NewestFirstStep(items, drafts, uuid, minted, now);
    }
  }

  /** `AddAllNewestFirst` for a single draft. */
  lemma NewestFirstOne(items: seq<Notification>, drafts: seq<Draft>,
                       uuid: nat -> string, minted: nat, now: string)
    requires |drafts| == 1
    ensures AddAll(items, drafts, uuid, minted, now)
         == Truncate(Reversed(Stamped(drafts, uuid, minted, now)) + items)
  {
    ReversedStampedSnoc(drafts, uuid, minted, now);
    assert drafts[..0] == [];
    assert Reversed(Stamped(drafts[..0], uuid, minted, now)) == [];
  }

  /** `AddAllNewestFirst` for one more draft, given the claim for the drafts before it. */
  lemma NewestFirstStep(items: seq<Notification>, drafts: seq<Draft>,
                        uuid: nat -> string, minted: nat, now: string)
    requires |drafts| > 1
    requires AddAll(items, drafts[..|drafts| - 1], uuid, minted, now)
          == Truncate(Reversed(Stamped(drafts[..|drafts| - 1], uuid, minted, now)) + items)
    ensures AddAll(items, drafts, uuid, minted, now)
         == Truncate(Reversed(Stamped(drafts, uuid, minted, now)) + items)
  {
    var n := |drafts| - 1;
    var x := Stamp(drafts[n], uuid(minted + n), now);
    var rest := Reversed(Stamped(drafts[..n], uuid, minted, now));
    assert AddAll(items, drafts, uuid, minted, now) == Truncate([x] + AddAll(items, drafts[..n], uuid, minted, now));
    PrependAfterTruncate(AddAll(items, drafts[..n], uuid, minted, now), x, rest, items);
    ReversedStampedSnoc(drafts, uuid, minted, now);
  }

  /** Putting one entry in front of a truncated list is truncating the longer list once. */
  lemma PrependAfterTruncate(prev: seq<Notification>, x: Notification, rest: seq<Notification>, items: seq<Notification>)
    requires prev == Truncate(rest + items)
    ensures Truncate([x] + prev) == Truncate(([x] + rest) + items)
  {
    TruncateCons(x, rest + items);
    assert [x] + (rest + items) == ([x] + rest) + items;
  }

  /** The newest entry of the stamped drafts comes first once they are reversed. */
  lemma ReversedStampedSnoc(drafts: seq<Draft>, uuid: nat -> string, minted: nat, now: string)
    requires drafts != []
    ensures var n := |drafts| - 1;
      Reversed(Stamped(drafts, uuid, minted, now))
      == [Stamp(drafts[n], uuid(minted + n), now)] + Reversed(Stamped(drafts[..n], uuid, minted, now))
  {
    var n := |drafts| - 1;
    var s' := Stamped(drafts[..n], uuid, minted, now);
    var x := Stamp(drafts[n], uuid(minted + n), now);
    assert Stamped(drafts, uuid, minted, now) == s' + [x];
    ReversedSnoc(s', x);
  }

  /**
   * The list after several additions keeps exactly the 50 most recent
   * entries: the newest added one first, and an old entry survives only if
   * fewer than 50 entries came after it.
   */
  lemma AddAllKeepsMostRecent(items: seq<Notification>, drafts: seq<Draft>,
                              uuid: nat -> string, minted: nat, now: string)
    requires drafts != []
    ensures var r := AddAll(items, drafts, uuid, minted, now);
      |r| == Min(|drafts| + |items|, Capacity)
      && r[0] == Stamp(drafts[|drafts| - 1], uuid(minted + |drafts| - 1), now)
      && forall i :: 0 <= i < |items| && |drafts| + i < Capacity ==> r[|drafts| + i] == items[i]
  {
    AddAllNewestFirst(items, drafts, uuid, minted, now);
    var st := Stamped(drafts, uuid, minted, now);
    ReversedFirst(st);
    TruncateAfter(Reversed(st), items);
  }

  /** Truncating `front + items` keeps the front's first element and each item that still fits after it. */
  lemma TruncateAfter(front: seq<Notification>, items: seq<Notification>)
    requires front != []
    ensures var r := Truncate(front + items);
      |r| == Min(|front| + |items|, Capacity)
      && r[0] == front[0]
      && forall i :: 0 <= i < |items| && |front| + i < Capacity ==> r[|front| + i] == items[i]
  {
    assert forall i :: 0 <= i < |items| ==> (front + items)[|front| + i] == items[i];
  }

  lemma ReversedFirst<T>(s: seq<T>)
    requires s != []
    ensures Reversed(s)[0] == s[|s| - 1]
  {
    var init := s[..|s| - 1];
    var last := s[|s| - 1];
    assert init + [last] == s;
    ReversedSnoc(init, last);
  }

  // ---------------------------------------------------------------------------
  // The drafts the rest of the front-end builds

  /** `name || fallback`. */
  function NameOr(name: string, fallback: string): (r: string)
    ensures name != "" ==> r == name
    ensures name == "" ==> r == fallback
  {
    if name != "" then name else fallback
  }

  /** `createLeadNotification`: a new-lead draft that points at the lead. */
  function LeadDraft(leadName: string, leadId: string): (r: Draft)
    ensures r.kind == NewLead && r.title == "New Lead"
    ensures r.leadId == Some(leadId) && r.photoId == None
    ensures r.message == NameOr(leadName, "Someone") + " started a conversation"
  {
    Draft(NewLead, "New Lead", NameOr(leadName, "Someone") + " started a conversation", Some(leadId), None)
  }

  /** `createPhotoNotification`: a new-photo draft that points at the lead and the photo. */
  function PhotoDraft(leadName: string, leadId: string, photoId: string): (r: Draft)
    ensures r.kind == NewPhoto && r.title == "New Photo"
    ensures r.leadId == Some(leadId) && r.photoId == Some(photoId)
    ensures r.message == NameOr(leadName, "A lead") + " uploaded a photo"
  {
    Draft(NewPhoto, "New Photo", NameOr(leadName, "A lead") + " uploaded a photo", Some(leadId), Some(photoId))
  }

  /** `createMessageNotification`: a new-message draft that points at the lead. */
  function MessageDraft(leadName: string, leadId: string): (r: Draft)
    ensures r.kind == NewMessage && r.title == "New Message"
    ensures r.leadId == Some(leadId) && r.photoId == None
    ensures r.message == NameOr(leadName, "A lead") + " sent a message"
  {
    Draft(NewMessage, "New Message", NameOr(leadName, "A lead") + " sent a message", Some(leadId), None)
  }

  /** A draft's message always begins with the lead's name, or the fallback when the name is empty. */
  lemma DraftMessageNamesLead(leadName: string, leadId: string, photoId: string)
    ensures var who := NameOr(leadName, "Someone");
      LeadDraft(leadName, leadId).message[..|who|] == who
    ensures var who := NameOr(leadName, "A lead");
      PhotoDraft(leadName, leadId, photoId).message[..|who|] == who
      && MessageDraft(leadName, leadId).message[..|who|] == who
  {
  }

  // ---------------------------------------------------------------------------
  // The store

  /**
   * The module state of src/lib/notifications.ts. `items` is the in-memory
   * list, `storage` the browser's local storage, `listeners` the subscribed
   * callbacks and `deliveries` how often each callback has been called so
   * far. `uuid(k)` is the k-th value `crypto.randomUUID` returns, and
   * `minted` how many have been drawn.
   */
  class NotificationStore {
    const hasWindow: bool
    const uuid: nat -> string
    var minted: nat
    var items: seq<Notification>
    var storage: map<string, Stored>
    var listeners: set<ListenerId>
    var deliveries: multiset<ListenerId>

    /** The state when the module is first loaded: nothing in memory, nobody subscribed. */
    constructor(hasWindow: bool, uuid: nat -> string, storage: map<string, Stored>)
      ensures this.hasWindow == hasWindow && this.uuid == uuid && this.storage == storage
      ensures items == [] && minted == 0
      ensures listeners == {} && deliveries == multiset{}
    {
      this.hasWindow := hasWindow;
      this.uuid := uuid;
      this.storage := storage;
      items := [];
      minted := 0;
      listeners := {};
      deliveries := multiset{};
    }

    /** `saveToStorage(notifications)`. */
    method Save(writeOk: bool)
      modifies this`storage
      ensures storage == Persist(hasWindow, writeOk, old(storage), items)
    {
      if hasWindow && writeOk {
        storage := storage[StorageKey := Saved(items)];
      }
    }

    /** `notifyListeners`: every subscribed listener is called exactly once. */
    method NotifyListeners()
      modifies this`deliveries
      ensures deliveries == old(deliveries) + multiset(listeners)
    {
      var pending := listeners;
      while pending != {}
        invariant pending <= listeners
        invariant deliveries == old(deliveries) + multiset(listeners - pending)
        decreases pending
      {
        var l :| l in pending;
        deliveries := deliveries + multiset{l};
        pending := pending - {l};
        assert listeners - pending == (listeners - (pending + {l})) + {l};
      }
    }

    /** `getNotifications`: reloads from storage whenever the in-memory list is empty. */
    method GetNotifications() returns (r: seq<Notification>)
      modifies this`items
      ensures items == (if old(items) == [] then Load(hasWindow, storage) else old(items))
      ensures r == items
    {
      if items == [] {
        items := Load(hasWindow, storage);
      }
      r := items;
    }

    /** `addNotification`: stamps the draft, puts it first, keeps 50, saves and notifies. */
    method AddNotification(draft: Draft, now: string, writeOk: bool)
      modifies this`minted, this`items, this`storage, this`deliveries
      ensures minted == old(minted) + 1
      ensures items == Prepend(old(items), Stamp(draft, uuid(old(minted)), now))
      ensures storage == Persist(hasWindow, writeOk, old(storage), items)
      ensures deliveries == old(deliveries) + multiset(listeners)
    {
      var n := Stamp(draft, uuid(minted), now);
      minted := minted + 1;
      items := Truncate([n] + items);
      Save(writeOk);
      NotifyListeners();
    }

    /** `markAsRead(id)`. */
    method MarkAsRead(id: string, writeOk: bool)
      modifies this`items, this`storage, this`deliveries
      ensures items == MarkRead(old(items), id)
      ensures storage == Persist(hasWindow, writeOk, old(storage), items)
      ensures deliveries == old(deliveries) + multiset(listeners)
    {
      items := MarkRead(items, id);
      Save(writeOk);
      NotifyListeners();
    }

    /** `markAllAsRead()`. */
    method MarkAllAsRead(writeOk: bool)
      modifies this`items, this`storage, this`deliveries
      ensures items == MarkAllRead(old(items))
      ensures storage == Persist(hasWindow, writeOk, old(storage), items)
      ensures deliveries == old(deliveries) + multiset(listeners)
    {
      items := MarkAllRead(items);
      Save(writeOk);
      NotifyListeners();
    }

    /** `clearAllNotifications()`. */
    method ClearAllNotifications(writeOk: bool)
      modifies this`items, this`storage, this`deliveries
      ensures items == []
      ensures storage == Persist(hasWindow, writeOk, old(storage), [])
      ensures deliveries == old(deliveries) + multiset(listeners)
    {
      items := [];
      Save(writeOk);
      NotifyListeners();
    }

    /** `getUnreadCount()`: goes through `getNotifications`, so it may load from storage. */
    method GetUnreadCount() returns (c: nat)
      modifies this`items
      ensures items == (if old(items) == [] then Load(hasWindow, storage) else old(items))
      ensures c == UnreadCount(items) && c <= |items|
    {
      var all := GetNotifications();
      c := |Filter(all, IsUnread)|;
    }

    /** `subscribe(listener)`; the returned unsubscribe function is `Unsubscribe`. */
    method Subscribe(l: ListenerId)
      modifies this`listeners
      ensures listeners == old(listeners) + {l}
    {
      listeners := listeners + {l};
    }

    method Unsubscribe(l: ListenerId)
      modifies this`listeners
      ensures listeners == old(listeners) - {l}
    {
      listeners := listeners - {l};
    }
  }

  /**
   * Subscribing twice with the same callback registers it once, so one
   * change calls it once; after unsubscribing it is not called at all.
   */
  method SubscriberFanOut(store: NotificationStore, l: ListenerId, id: string)
    modifies store`listeners, store`items, store`storage, store`deliveries
    ensures store.deliveries[l] == old(store.deliveries[l]) + 1
  {
    store.Subscribe(l);
    store.Subscribe(l);
    store.MarkAsRead(id, true);
    assert store.deliveries[l] == old(store.deliveries[l]) + 1;
    store.Unsubscribe(l);
    store.MarkAllAsRead(true);
  }

  /**
   * The subscriber the notifications hook registers calls `getNotifications`
   * and `getUnreadCount` when notified. After a clear whose write failed,
   * that reload finds the list empty and reads the old list back from
   * storage: the cleared notifications return.
   */
  method FailedClearReloadedByListener(store: NotificationStore) returns (shown: seq<Notification>, unread: nat)
    modifies store`items, store`storage, store`deliveries
    ensures store.storage == old(store.storage)
    ensures shown == store.items == Load(store.hasWindow, old(store.storage))
    ensures unread == UnreadCount(shown)
  {
    store.ClearAllNotifications(false);
    shown := store.GetNotifications();
    unread := store.GetUnreadCount();
  }
}
