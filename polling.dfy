/**
 * One cycle of `checkForNewNotifications` in
 * src/hooks/useNotificationPolling.ts: compute the `since` bound, fetch the
 * remote events, forward each event whose id has not been seen to the
 * notification store, record the check time and decide whether the
 * dependent query caches must be refreshed. Also the effect that seeds the
 * seen-id set from the stored notifications.
 *
 * The fetch is an input (`Reply`), the clock is a parameter in
 * milliseconds since the epoch, and the query cache is the list of keys the
 * cycle invalidates.
 */
module Polling {
  import opened Common
  import opened Http
  import opened Notifications

  /** How far back the first check looks: one hour. */
  const LookBackMs: int := 60 * 60 * 1000

  /** The query keys refreshed after a cycle that forwarded something, in the order they are invalidated. */
  const DependentCaches: seq<string> := ["leads", "photos", "conversations", "lead-stats"]

  /** A `NotificationItem` of the backend's `/notifications` endpoint. */
  datatype RemoteEvent = RemoteEvent(
    id: string,
    kind: NotificationType,
    title: string,
    message: string,
    leadId: Option<string>,
    photoId: Option<string>,
    createdAt: string)

  /** `lastCheck || now - 1 hour`. */
  function SinceBound(lastCheck: Option<int>, now: int): (r: int)
    ensures lastCheck.Some? ==> r == lastCheck.value
    ensures lastCheck.None? ==> r == now - LookBackMs
  {
    if lastCheck.Some? then lastCheck.value else now - LookBackMs
  }

  /** The ids of a batch. */
  function IdSet(events: seq<RemoteEvent>): (r: set<string>)
    ensures forall e :: e in events ==> e.id in r
    decreases |events|
  {
    if events == [] then {}
    else
      var n := |events| - 1;
      assert forall e :: e in events ==> e in events[..n] || e == events[n];
      IdSet(events[..n]) + {events[n].id}
  }

  /** Every id of the set is carried by some event of the batch. */
  lemma {:induction false} IdSetCarried(events: seq<RemoteEvent>, id: string)
    requires id in IdSet(events)
    ensures exists i :: 0 <= i < |events| && events[i].id == id
    decreases |events|
  {
    var n := |events| - 1;
    if id != events[n].id {
      IdSetCarried(events[..n], id);
    }
  }

  /**
   * The events a cycle forwards, in received order: each event whose id is
   * neither in `seen` nor carried by an earlier event of the batch.
   */
  function NewEvents(seen: set<string>, events: seq<RemoteEvent>): seq<RemoteEvent>
    decreases |events|
  {
    if events == [] then []
    else
      var n := |events| - 1;
      var earlier := NewEvents(seen, events[..n]);
      if events[n].id in seen + IdSet(events[..n]) then earlier else earlier + [events[n]]
  }

  /** The draft `addNotification` is given for a remote event. */
  function DraftOf(e: RemoteEvent): Draft
  {
    Draft(e.kind, e.title, e.message, e.leadId, e.photoId)
  }

  /** The drafts of a list of events, in the same order. */
  function DraftsOf(events: seq<RemoteEvent>): (r: seq<Draft>)
    ensures |r| == |events|
    decreases |events|
  {
    if events == [] then [] else DraftsOf(events[..|events| - 1]) + [DraftOf(events[|events| - 1])]
  }

  lemma DraftsOfSnoc(events: seq<RemoteEvent>, e: RemoteEvent)
    ensures DraftsOf(events + [e]) == DraftsOf(events) + [DraftOf(e)]
  {
    assert (events + [e])[..|events|] == events;
  }

  /** Forwarding one more event is one more `addNotification` of its draft. */
  lemma ForwardStep(items: seq<Notification>, sent: seq<RemoteEvent>, e: RemoteEvent,
                    uuid: nat -> string, minted: nat, now: string)
    ensures AddAll(items, DraftsOf(sent + [e]), uuid, minted, now)
         == Prepend(AddAll(items, DraftsOf(sent), uuid, minted, now), Stamp(DraftOf(e), uuid(minted + |sent|), now))
  {
    DraftsOfSnoc(sent, e);
    AddAllSnoc(items, DraftsOf(sent), DraftOf(e), uuid, minted, now);
  }

  /** k copies of m: the calls made by k notifications of the same listeners. */
  function Repeat(m: multiset<ListenerId>, k: nat): (r: multiset<ListenerId>)
  {
    if k == 0 then multiset{} else Repeat(m, k - 1) + m
  }

  /** Each listener is called once per forwarded event. */
  lemma {:induction false} RepeatCount(m: multiset<ListenerId>, k: nat, l: ListenerId)
    ensures Repeat(m, k)[l] == m[l] * k
  {
    if k > 0 {
      RepeatCount(m, k - 1, l);
      assert Repeat(m, k)[l] == Repeat(m, k - 1)[l] + m[l];
      assert m[l] * (k - 1) + m[l] == m[l] * k;
    }
  }

  ghost predicate DistinctEventIds(s: seq<RemoteEvent>)
  {
    forall i, j :: 0 <= i < j < |s| ==> s[i].id != s[j].id
  }

  /** Nothing forwarded was seen before, and everything forwarded was received. */
  lemma {:induction false} NewEventsSound(seen: set<string>, events: seq<RemoteEvent>)
    ensures forall e :: e in NewEvents(seen, events) ==> e in events && e.id !in seen
    decreases |events|
  {
    if events != [] {
      var n := |events| - 1;
      NewEventsSound(seen, events[..n]);
    }
  }

  /** The ids forwarded are exactly the ids of the batch that were not seen before. */
  lemma {:induction false} NewEventsIds(seen: set<string>, events: seq<RemoteEvent>)
    ensures IdSet(NewEvents(seen, events)) == IdSet(events) - seen
    decreases |events|
  {
    if events != [] {
      var n := |events| - 1;
      NewEventsIds(seen, events[..n]);
      var earlier := NewEvents(seen, events[..n]);
      if events[n].id !in seen + IdSet(events[..n]) {
        assert (earlier + [events[n]])[..|earlier|] == earlier;
      }
    }
  }

  /** No id is forwarded twice: repeats within a batch are skipped. */
  lemma {:induction false} NewEventsDistinct(seen: set<string>, events: seq<RemoteEvent>)
    ensures DistinctEventIds(NewEvents(seen, events))
    decreases |events|
  {
    if events != [] {
      var n := |events| - 1;
      NewEventsDistinct(seen, events[..n]);
      var earlier := NewEvents(seen, events[..n]);
      if events[n].id !in seen + IdSet(events[..n]) {
        NewEventsIds(seen, events[..n]);
        var r := earlier + [events[n]];
        forall i, j | 0 <= i < j < |r| ensures r[i].id != r[j].id {
          if j == |earlier| {
            assert r[i] in earlier;
          }
        }
      }
    }
  }

  /** What is forwarded keeps the order in which it was received. */
  lemma {:induction false} NewEventsInOrder(seen: set<string>, events: seq<RemoteEvent>)
    ensures Embeds(NewEvents(seen, events), events)
    decreases |events|
  {
    if events != [] {
      var n := |events| - 1;
      NewEventsInOrder(seen, events[..n]);
      var earlier := NewEvents(seen, events[..n]);
      if events[n].id in seen + IdSet(events[..n]) {
        EmbedsSnoc(earlier, events[..n], events[n]);
      } else {
        EmbedsBothSnoc(earlier, events[..n], events[n]);
      }
      assert events[..n] + [events[n]] == events;
    }
  }

  lemma {:induction false} EmbedsSnoc<T>(r: seq<T>, s: seq<T>, x: T)
    requires Embeds(r, s)
    ensures Embeds(r, s + [x])
    decreases |s|
  {
    if r != [] {
      assert (s + [x])[1..] == s[1..] + [x];
      if r[0] == s[0] {
        EmbedsSnoc(r[1..], s[1..], x);
      } else {
        EmbedsSnoc(r, s[1..], x);
      }
    }
  }

  lemma {:induction false} EmbedsBothSnoc<T>(r: seq<T>, s: seq<T>, x: T)
    requires Embeds(r, s)
    ensures Embeds(r + [x], s + [x])
    decreases |s|
  {
    if r == [] {
      if s == [] {
      } else if s[0] == x {
        assert (s + [x])[1..] == s[1..] + [x];
        EmbedsSnoc([], s[1..], x);
      } else {
        assert (s + [x])[1..] == s[1..] + [x];
        EmbedsBothSnoc(r, s[1..], x);
      }
    } else {
      assert (s + [x])[1..] == s[1..] + [x];
      assert (r + [x])[1..] == r[1..] + [x];
      if r[0] == s[0] {
        EmbedsBothSnoc(r[1..], s[1..], x);
      } else {
        EmbedsBothSnoc(r, s[1..], x);
      }
    }
  }

  /** A cycle forwards something exactly when the batch has an id not seen before. */
  lemma NewEventsEmptyIff(seen: set<string>, events: seq<RemoteEvent>)
    ensures NewEvents(seen, events) == [] <==> IdSet(events) <= seen
  {
    NewEventsIds(seen, events);
    var r := NewEvents(seen, events);
    if r != [] {
      assert r[0].id in IdSet(r);
    }
  }

  /** Ids forwarded in one cycle are never forwarded again in a later one. */
  lemma ConsecutiveCyclesDisjoint(seen: set<string>, first: seq<RemoteEvent>, second: seq<RemoteEvent>)
    ensures IdSet(NewEvents(seen, first)) !! IdSet(NewEvents(seen + IdSet(first), second))
  {
    NewEventsIds(seen, first);
    NewEventsIds(seen + IdSet(first), second);
  }

  /** Receiving the same batch again forwards nothing. */
  lemma ReplayForwardsNothing(seen: set<string>, events: seq<RemoteEvent>)
    ensures NewEvents(seen + IdSet(events), events) == []
  {
    NewEventsEmptyIff(seen + IdSet(events), events);
  }

  lemma NewEventsSnoc(seen: set<string>, events: seq<RemoteEvent>, e: RemoteEvent)
    ensures NewEvents(seen, events + [e])
         == if e.id in seen + IdSet(events) then NewEvents(seen, events) else NewEvents(seen, events) + [e]
  {
    assert (events + [e])[..|events|] == events;
  }

  lemma IdSetSnoc(events: seq<RemoteEvent>, e: RemoteEvent)
    ensures IdSet(events + [e]) == IdSet(events) + {e.id}
  {
    assert (events + [e])[..|events|] == events;
  }

  /** The ids of a list of local notifications, as the seeding effect collects them. */
  function NotificationIds(items: seq<Notification>): (r: set<string>)
    ensures forall i :: 0 <= i < |items| ==> items[i].id in r
    ensures forall id :: id in r ==> exists i :: 0 <= i < |items| && items[i].id == id
  {
    set i | 0 <= i < |items| :: items[i].id
  }

  // ---------------------------------------------------------------------------
  // The effect of a cycle on the poller and the store, as values

  /** What a cycle changes: the seen ids, and the store's list, id counter, storage and listener calls. */
  datatype Outcome = Outcome(
    seen: set<string>,
    items: seq<Notification>,
    minted: nat,
    storage: map<string, Stored>,
    deliveries: multiset<ListenerId>)

  /** What a cycle reads but does not change. */
  datatype Env = Env(
    hasWindow: bool,
    uuid: nat -> string,
    listeners: set<ListenerId>,
    stampedAt: string,
    writeOk: bool)

  /** One iteration of the loop: skip a seen id, otherwise mark it seen and `addNotification` the event. */
  function Forward(o: Outcome, env: Env, e: RemoteEvent): Outcome
  {
    if e.id in o.seen then o
    else
      var items := Prepend(o.items, Stamp(DraftOf(e), env.uuid(o.minted), env.stampedAt));
      Outcome(o.seen + {e.id}, items, o.minted + 1,
              Persist(env.hasWindow, env.writeOk, o.storage, items),
              o.deliveries + multiset(env.listeners))
  }

  /** The whole loop over a batch. */
  function ForwardAll(o: Outcome, env: Env, events: seq<RemoteEvent>): Outcome
    decreases |events|
  {
    if events == [] then o
    else Forward(ForwardAll(o, env, events[..|events| - 1]), env, events[|events| - 1])
  }

  lemma ForwardAllSnoc(o: Outcome, env: Env, events: seq<RemoteEvent>, e: RemoteEvent)
    ensures ForwardAll(o, env, events + [e]) == Forward(ForwardAll(o, env, events), env, e)
  {
    assert (events + [e])[..|events|] == events;
  }

  /** The loop marks every id of the batch seen, and forwards exactly `NewEvents`, counting one id each. */
  lemma {:induction false} ForwardAllSeen(o: Outcome, env: Env, events: seq<RemoteEvent>)
    ensures ForwardAll(o, env, events).seen == o.seen + IdSet(events)
    ensures ForwardAll(o, env, events).minted == o.minted + |NewEvents(o.seen, events)|
    decreases |events|
  {
    if events != [] {
      var n := |events| - 1;
      ForwardAllSeen(o, env, events[..n]);
      NewEventsSnoc(o.seen, events[..n], events[n]);
      IdSetSnoc(events[..n], events[n]);
      assert events == events[..n] + [events[n]];
    }
  }

  /** The store's list after the loop is the list after `addNotification` of each forwarded event in turn. */
  lemma {:induction false} ForwardAllItems(o: Outcome, env: Env, events: seq<RemoteEvent>)
    ensures ForwardAll(o, env, events).items
         == AddAll(o.items, DraftsOf(NewEvents(o.seen, events)), env.uuid, o.minted, env.stampedAt)
    decreases |events|
  {
    if events != [] {
      var n := |events| - 1;
      var e := events[n];
      var prev := ForwardAll(o, env, events[..n]);
      assert events == events[..n] + [e];
      assert ForwardAll(o, env, events) == Forward(prev, env, e);
      ForwardAllItems(o, env, events[..n]);
      ForwardAllSeen(o, env, events[..n]);
      NewEventsSnoc(o.seen, events[..n], e);
      ForwardItemsStep(prev, env, e, o.items, NewEvents(o.seen, events[..n]), o.minted);
    }
  }

  /** One iteration extends the list the earlier ones built by one `addNotification`, or leaves it alone for a seen id. */
  lemma ForwardItemsStep(prev: Outcome, env: Env, e: RemoteEvent, items: seq<Notification>, sent: seq<RemoteEvent>, minted: nat)
    requires prev.items == AddAll(items, DraftsOf(sent), env.uuid, minted, env.stampedAt)
    requires prev.minted == minted + |sent|
    ensures e.id in prev.seen ==> Forward(prev, env, e).items == prev.items
    ensures e.id !in prev.seen ==>
      Forward(prev, env, e).items == AddAll(items, DraftsOf(sent + [e]), env.uuid, minted, env.stampedAt)
  {
    ForwardStep(items, sent, e, env.uuid, minted, env.stampedAt);
  }

  /** Storage is written after each forwarded event, so it ends holding the final list, or is untouched. */
  lemma {:induction false} ForwardAllStorage(o: Outcome, env: Env, events: seq<RemoteEvent>)
    ensures var r := ForwardAll(o, env, events);
      r.storage == (if r.minted == o.minted then o.storage
                    else Persist(env.hasWindow, env.writeOk, o.storage, r.items))
    decreases |events|
  {
    if events != [] {
      var n := |events| - 1;
      ForwardAllStorage(o, env, events[..n]);
      ForwardAllSeen(o, env, events[..n]);
      var p := ForwardAll(o, env, events[..n]);
      if events[n].id !in p.seen && p.minted != o.minted {
        PersistOverwrites(env.hasWindow, env.writeOk, o.storage, p.items, ForwardAll(o, env, events).items);
      }
    }
  }

  /** Every listener is called once per forwarded event. */
  lemma {:induction false} ForwardAllDeliveries(o: Outcome, env: Env, events: seq<RemoteEvent>)
    ensures var r := ForwardAll(o, env, events);
      r.minted >= o.minted && r.deliveries == o.deliveries + Repeat(multiset(env.listeners), r.minted - o.minted)
    decreases |events|
  {
    if events != [] {
      ForwardAllDeliveries(o, env, events[..|events| - 1]);
    }
  }

  /**
   * The loop's effect in terms of the events it forwards: the seen set
   * gains the batch's ids, and the store receives exactly `NewEvents`, in
   * order, each added once, saved and announced to every listener once.
   */
  lemma ForwardAllEffect(o: Outcome, env: Env, events: seq<RemoteEvent>)
    ensures var r := ForwardAll(o, env, events);
      var sent := NewEvents(o.seen, events);
      r.seen == o.seen + IdSet(events)
      && r.items == AddAll(o.items, DraftsOf(sent), env.uuid, o.minted, env.stampedAt)
      && r.minted == o.minted + |sent|
      && r.storage == (if sent == [] then o.storage else Persist(env.hasWindow, env.writeOk, o.storage, r.items))
      && r.deliveries == o.deliveries + Repeat(multiset(env.listeners), |sent|)
  {
    ForwardAllSeen(o, env, events);
    ForwardAllItems(o, env, events);
    ForwardAllStorage(o, env, events);
    ForwardAllDeliveries(o, env, events);
  }

  /** The two refs of the hook and the store it forwards to. */
  class Poller {
    const store: NotificationStore
    var lastCheck: Option<int>
    var seenIds: set<string>

    /** The refs when the hook mounts: no check yet, nothing seen. */
    constructor(store: NotificationStore)
      ensures this.store == store && lastCheck == None && seenIds == {}
    {
      this.store := store;
      lastCheck := None;
      seenIds := {};
    }

    /** The mount effect: every id of the stored notifications (loaded if need be) is marked seen. */
    method SeedSeenIds()
      modifies this`seenIds, store`items
      ensures store.items == (if old(store.items) == [] then Load(store.hasWindow, store.storage) else old(store.items))
      ensures seenIds == old(seenIds) + NotificationIds(store.items)
    {
      var stored := store.GetNotifications();
      for i := 0 to |stored|
        invariant seenIds == old(seenIds) + NotificationIds(stored[..i])
        invariant store.items == stored
      {
        assert NotificationIds(stored[..i + 1]) == NotificationIds(stored[..i]) + {stored[i].id} by {
          assert forall k :: 0 <= k < i ==> stored[..i + 1][k] == stored[..i][k];
        }
        seenIds := seenIds + {stored[i].id};
      }
      assert stored[..|stored|] == stored;
    }

    /** The part of the state a cycle changes. */
    ghost function Snapshot(): Outcome
      reads this, store
    {
      Outcome(seenIds, store.items, store.minted, store.storage, store.deliveries)
    }

    ghost function EnvOf(stampedAt: string, writeOk: bool): Env
      reads store
    {
      Env(store.hasWindow, store.uuid, store.listeners, stampedAt, writeOk)
    }

    /**
     * One iteration of the loop of `checkForNewNotifications`: an event whose
     * id is not yet seen is marked seen and forwarded to the store; a seen one
     * is skipped.
     */
    method ForwardEvent(e: RemoteEvent, stampedAt: string, writeOk: bool) returns (forwarded: bool)
      modifies this`seenIds, store`minted, store`items, store`storage, store`deliveries
      ensures forwarded == (e.id !in old(seenIds))
      ensures Snapshot() == Forward(old(Snapshot()), EnvOf(stampedAt, writeOk), e)
    {
      forwarded := e.id !in seenIds;
      if forwarded {
        seenIds := seenIds + {e.id};
        store.AddNotification(DraftOf(e), stampedAt, writeOk);
      }
    }

    /**
     * The loop of `checkForNewNotifications` over a fetched batch; the
     * result says whether anything was forwarded.
     */
    method ForwardNewEvents(events: seq<RemoteEvent>, stampedAt: string, writeOk: bool)
      returns (hasNewData: bool)
      modifies this`seenIds, store`minted, store`items, store`storage, store`deliveries
      ensures Snapshot() == ForwardAll(old(Snapshot()), EnvOf(stampedAt, writeOk), events)
      ensures hasNewData == (NewEvents(old(seenIds), events) != [])
    {
      hasNewData := false;
      ghost var start := Snapshot();
      ghost var env := EnvOf(stampedAt, writeOk);
      for i := 0 to |events|
        invariant Snapshot() == ForwardAll(start, env, events[..i])
        invariant store.minted >= start.minted
        invariant hasNewData == (store.minted != start.minted)
      {
        ForwardAllSnoc(start, env, events[..i], events[i]);
        assert events[..i + 1] == events[..i] + [events[i]];
        var forwarded := ForwardEvent(events[i], stampedAt, writeOk);
        if forwarded {
          hasNewData := true;
        }
      }
      assert events[..|events|] == events;
      ForwardAllSeen(start, env, events);
    }

    /**
     * `checkForNewNotifications`. `startedAt` is the clock when the cycle
     * starts, `finishedAt` when the fetch has returned; `stampedAt` is the
     * creation time given to the forwarded notifications. A failed fetch
     * changes nothing; a successful one forwards the new events, records the
     * check time and invalidates the caches exactly when something was new.
     */
    method CheckForNewNotifications(startedAt: int, reply: Reply<seq<RemoteEvent>>, finishedAt: int,
                                    stampedAt: string, writeOk: bool)
      returns (since: int, invalidated: seq<string>)
      modifies this`lastCheck, this`seenIds, store`minted, store`items, store`storage, store`deliveries
      ensures since == SinceBound(old(lastCheck), startedAt)
      ensures FetchApi(reply).Failure? ==>
        lastCheck == old(lastCheck) && seenIds == old(seenIds) && invalidated == []
        && store.items == old(store.items) && store.minted == old(store.minted)
        && store.storage == old(store.storage) && store.deliveries == old(store.deliveries)
      ensures FetchApi(reply).Success? ==>
        var sent := NewEvents(old(seenIds), reply.data);
        lastCheck == Some(finishedAt)
        && seenIds == old(seenIds) + IdSet(reply.data)
        && store.items == AddAll(old(store.items), DraftsOf(sent), store.uuid, old(store.minted), stampedAt)
        && store.minted == old(store.minted) + |sent|
        && store.storage == (if sent == [] then old(store.storage)
                             else Persist(store.hasWindow, writeOk, old(store.storage), store.items))
        && store.deliveries == old(store.deliveries) + Repeat(multiset(store.listeners), |sent|)
        && invalidated == (if sent != [] then DependentCaches else [])
    {
      since := SinceBound(lastCheck, startedAt);
      invalidated := [];
      var result := FetchApi(reply);
      if result.Failure? {
        return;
      }
      var hasNewData := ForwardNewEvents(result.value, stampedAt, writeOk);
      ForwardAllEffect(old(Snapshot()), EnvOf(stampedAt, writeOk), result.value);
      lastCheck := Some(finishedAt);
      if hasNewData {
        invalidated := DependentCaches;
      }
    }
  }
}
