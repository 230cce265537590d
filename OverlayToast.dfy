/** `useOverlayToast`: every toast shown holds the page overlay up until its
    own timer runs out. Timers are explicit here: `ShowToast` schedules one,
    and `Expire` is the event of one firing. */
module OverlayToast {
  import opened Common

  const DefaultDuration := 3000
  /** The timer outlives the toast by this many milliseconds. */
  const Buffer := 50

  /** One call of the underlying `toast`. */
  datatype ToastCall = ToastCall(title: string, description: Option<string>, duration: int)

  function EffectiveDuration(duration: Option<int>): (d: int)
    ensures duration.None? ==> d == DefaultDuration
    ensures duration.Some? ==> d == duration.value
  {
    if duration.Some? then duration.value else DefaultDuration
  }

  /** Registering a fresh id keeps the counter, the map and the scheduled
      callbacks in step. */
  lemma AddFresh<K>(m: map<K, int>, p: multiset<K>, n: nat, k: K, v: int)
    requires n == |m| && p == multiset(m.Keys) && k !in m
    ensures n + 1 == |m[k := v]| && p + multiset{k} == multiset(m[k := v].Keys)
  {
    assert m[k := v].Keys == m.Keys + {k};
  }

  /** So does the expiry of a scheduled id. */
  lemma RemoveKey<K>(m: map<K, int>, p: multiset<K>, n: nat, k: K)
    requires n == |m| && p == multiset(m.Keys) && k in p
    ensures k in m && n > 0
    ensures n - 1 == |m - {k}| && p - multiset{k} == multiset((m - {k}).Keys)
    ensures m - {k} == map[] <==> n == 1
  {
    assert (m - {k}).Keys == m.Keys - {k};
    assert m.Keys == (m - {k}).Keys + {k};
    if m - {k} != map[] {
      var j :| j in m - {k};
      assert j in m && j != k;
    }
  }

  class OverlayToastState {
    var activeCount: nat
    /** The timer map: toast id to the delay its timer was set with (the
        source keeps the timeout handle). */
    var timers: map<string, int>
    /** The callbacks still scheduled, by toast id. A repeated id overwrites
        its map entry but not the earlier callback, so this can hold an id
        more than once. */
    var pending: multiset<string>
    var overlayVisible: bool
    /** The toasts handed to the underlying `toast`, oldest first. */
    var shown: seq<ToastCall>

    /** While any toast is counted the overlay is visible. */
    predicate Valid()
      reads this
    {
      activeCount > 0 ==> overlayVisible
    }

    /** When every id was fresh, the counter is the number of pending timers
        and each of them has its entry in the map. */
    predicate Synced()
      reads this
    {
      activeCount == |timers| && pending == multiset(timers.Keys)
    }

    constructor ()
      ensures Valid() && Synced()
      ensures activeCount == 0 && timers == map[] && pending == multiset{} && !overlayVisible && shown == []
    {
      activeCount := 0;
      timers := map[];
      pending := multiset{};
      overlayVisible := false;
      shown := [];
    }

    /** `showToast`: count the toast, raise the overlay, show the toast and
        schedule its expiry `duration + 50` ms later under the id drawn for
        it, which is returned. */
    method ShowToast(title: string, description: Option<string>, duration: Option<int>, freshId: string)
      returns (id: string)
      requires Valid()
      modifies this
      ensures Valid() && overlayVisible
      ensures id == freshId
      ensures activeCount == old(activeCount) + 1
      ensures timers == old(timers)[id := EffectiveDuration(duration) + Buffer]
      ensures pending == old(pending) + multiset{id}
      ensures shown == old(shown) + [ToastCall(title, description, EffectiveDuration(duration))]
      ensures old(Synced()) && freshId !in old(timers) ==> Synced()
    {
      var d := EffectiveDuration(duration);
      activeCount := activeCount + 1;
      overlayVisible := true;
      shown := shown + [ToastCall(title, description, d)];
      id := freshId;
      timers := timers[id := d + Buffer];
      pending := pending + multiset{id};
      if old(Synced()) && freshId !in old(timers) {
        AddFresh(old(timers), old(pending), old(activeCount), id, d + Buffer);
      }
    }

    /** The timer of toast `id` fires: the counter drops (never below zero),
        the id leaves the map, and the overlay is hidden once the counter
        reaches zero. */
    method Expire(id: string)
      requires Valid() && id in pending
      modifies this
      ensures Valid()
      ensures activeCount == if old(activeCount) > 0 then old(activeCount) - 1 else 0
      ensures timers == old(timers) - {id}
      ensures pending == old(pending) - multiset{id}
      ensures overlayVisible == (old(overlayVisible) && activeCount > 0)
      ensures shown == old(shown)
      ensures old(Synced()) ==> Synced() && (overlayVisible <==> timers != map[])
    {
      var m, p, n := timers, pending, activeCount;
      ghost var synced := n == |m| && p == multiset(m.Keys);
      if synced {
        RemoveKey(m, p, n, id);
      }
      var count := if n > 0 then n - 1 else 0;
      activeCount, timers, pending := count, m - {id}, p - multiset{id};
      // hidden when the count reaches zero, otherwise left as it was
      overlayVisible := overlayVisible && count > 0;
    }

    /** `hideAll`: cancel the timer of every id in the map, reset the counter
        and hide the overlay. */
    method HideAll()
      requires Valid()
      modifies this
      ensures Valid()
      ensures old(Synced()) ==> Synced()
      ensures activeCount == 0 && timers == map[] && !overlayVisible
      ensures pending == old(pending) - multiset(old(timers).Keys)
      ensures shown == old(shown)
    {
      pending := pending - multiset(timers.Keys);
      timers := map[];
      activeCount := 0;
      overlayVisible := false;
    }

    /** The unmount cleanup: the same as `hideAll` except that the overlay
        flag is left as it was. */
    method Unmount()
      requires Valid()
      modifies this
      ensures Valid()
      ensures activeCount == 0 && timers == map[] && overlayVisible == old(overlayVisible)
      ensures pending == old(pending) - multiset(old(timers).Keys)
      ensures old(Synced()) ==> Synced()
      ensures shown == old(shown)
    {
      pending := pending - multiset(timers.Keys);
      timers := map[];
      activeCount := 0;
    }
  }

  /** Two toasts with fresh ids: the overlay stays up after the first expiry
      and comes down with the second. */
  method TwoToasts() returns (visibleAfterFirst: bool, visibleAfterSecond: bool)
    ensures visibleAfterFirst && !visibleAfterSecond
  {
    var t := new OverlayToastState();
    var a := t.ShowToast("Product Added", None, None, "a");
    var b := t.ShowToast("Deal Updated", None, Some(1000), "b");
    assert t.timers == map["a" := 3050, "b" := 1050];
    t.Expire(b);
    visibleAfterFirst := t.overlayVisible;
    t.Expire(a);
    visibleAfterSecond := t.overlayVisible;
  }
}
