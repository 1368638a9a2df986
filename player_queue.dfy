/**
 * PlayerQueue and the player device it drives, as objects updated in place.
 *
 * Each asynchronous mutation of PlayerQueue.swift is split where it blocks
 * or waits for the device: a call method, which evaluates the call's
 * arguments and blocks in the semaphore wait; `Resume`, the end of that wait
 * (take the token and call into the device, or time out and drop the call);
 * and one method per completion handler the device later calls back, with
 * the device's success or error as the flag `ok`. Every call, wait and
 * callback method is proved to perform the matching transition of
 * QueueSpec.Next and to keep QueueSpec.Inv.
 */
module Playback {
  import opened Wrappers
  import opened Music
  import opened QueueSpec

  /**
   * The external player device (the application queue player): its queue
   * and the identity it gives the next entry it creates. A transaction that
   * fails leaves the queue as it was.
   */
  class Player {
    var queue: seq<Item>
    var nextKey: nat

    constructor ()
      ensures queue == [] && nextKey == 0
    {
      queue := [];
      nextKey := 0;
    }

    /** setQueue(with:): the queue becomes the one song. */
    method SetQueue(song: Song)
      modifies this
      ensures queue == [Item(old(nextKey), song)] && nextKey == old(nextKey) + 1
    {
      queue := [Item(nextKey, song)];
      nextKey := nextKey + 1;
    }

    /** An insert transaction: pick the reference entry by index (nil if empty), insert after it, report the queue. */
    method PerformInsert(index: int, song: Song, ok: bool) returns (reported: Option<seq<Item>>)
      requires AnchorDefined(queue, index)
      modifies this
      ensures ok ==> queue == InsertAfter(old(queue), Anchor(old(queue), index), Item(old(nextKey), song))
                     && nextKey == old(nextKey) + 1 && reported == Some(queue)
      ensures !ok ==> queue == old(queue) && nextKey == old(nextKey) && reported == None
    {
      if ok {
        queue := InsertAfter(queue, Anchor(queue, index), Item(nextKey, song));
        nextKey := nextKey + 1;
        reported := Some(queue);
      } else {
        reported := None;
      }
    }

    /** A remove transaction on an item object, then report the queue. */
    method PerformRemove(item: Item, ok: bool) returns (reported: Option<seq<Item>>)
      modifies this
      ensures ok ==> queue == WithoutKey(old(queue), item.key) && reported == Some(queue)
      ensures !ok ==> queue == old(queue) && reported == None
      ensures nextKey == old(nextKey)
    {
      if ok {
        queue := WithoutKey(queue, item.key);
        reported := Some(queue);
      } else {
        reported := None;
      }
    }
  }

  class PlayerQueue {
    const player: Player
    var items: seq<Item>
    var isQueueCreated: bool
    var permits: int          // DispatchSemaphore(value: 1)
    var pending: Pending      // the completion handler the device still owes
    var waiting: seq<Call>    // calls blocked in the semaphore wait
    var refreshes: nat        // create's refresh transactions still running

    function State(): QState
      reads this, player
    {
      QState(items, isQueueCreated, permits, pending, waiting, refreshes, player.queue, player.nextKey)
    }

    ghost predicate Valid()
      reads this, player
    {
      Inv(State())
    }

    constructor ()
      ensures Valid() && fresh(player) && State() == Initial
    {
      player := new Player();
      items := [];
      isQueueCreated := false;
      permits := 1;
      pending := Idle;
      waiting := [];
      refreshes := 0;
    }

    /** The semaphore wait with its timeout: true when the token was taken. */
    method Wait() returns (acquired: bool)
      modifies this`permits
      ensures acquired == (old(permits) > 0)
      ensures permits == if acquired then old(permits) - 1 else old(permits)
    {
      acquired := permits > 0;
      if acquired {
        permits := permits - 1;
      }
    }

    /** The semaphore signal. */
    method Signal()
      modifies this`permits
      ensures permits == old(permits) + 1
    {
      permits := permits + 1;
    }

    /** create(with:) is called and blocks in the wait. */
    method Create(song: Song)
      requires Valid()
      modifies this`waiting
      ensures Valid() && State() == Called(old(State()), CreateCall(song))
    {
      waiting := waiting + [CreateCall(song)];
    }

    /** insert(after:with:) is called with its reference index and blocks in the wait. */
    method Insert(index: int, song: Song)
      requires Valid()
      modifies this`waiting
      ensures Valid() && State() == Called(old(State()), InsertCall(index, song))
    {
      waiting := waiting + [InsertCall(index, song)];
    }

    /** add(with:): decide between create and insert, and compute the index, before either waits. */
    method Add(song: Song)
      requires Valid()
      modifies this`waiting
      ensures Valid() && State() == Next(old(State()), AddCalled(song))
    {
      if !isQueueCreated {
        Create(song);
      } else {
        Insert(|items| - 1, song);
      }
    }

    /** remove(at:) is called and blocks in the wait. */
    method Remove(index: int)
      requires Valid()
      modifies this`waiting
      ensures Valid() && State() == Next(old(State()), RemoveCalled(index))
    {
      waiting := waiting + [RemoveCall(index)];
    }

    /** swap(from:to:) reads the local entry at `from`, then blocks in the wait. */
    method Swap(from: int, to: int)
      requires Valid() && 0 <= from < |items|
      modifies this`waiting
      ensures Valid() && State() == Next(old(State()), SwapCalled(from, to))
    {
      var swappedItem := items[from];
      waiting := waiting + [SwapCall(swappedItem, to)];
    }

    /**
     * The wait of waiting call k returns: with the token taken, the call goes
     * on with the arguments it read before waiting; after a timeout it is dropped.
     */
    method Resume(k: nat) returns (accepted: bool)
      requires Valid() && k < |waiting|
      modifies this, player
      ensures Valid() && accepted == (old(permits) > 0)
      ensures State() == Next(old(State()), WaitEnds(k))
    {
      NextKeepsInv(State(), WaitEnds(k));
      var call := waiting[k];
      waiting := DeleteAt(waiting, k);
      accepted := Wait();
      if !accepted {
        return;
      }
      match call
      case CreateCall(song) =>
        player.SetQueue(song);
        pending := Preparing;
      case InsertCall(index, song) =>
        pending := Inserting(index, song);
      case RemoveCall(index) =>
        pending := Removing(index);
      case SwapCall(item, to) =>
        pending := SwapRemoving(item, to);
    }

    /** The prepareToPlay completion of create: on success issue the refresh and mark the queue created. */
    method PrepareCompleted(ok: bool)
      requires Valid() && Enabled(State(), QueueSpec.PrepareCompleted(ok))
      modifies this
      ensures Valid() && State() == Next(old(State()), QueueSpec.PrepareCompleted(ok))
    {
      NextKeepsInv(State(), QueueSpec.PrepareCompleted(ok));
      pending := Idle;
      if ok {
        refreshes := refreshes + 1;
        isQueueCreated := true;
      }
      Signal();
    }

    /** The completion of create's empty refresh transaction, which holds no token. */
    method RefreshCompleted()
      requires Valid() && refreshes > 0
      modifies this
      ensures Valid() && State() == Next(old(State()), QueueSpec.RefreshCompleted)
    {
      NextKeepsInv(State(), QueueSpec.RefreshCompleted);
      items := player.queue;
      refreshes := refreshes - 1;
    }

    /** The insert transaction and its completion. */
    method InsertCompleted(ok: bool)
      requires Valid() && Enabled(State(), QueueSpec.InsertCompleted(ok))
      modifies this, player
      ensures Valid() && State() == Next(old(State()), QueueSpec.InsertCompleted(ok))
    {
      NextKeepsInv(State(), QueueSpec.InsertCompleted(ok));
      var reported := player.PerformInsert(pending.after, pending.song, ok);
      pending := Idle;
      if reported.Some? {
        items := reported.value;
      }
      Signal();
    }

    /** The remove transaction (on the device entry at the index) and its completion. */
    method RemoveCompleted(ok: bool)
      requires Valid() && Enabled(State(), QueueSpec.RemoveCompleted(ok))
      modifies this, player
      ensures Valid() && State() == Next(old(State()), QueueSpec.RemoveCompleted(ok))
    {
      NextKeepsInv(State(), QueueSpec.RemoveCompleted(ok));
      var reported := player.PerformRemove(player.queue[pending.at], ok);
      pending := Idle;
      if reported.Some? {
        items := reported.value;
      }
      Signal();
    }

    /** Completion of the swap's removal: on success keep the token and issue the reinsert. */
    method SwapRemoveCompleted(ok: bool)
      requires Valid() && Enabled(State(), QueueSpec.SwapRemoveCompleted(ok))
      modifies this, player
      ensures Valid() && State() == Next(old(State()), QueueSpec.SwapRemoveCompleted(ok))
    {
      NextKeepsInv(State(), QueueSpec.SwapRemoveCompleted(ok));
      var p := pending;
      var reported := player.PerformRemove(p.item, ok);
      if reported.None? {
        pending := Idle;
        Signal();
        return;
      }
      pending := SwapReinserting(p.item, p.to);
    }

    /** Completion of the swap's reinsert: release the token; adopt the device queue on success. */
    method SwapReinsertCompleted(ok: bool)
      requires Valid() && Enabled(State(), QueueSpec.SwapReinsertCompleted(ok))
      modifies this, player
      ensures Valid() && State() == Next(old(State()), QueueSpec.SwapReinsertCompleted(ok))
    {
      NextKeepsInv(State(), QueueSpec.SwapReinsertCompleted(ok));
      var reported := player.PerformInsert(pending.to, pending.item.song, ok);
      pending := Idle;
      if reported.Some? {
        items := reported.value;
      }
      Signal();
    }

    function Count(): (n: nat)
      reads this
      ensures n == |items|
    {
      |items|
    }

    /** get(at:): nothing for an index outside 0 ..< count(), the local entry otherwise. */
    function Get(index: int): (r: Option<Item>)
      reads this
      ensures r.None? <==> index < 0 || index >= Count()
      ensures r.Some? ==> r.value == items[index]
    {
      if index >= 0 && Count() > index then Some(items[index]) else None
    }
  }
}
