/**
 * The history sidebar (src/components/Sidebar.tsx): the signed-in user's
 * past searches, mirrored to the `kb_history_cache` slot of local storage so
 * that a reload shows them at once. Deleting one entry waits for the backend;
 * clearing all of them is optimistic and rolls back when the backend refuses.
 *
 * Each awaited backend call splits a handler in two: the part before the
 * `await` and the part after it, whose input is what the call returned.
 * JSON serialisation of the slot is taken to round-trip exactly.
 */
module Sidebar {
  import opened Wrappers

  /** The alert shown when clearing the history fails. */
  const CLEAR_FAILED := "Failed to clear history. Please try again."

  /** One entry of the history list, as the backend returns it. */
  datatype HistoryItem = HistoryItem(id: string, topic: string, mode: string, levels: seq<string>)

  /** `items.filter(item => item.id !== id)`. */
  function WithoutId(items: seq<HistoryItem>, id: string): seq<HistoryItem> {
    if items == [] then []
    else (if items[0].id == id then [] else [items[0]]) + WithoutId(items[1..], id)
  }

  /** The filter keeps exactly the entries with another id. */
  lemma {:induction false} WithoutIdMembers(items: seq<HistoryItem>, id: string)
    ensures forall x :: x in WithoutId(items, id) <==> x in items && x.id != id
  {
    if items != [] {
      WithoutIdMembers(items[1..], id);
      assert items == [items[0]] + items[1..];
    }
  }

  /** The filter works entry by entry, so it keeps the order of what it keeps. */
  lemma {:induction false} WithoutIdAppend(a: seq<HistoryItem>, b: seq<HistoryItem>, id: string)
    ensures WithoutId(a + b, id) == WithoutId(a, id) + WithoutId(b, id)
  {
    if a != [] {
      assert (a + b)[0] == a[0] && (a + b)[1..] == a[1..] + b;
      WithoutIdAppend(a[1..], b, id);
    } else {
      assert a + b == b;
    }
  }

  /** A list with no entry of that id is left as it is; in particular filtering twice is filtering once. */
  lemma {:induction false} WithoutIdAbsent(items: seq<HistoryItem>, id: string)
    requires forall i :: 0 <= i < |items| ==> items[i].id != id
    ensures WithoutId(items, id) == items
  {
    if items != [] {
      WithoutIdAbsent(items[1..], id);
    }
  }

  lemma WithoutIdIdempotent(items: seq<HistoryItem>, id: string)
    ensures WithoutId(WithoutId(items, id), id) == WithoutId(items, id)
  {
    var r := WithoutId(items, id);
    WithoutIdMembers(items, id);
    forall i | 0 <= i < |r| ensures r[i].id != id {
      assert r[i] in r;
    }
    WithoutIdAbsent(r, id);
  }

  /** The history list a freshly mounted sidebar shows: the cached list, else nothing. */
  function Restored(slot: Option<seq<HistoryItem>>): (items: seq<HistoryItem>)
    ensures slot.None? ==> items == []
    ensures slot.Some? ==> items == slot.value
  {
    if slot.Some? then slot.value else []
  }

  /** The `kb_history_cache` slot of local storage, which outlives every sidebar. */
  class HistorySlot {
    var value: Option<seq<HistoryItem>>

    constructor (value: Option<seq<HistoryItem>>)
      ensures this.value == value
    {
      this.value := value;
    }
  }

  class Sidebar {
    var history: seq<HistoryItem>
    var isLoading: bool
    var showDeleteModal: bool
    var isDeletingAll: bool
    const slot: HistorySlot

    /** Mounting: the list starts as whatever the slot holds. */
    constructor (slot: HistorySlot)
      ensures this.slot == slot
      ensures history == Restored(slot.value)
      ensures !isLoading && !showDeleteModal && !isDeletingAll
    {
      this.slot := slot;
      history := if slot.value.Some? then slot.value.value else [];
      isLoading, showDeleteModal, isDeletingAll := false, false, false;
    }

    /**
     * The effect on the user (and the refresh counter): a signed-in user's
     * history is reloaded, showing the spinner only while the list is empty;
     * signing out empties the list and removes the slot.
     */
    method UserEffect(signedIn: bool)
      modifies this, slot
      ensures signedIn ==> history == old(history) && slot.value == old(slot.value)
      ensures signedIn ==> isLoading == (old(isLoading) || old(history) == [])
      ensures !signedIn ==> history == [] && slot.value == None && isLoading == old(isLoading)
      ensures showDeleteModal == old(showDeleteModal) && isDeletingAll == old(isDeletingAll)
    {
      if signedIn {
        LoadStart();
      } else {
        history := [];
        slot.value := None;
      }
    }

    /** `loadHistory` before its request. */
    method LoadStart()
      modifies this
      ensures history == old(history)
      ensures isLoading == (old(isLoading) || old(history) == [])
      ensures showDeleteModal == old(showDeleteModal) && isDeletingAll == old(isDeletingAll)
    {
      if |history| == 0 {
        isLoading := true;
      }
    }

    /**
     * `loadHistory` once the request has settled (`None`: it failed): a
     * loaded list replaces the shown one and is mirrored to the slot; a
     * failure leaves both alone. Either way the spinner stops.
     */
    method LoadFinish(data: Option<seq<HistoryItem>>)
      modifies this, slot
      ensures history == if data.Some? then data.value else old(history)
      ensures slot.value == if data.Some? then data else old(slot.value)
      ensures !isLoading
      ensures showDeleteModal == old(showDeleteModal) && isDeletingAll == old(isDeletingAll)
    {
      if data.Some? {
        history := data.value;
        slot.value := data;
      }
      isLoading := false;
    }

    /**
     * `handleDelete` once the backend has answered: only a successful
     * delete removes the entries with that id. The slot is not touched, so
     * it keeps the deleted entry until the next load.
     */
    method Delete(id: string, succeeded: bool)
      modifies this
      ensures history == if succeeded then WithoutId(old(history), id) else old(history)
      ensures forall x :: succeeded && x in history ==> x.id != id
      ensures isLoading == old(isLoading) && showDeleteModal == old(showDeleteModal)
      ensures isDeletingAll == old(isDeletingAll)
    {
      WithoutIdMembers(history, id);
      if succeeded {
        history := WithoutId(history, id);
      }
    }

    /** `handleDeleteAll` before its request: the list and the slot are emptied at once, and the snapshot is returned. */
    method DeleteAllStart() returns (previous: seq<HistoryItem>)
      modifies this, slot
      ensures previous == old(history)
      ensures history == [] && slot.value == None
      ensures isDeletingAll && !showDeleteModal && isLoading == old(isLoading)
    {
      isDeletingAll := true;
      previous := history;
      history := [];
      slot.value := None;
      showDeleteModal := false;
    }

    /**
     * `handleDeleteAll` once the backend has answered: a failure restores
     * the snapshot to the list and the slot and alerts the user.
     */
    method DeleteAllFinish(previous: seq<HistoryItem>, succeeded: bool) returns (alert: Option<string>)
      modifies this, slot
      ensures succeeded ==> history == old(history) && slot.value == old(slot.value)
      ensures !succeeded ==> history == previous && slot.value == Some(previous)
      ensures alert == if succeeded then None else Some(CLEAR_FAILED)
      ensures !isDeletingAll && isLoading == old(isLoading) && showDeleteModal == old(showDeleteModal)
    {
      alert := None;
      if !succeeded {
        history := previous;
        slot.value := Some(previous);
        alert := Some(CLEAR_FAILED);
      }
      isDeletingAll := false;
    }

    /**
     * `handleDeleteAll` with nothing in between its two halves: success
     * leaves the list and the slot empty; failure puts back the list as it
     * was, alerts the user, and a reload would then show that list too.
     */
    method DeleteAll(succeeded: bool) returns (alert: Option<string>)
      modifies this, slot
      ensures history == if succeeded then [] else old(history)
      ensures alert == if succeeded then None else Some(CLEAR_FAILED)
      ensures slot.value == if succeeded then None else Some(old(history))
      ensures Restored(slot.value) == history
      ensures !isDeletingAll && !showDeleteModal && isLoading == old(isLoading)
    {
      var previous := DeleteAllStart();
      alert := DeleteAllFinish(previous, succeeded);
    }
  }
}
