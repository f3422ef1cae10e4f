/**
 * src/features/saved/store.ts: the set of item ids the user has saved, loaded
 * once per session, with an optimistic toggle that is reverted when the
 * backend call fails. The backend calls are parameters; each await point
 * splits an operation into methods, so other operations may run in between.
 */
module SavedStore {
  import opened Wrappers

  /** The set with `id`'s membership flipped and every other id left alone. */
  function Flip(s: set<string>, id: string): (r: set<string>)
    ensures id in r <==> id !in s
    ensures forall x :: x != id ==> (x in r <==> x in s)
  {
    if id in s then s - {id} else s + {id}
  }

  /** The set with `id`'s membership forced to `member` and every other id left alone. */
  function Restore(s: set<string>, id: string, member: bool): (r: set<string>)
    ensures id in r <==> member
    ensures forall x :: x != id ==> (x in r <==> x in s)
  {
    if member then s + {id} else s - {id}
  }

  /** Two flips of the same id give back the original set. */
  lemma FlipTwice(s: set<string>, id: string)
    ensures Flip(Flip(s, id), id) == s
  {
    var r := Flip(Flip(s, id), id);
    assert forall x :: x in r <==> x in s;
  }

  /** Reverting straight after the optimistic flip gives back the original set. */
  lemma RevertUndoesFlip(s: set<string>, id: string)
    ensures Restore(Flip(s, id), id, id in s) == s
  {
    var r := Restore(Flip(s, id), id, id in s);
    assert forall x :: x in r <==> x in s;
  }

  class SavedStore {
    var savedIds: set<string>
    var loading: bool
    var initialized: bool

    /** The initial state: nothing saved, not loading, not yet loaded. */
    constructor ()
      ensures savedIds == {} && !loading && !initialized
    {
      savedIds := {};
      loading := false;
      initialized := false;
    }

    /** `isSaved`. */
    function IsSaved(itemId: string): (r: bool)
      reads this
      ensures r <==> itemId in savedIds
    {
      itemId in savedIds
    }

    /**
     * `fetchSavedIds`: does nothing once loaded; otherwise takes the fetched
     * ids as the saved set and marks the store loaded, or on failure keeps
     * both as they were; loading is off afterwards either way.
     */
    method FetchSavedIds(userId: string, fetchSavedItemIds: string -> Result<seq<string>, Thrown>)
      modifies this
      ensures old(initialized) ==> savedIds == old(savedIds) && loading == old(loading) && initialized
      ensures !old(initialized) && fetchSavedItemIds(userId).Ok? ==>
                (forall x :: x in savedIds <==> x in fetchSavedItemIds(userId).value) && initialized && !loading
      ensures !old(initialized) && fetchSavedItemIds(userId).Err? ==>
                savedIds == old(savedIds) && !initialized && !loading
    {
      if initialized {
        return;
      }
      loading := true;
      var ids := fetchSavedItemIds(userId);
      if ids.Ok? {
        savedIds := set x | x in ids.value;
        initialized := true;
      }
      loading := false;
    }

    /** The optimistic half of `toggleSave`: flips the item now and returns whether it was saved before. */
    method BeginToggle(itemId: string) returns (wasSaved: bool)
      modifies this
      ensures wasSaved <==> itemId in old(savedIds)
      ensures savedIds == Flip(old(savedIds), itemId)
      ensures loading == old(loading) && initialized == old(initialized)
    {
      wasSaved := itemId in savedIds;
      var newSet := savedIds;
      if wasSaved {
        newSet := newSet - {itemId};
      } else {
        newSet := newSet + {itemId};
      }
      savedIds := newSet;
    }

    /**
     * The settling half of `toggleSave`, once the backend has answered: on
     * failure the item's membership is set back to what it was before the
     * toggle (whatever happened meanwhile) and the error is rethrown.
     */
    method SettleToggle(itemId: string, wasSaved: bool, outcome: Result<(), Thrown>) returns (r: Result<(), Thrown>)
      modifies this
      ensures outcome.Ok? ==> savedIds == old(savedIds)
      ensures outcome.Err? ==> savedIds == Restore(old(savedIds), itemId, wasSaved)
      ensures r == outcome
      ensures loading == old(loading) && initialized == old(initialized)
    {
      if outcome.Err? {
        var newSet := savedIds;
        if wasSaved {
          newSet := newSet + {itemId};
        } else {
          newSet := newSet - {itemId};
        }
        savedIds := newSet;
      }
      r := outcome;
    }

    /**
     * `toggleSave` run without anything in between: `saveItem` or
     * `unsaveItem` is chosen by the membership before the call; success
     * leaves the item flipped, failure leaves the set exactly as it was.
     */
    method ToggleSave(itemId: string, userId: string,
                      saveItem: (string, string) -> Result<(), Thrown>,
                      unsaveItem: (string, string) -> Result<(), Thrown>)
      returns (r: Result<(), Thrown>)
      modifies this
      ensures r == if itemId in old(savedIds) then unsaveItem(itemId, userId) else saveItem(itemId, userId)
      ensures r.Ok? ==> savedIds == Flip(old(savedIds), itemId)
      ensures r.Err? ==> savedIds == old(savedIds)
      ensures loading == old(loading) && initialized == old(initialized)
    {
      var wasSaved := BeginToggle(itemId);
      var outcome: Result<(), Thrown>;
      if wasSaved {
        outcome := unsaveItem(itemId, userId);
      } else {
        outcome := saveItem(itemId, userId);
      }
      r := SettleToggle(itemId, wasSaved, outcome);
      RevertUndoesFlip(old(savedIds), itemId);
    }

    /** `reset`: forgets the saved ids and the loaded mark; loading is untouched. */
    method Reset()
      modifies this
      ensures savedIds == {} && !initialized && loading == old(loading)
    {
      savedIds := {};
      initialized := false;
    }
  }
}
