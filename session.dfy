/** The session store: one owner id persisted in the browser's local storage. */
module Session {
  import opened Common

  /** The local-storage key under which the owner id is kept. */
  const OwnerIdKey := "w-o-id"

  /** Presence of an owner id is what "authenticated" means. */
  predicate IsAuthenticatedValue(owner: Option<string>) {
    owner.Some?
  }

  /** The request guard `if (!ownerId)`: an absent or empty owner id is refused. */
  predicate OwnerUsable(owner: Option<string>)
    ensures OwnerUsable(owner) ==> IsAuthenticatedValue(owner)
  {
    owner.Some? && owner.value != ""
  }

  /** An empty owner id counts as authenticated, yet every request refuses it. */
  lemma EmptyOwnerIsAuthenticatedButUnusable()
    ensures IsAuthenticatedValue(Some("")) && !OwnerUsable(Some(""))
    ensures forall o :: OwnerUsable(o) ==> IsAuthenticatedValue(o)
  {
  }

  /** The local storage slot for `OwnerIdKey`. Outside a browser (server-side
      rendering) there is no storage: reads yield nothing and writes do nothing. */
  class Store {
    const inBrowser: bool
    var slot: Option<string>

    constructor (inBrowser: bool, slot: Option<string>)
      ensures this.inBrowser == inBrowser && this.slot == slot
    {
      this.inBrowser := inBrowser;
      this.slot := slot;
    }

    /** `getOwnerId()` */
    function GetOwnerId(): (owner: Option<string>)
      reads this
      ensures !inBrowser ==> owner.None?
      ensures inBrowser ==> owner == slot
    {
      if inBrowser then slot else None
    }

    /** `isAuthenticated()`: `getOwnerId() !== null` */
    predicate IsAuthenticated()
      reads this
      ensures IsAuthenticated() <==> inBrowser && slot.Some?
    {
      IsAuthenticatedValue(GetOwnerId())
    }

    /** `setOwnerId(id)` */
    method SetOwnerId(id: string)
      modifies this
      ensures slot == (if inBrowser then Some(id) else old(slot))
      ensures inBrowser ==> GetOwnerId() == Some(id) && IsAuthenticated()
      ensures !inBrowser ==> GetOwnerId() == None && !IsAuthenticated()
    {
      if inBrowser {
        slot := Some(id);
      }
    }

    /** `clearOwnerId()` */
    method ClearOwnerId()
      modifies this
      ensures slot == (if inBrowser then None else old(slot))
      ensures GetOwnerId() == None && !IsAuthenticated()
    {
      if inBrowser {
        slot := None;
      }
    }

    /** `signOut()`: clears the session; no request is made. */
    method SignOut()
      modifies this
      ensures slot == (if inBrowser then None else old(slot))
      ensures GetOwnerId() == None && !IsAuthenticated()
    {
      ClearOwnerId();
    }
  }
}
