/** The wishlist page controller: the in-memory item list kept in sync with the
    remote store by optimistic updates, the session-driven flags, and which panel
    the page shows. Each handler runs as one step; the replies of its awaited calls
    are parameters. */
module WishlistPage {
  import opened Common
  import opened Items
  import opened ItemList
  import Api
  import Session

  /** The page's state fields, as one value. */
  datatype View = View(
    isMounted: bool,
    isInTelegram: bool,
    isUserAuthenticated: bool,
    showAuthModal: bool,
    showShareModal: bool,
    apiItems: seq<Item>,
    isLoading: bool,
    isModalOpen: bool,
    modalMode: FormMode,
    selectedItem: Option<Item>,
    showDeleteModal: bool,
    itemToDelete: Option<Item>,
    isDeleting: bool,
    imageErrors: set<string>)

  /** The initial values of the page's state. */
  const Initial := View(false, false, false, false, false, [], true, false, CreateMode, None, false, None, false, {})

  /** How a handler's promise settles: it resolves, or it rethrows a client failure. */
  datatype Outcome = Resolved | Threw(failure: Api.Failure)

  // ---- what the page shows ----

  /** The sign-in button; the user's own controls never appear beside it. */
  predicate ShowSignInButton(v: View)
    ensures ShowSignInButton(v) ==> !ShowShareButton(v) && !ShowAddButton(v) && !ShowFooterNote(v)
  {
    v.isMounted && !v.isUserAuthenticated && !v.isInTelegram
  }

  /** The sign-out button; never shown together with the sign-in button. */
  predicate ShowSignOutButton(v: View)
    ensures ShowSignOutButton(v) ==> !ShowSignInButton(v)
    ensures ShowSignOutButton(v) || ShowSignInButton(v) <==> v.isMounted && !v.isInTelegram
  {
    v.isMounted && v.isUserAuthenticated && !v.isInTelegram
  }

  /** The share button: never for a visitor, never for an empty list. */
  predicate ShowShareButton(v: View)
    ensures !v.isUserAuthenticated || v.apiItems == [] ==> !ShowShareButton(v)
  {
    v.isUserAuthenticated && |v.apiItems| > 0
  }

  /** The welcome screen: only for an anonymous visitor outside the host app once loading is over. */
  predicate ShowWelcome(v: View)
    ensures ShowWelcome(v) ==> !v.isUserAuthenticated && !v.isLoading && !v.isInTelegram
    ensures ShowWelcome(v) ==> !ShowShareButton(v) && !ShowSignOutButton(v)
  {
    v.isMounted && !v.isUserAuthenticated && !v.isLoading && !v.isInTelegram
  }

  /** The header is for authenticated users: never beside the welcome screen or the sign-in button. */
  predicate ShowHeader(v: View)
    ensures ShowHeader(v) ==> !ShowWelcome(v) && !ShowSignInButton(v)
  {
    v.isUserAuthenticated
  }

  /** The add button, nested in the authenticated content, appears exactly with the share button. */
  predicate ShowAddButton(v: View)
    ensures ShowAddButton(v) <==> ShowShareButton(v)
  {
    v.isUserAuthenticated && |v.apiItems| > 0
  }

  /** The footer note appears exactly with the add button. */
  predicate ShowFooterNote(v: View)
    ensures ShowFooterNote(v) <==> ShowAddButton(v)
  {
    v.isUserAuthenticated && |v.apiItems| > 0
  }

  /** The main content area of an authenticated user. */
  datatype Panel = NoPanel | Loading | EmptyState | Grid

  /** Which of the loading spinner, the empty state and the grid is shown: at most one. */
  function ContentPanel(v: View): (p: Panel)
    ensures p == NoPanel <==> !v.isUserAuthenticated
    ensures p == Loading <==> v.isUserAuthenticated && v.isLoading
    ensures p == EmptyState <==> v.isUserAuthenticated && !v.isLoading && |v.apiItems| == 0
    ensures p == Grid <==> v.isUserAuthenticated && !v.isLoading && |v.apiItems| > 0
    ensures p == Grid ==> ShowShareButton(v) && ShowAddButton(v)
    ensures p != NoPanel ==> !ShowWelcome(v)
  {
    if !v.isUserAuthenticated then NoPanel
    else if v.isLoading then Loading
    else if |v.apiItems| == 0 then EmptyState
    else Grid
  }

  /** Edit and delete controls on a card: only for the user's own remote items. */
  predicate ShowItemControls(v: View, product: Item)
    ensures ShowItemControls(v, product) ==> ShowHeader(v)
  {
    v.isUserAuthenticated && product.source == Api
  }

  /** A card shows the placeholder instead of its image before mount or after the image failed. */
  predicate ShowImagePlaceholder(v: View, product: Item)
    ensures v.isMounted && v.imageErrors == {} ==> !ShowImagePlaceholder(v, product)
    ensures !v.isMounted ==> ShowImagePlaceholder(v, product)
  {
    !v.isMounted || product.id in v.imageErrors
  }

  /** On a signed-in page whose list is all api, every card shows its edit and delete controls. */
  lemma ListedItemsShowControls(v: View)
    requires v.isUserAuthenticated && AllApi(v.apiItems)
    ensures forall i :: 0 <= i < |v.apiItems| ==> ShowItemControls(v, v.apiItems[i])
  {
  }

  /** The create scenario: a reply `{data: {id: "9", ...}}` appends exactly one item,
      with id "9" and source api, after the existing ones. */
  lemma CreateScenario(items: seq<Item>, outer: ApiRecord, rec: ApiRecord, fallbackId: string)
    requires rec.id == Val(IdText("9"))
    ensures var created := Api.ItemFromReply(Api.Response(true, "OK", Some(Api.Object(outer, Api.Object(rec, Api.JsonNull, Undefined), Undefined))), fallbackId);
      && created.Some?
      && var after := items + [Tag(created.value)];
      && |after| == |items| + 1 && after[..|items|] == items
      && after[|items|].id == "9" && after[|items|].source == Api
  {
  }

  /** The page state after `loadApiItems()` with the session holding `owner`: loading
      is over and the list is the fetched one, or empty without a session. */
  function Loaded(v: View, owner: Option<string>, reply: Api.Reply, fallback: nat -> string): View {
    v.(apiItems := if Session.IsAuthenticatedValue(owner) then TagApi(Api.FetchWishlistItems(owner, reply, fallback).items) else [],
       isLoading := false)
  }

  /** The page state after `handleCreateItem`: the created item appended, or no change
      without a usable session or when the call returned null. */
  function Created(v: View, owner: Option<string>, reply: Api.Reply, fallbackId: string): View {
    var created := Api.ItemFromReply(reply, fallbackId);
    if Session.OwnerUsable(owner) && created.Some? then v.(apiItems := v.apiItems + [Tag(created.value)]) else v
  }

  /** The page state after `handleUpdateItem`: every entry with the selected id replaced
      by the updated item, or no change without a selection, without a usable session
      or when the call returned null. */
  function Updated(v: View, owner: Option<string>, reply: Api.Reply, fallbackId: string): View {
    var updated := Api.ItemFromReply(reply, fallbackId);
    if v.selectedItem.Some? && Session.OwnerUsable(owner) && updated.Some? then
      v.(apiItems := ReplaceById(v.apiItems, v.selectedItem.value.id, Tag(updated.value)))
    else v
  }

  /** A successful edit keeps the list's length, replaces exactly the entries with the
      selected id by the updated item, and keeps it all api. */
  lemma EditReplacesSelected(v: View, owner: Option<string>, reply: Api.Reply, fallbackId: string)
    requires v.selectedItem.Some? && Session.OwnerUsable(owner) && Api.ItemFromReply(reply, fallbackId).Some?
    requires AllApi(v.apiItems)
    ensures var w := Updated(v, owner, reply, fallbackId);
      && |w.apiItems| == |v.apiItems| && AllApi(w.apiItems)
      && forall i :: 0 <= i < |v.apiItems| ==>
           w.apiItems[i] == (if v.apiItems[i].id == v.selectedItem.value.id then Tag(Api.ItemFromReply(reply, fallbackId).value) else v.apiItems[i])
  {
    ReplaceKeepsAllApi(v.apiItems, v.selectedItem.value.id, Tag(Api.ItemFromReply(reply, fallbackId).value));
  }

  /** The page state after `checkAuth` with the session holding `owner`. */
  function Checked(v: View, owner: Option<string>, reply: Api.Reply, fallback: nat -> string): View {
    var w := v.(isUserAuthenticated := Session.IsAuthenticatedValue(owner));
    if Session.IsAuthenticatedValue(owner) then Loaded(w, owner, reply, fallback) else w.(isLoading := false)
  }

  /** The page state after the mount effect, `owner` being what the session holds once
      the host app's auto-authentication is over. */
  function Mounted(v: View, inTelegram: bool, owner: Option<string>, reply: Api.Reply, fallback: nat -> string): View {
    Checked(v.(isMounted := true, isInTelegram := inTelegram), owner, reply, fallback)
  }

  /** Whether the delete call resolves to `true`: a usable session and an ok response. */
  predicate DeleteSucceeds(owner: Option<string>, reply: Api.Reply) {
    Session.OwnerUsable(owner) && reply.Response? && reply.ok
  }

  /** The page state after the confirmation dialog's confirm: nothing happens without
      a remembered item; a successful delete removes every entry with its id and
      closes the dialog; otherwise only the busy flag is (re)set to false. */
  function DeleteConfirmed(v: View, owner: Option<string>, reply: Api.Reply): View {
    if v.itemToDelete.None? then v
    else if DeleteSucceeds(owner, reply) then
      v.(apiItems := RemoveById(v.apiItems, v.itemToDelete.value.id),
         showDeleteModal := false, itemToDelete := None, isDeleting := false)
    else v.(isDeleting := false)
  }

  /** A successful delete keeps exactly the entries with other ids, each as many times
      as before, closes the dialog, forgets its item and ends the busy state. */
  lemma DeleteSuccessEffect(v: View, owner: Option<string>, reply: Api.Reply)
    requires v.itemToDelete.Some? && DeleteSucceeds(owner, reply)
    ensures var w, id := DeleteConfirmed(v, owner, reply), v.itemToDelete.value.id;
      && (forall x :: x in w.apiItems <==> x in v.apiItems && x.id != id)
      && (forall x :: multiset(w.apiItems)[x] == if x.id == id then 0 else multiset(v.apiItems)[x])
      && !w.showDeleteModal && w.itemToDelete.None? && !w.isDeleting
  {
    RemoveCounts(v.apiItems, v.itemToDelete.value.id);
  }

  /** A delete that throws or resolves to false leaves the list and the dialog as they
      were and ends the busy state. */
  lemma DeleteFailureEffect(v: View, owner: Option<string>, reply: Api.Reply)
    requires v.itemToDelete.Some? && !DeleteSucceeds(owner, reply)
    ensures var w := DeleteConfirmed(v, owner, reply);
      && w.apiItems == v.apiItems && w.showDeleteModal == v.showDeleteModal
      && w.itemToDelete == v.itemToDelete && !w.isDeleting
  {
  }

  /** Without a usable session the delete never succeeds, so nothing is lost. */
  lemma DeleteNeedsSession(v: View, owner: Option<string>, reply: Api.Reply)
    requires !Session.OwnerUsable(owner)
    ensures DeleteConfirmed(v, owner, reply).apiItems == v.apiItems
  {
  }

  /** After mount the page is settled: loading is over, the authenticated flag follows
      the session, and an anonymous visitor outside the host app sees the welcome
      screen and the sign-in button. An authenticated user's list is the fetched one,
      all backed by the remote store. */
  lemma MountSettles(v: View, inTelegram: bool, owner: Option<string>, reply: Api.Reply, fallback: nat -> string)
    ensures var w := Mounted(v, inTelegram, owner, reply, fallback);
      && w.isMounted && !w.isLoading && w.isInTelegram == inTelegram
      && w.isUserAuthenticated == Session.IsAuthenticatedValue(owner)
      && ContentPanel(w) != Loading
      && (ShowWelcome(w) <==> !Session.IsAuthenticatedValue(owner) && !inTelegram)
      && (ShowSignInButton(w) <==> ShowWelcome(w))
      && (!Session.IsAuthenticatedValue(owner) ==> w.apiItems == v.apiItems)
      && (Session.IsAuthenticatedValue(owner) ==>
            AllApi(w.apiItems) && |w.apiItems| == |Api.FetchWishlistItems(owner, reply, fallback).items|)
  {
  }

  /** Loading with an empty owner id: the session counts as signed in, but the list
      call refuses it, so the list ends up empty. */
  lemma EmptyOwnerLoadsNothing(v: View, reply: Api.Reply, fallback: nat -> string)
    ensures Loaded(v, Some(""), reply, fallback).apiItems == []
    ensures Checked(v, Some(""), reply, fallback).isUserAuthenticated
  {
  }

  class Page {
    const session: Session.Store
    var isMounted: bool
    var isInTelegram: bool
    var isUserAuthenticated: bool
    var showAuthModal: bool
    var showShareModal: bool
    var apiItems: seq<Item>
    var isLoading: bool
    var isModalOpen: bool
    var modalMode: FormMode
    var selectedItem: Option<Item>
    var showDeleteModal: bool
    var itemToDelete: Option<Item>
    var isDeleting: bool
    var imageErrors: set<string>

    function Snapshot(): View
      reads this
    {
      View(isMounted, isInTelegram, isUserAuthenticated, showAuthModal, showShareModal,
           apiItems, isLoading, isModalOpen, modalMode, selectedItem,
           showDeleteModal, itemToDelete, isDeleting, imageErrors)
    }

    /** Every entry of the authenticated collection is backed by the remote store. */
    ghost predicate Valid()
      reads this
    {
      AllApi(apiItems)
    }

    constructor (session: Session.Store)
      ensures this.session == session
      ensures Snapshot() == Initial && Valid()
    {
      this.session := session;
      isMounted, isInTelegram, isUserAuthenticated := false, false, false;
      showAuthModal, showShareModal := false, false;
      apiItems, isLoading := [], true;
      isModalOpen, modalMode, selectedItem := false, CreateMode, None;
      showDeleteModal, itemToDelete, isDeleting := false, None, false;
      imageErrors := {};
    }

    /** `loadApiItems()`: without a session the list is emptied and no request is made;
        otherwise it becomes the fetched list, tagged api. Loading ends either way. */
    method LoadApiItems(reply: Api.Reply, fallback: nat -> string) returns (request: Option<Api.Payload>)
      requires Valid()
      modifies this
      ensures Valid()
      ensures request == (if session.IsAuthenticated() then Api.FetchWishlistItems(session.GetOwnerId(), reply, fallback).request else None)
      ensures Snapshot() == Loaded(old(Snapshot()), session.GetOwnerId(), reply, fallback)
    {
      if !session.IsAuthenticated() {
        apiItems := [];
        isLoading := false;
        return None;
      }
      isLoading := true;
      var listing := Api.FetchWishlistItems(session.GetOwnerId(), reply, fallback);
      apiItems := TagApi(listing.items);
      request := listing.request;
      isLoading := false;
    }

    /** The mount effect. `telegramOwner` is what the host app's auto-authentication
        stored, or `None` when it stored nothing or failed. */
    method Mount(inTelegram: bool, telegramOwner: Option<string>, reply: Api.Reply, fallback: nat -> string)
      requires Valid()
      modifies this, session
      ensures Valid()
      ensures session.slot == (if inTelegram && telegramOwner.Some? && session.inBrowser then telegramOwner else old(session.slot))
      ensures Snapshot() == Mounted(old(Snapshot()), inTelegram, session.GetOwnerId(), reply, fallback)
    {
      isMounted := true;
      isInTelegram := inTelegram;
      ghost var mounted := Snapshot();
      assert mounted == old(Snapshot()).(isMounted := true, isInTelegram := inTelegram);
      if inTelegram && telegramOwner.Some? {
        session.SetOwnerId(telegramOwner.value);
      }
      CheckAuth(reply, fallback);
    }

    /** `checkAuth`, once the host app is initialised: the authenticated flag follows
        the session, and the list is loaded or loading simply ends. */
    method CheckAuth(reply: Api.Reply, fallback: nat -> string)
      requires Valid()
      modifies this
      ensures Valid()
      ensures Snapshot() == Checked(old(Snapshot()), session.GetOwnerId(), reply, fallback)
    {
      var authenticated := session.IsAuthenticated();
      isUserAuthenticated := authenticated;
      ghost var checked := Snapshot();
      assert checked == old(Snapshot()).(isUserAuthenticated := authenticated);
      if authenticated {
        var _ := LoadApiItems(reply, fallback);
      } else {
        isLoading := false;
      }
    }

    /** `handleUserSignIn` / `handleUserSignUp`: a failed call rethrows and changes
        nothing; a successful one marks the user signed in, closes the auth modal and
        reloads the list. */
    method HandleUserAuth(kind: Api.AuthKind, credentials: Api.Credentials, authReply: Api.Reply,
                          listReply: Api.Reply, fallback: nat -> string) returns (r: Outcome)
      requires Valid()
      modifies this, session
      ensures Valid()
      ensures Api.AuthResult(kind, authReply).Err? ==>
        && r == Threw(Api.AuthResult(kind, authReply).failure)
        && session.slot == old(session.slot)
        && Snapshot() == old(Snapshot())
      ensures Api.AuthResult(kind, authReply).Ok? ==>
        && r == Resolved
        && session.slot == (if session.inBrowser then Some(Api.AuthResult(kind, authReply).value.storedId) else old(session.slot))
        && Snapshot() == Loaded(old(Snapshot()).(isUserAuthenticated := true, showAuthModal := false),
                                session.GetOwnerId(), listReply, fallback)
    {
      var _, res := Api.Authenticate(session, kind, credentials, authReply);
      if res.Err? {
        return Threw(res.failure);
      }
      isUserAuthenticated := true;
      showAuthModal := false;
      ghost var signedIn := Snapshot();
      assert signedIn == old(Snapshot()).(isUserAuthenticated := true, showAuthModal := false);
      var _ := LoadApiItems(listReply, fallback);
      r := Resolved;
    }

    /** `handleUserSignOut`: clears the session, empties the list and opens the auth modal. */
    method HandleUserSignOut()
      requires Valid()
      modifies this, session
      ensures Valid()
      ensures !session.IsAuthenticated()
      ensures Snapshot() == old(Snapshot()).(isUserAuthenticated := false, apiItems := [], showAuthModal := true)
      ensures !ShowShareButton(Snapshot()) && ContentPanel(Snapshot()) == NoPanel
    {
      session.SignOut();
      isUserAuthenticated := false;
      apiItems := [];
      showAuthModal := true;
    }

    /** `handleImageError`: the failed-image set only grows. */
    method HandleImageError(productId: string)
      requires Valid()
      modifies this
      ensures Valid()
      ensures Snapshot() == old(Snapshot()).(imageErrors := old(imageErrors) + {productId})
      ensures old(imageErrors) <= imageErrors && productId in imageErrors
    {
      imageErrors := imageErrors + {productId};
    }

    /** `handleCreateItem`: appends the created item, or leaves the list alone when the
        call returned null; without a usable session it rethrows `NotAuthenticated`. */
    method HandleCreateItem(dto: CreateDto, reply: Api.Reply, fallbackId: string) returns (r: Outcome, request: Option<Api.Payload>)
      requires Valid()
      modifies this
      ensures Valid()
      ensures request == (if Session.OwnerUsable(session.GetOwnerId()) then Some(Api.CreatePayload(dto, session.GetOwnerId().value)) else None)
      ensures r == (if Session.OwnerUsable(session.GetOwnerId()) then Resolved else Threw(Api.NotAuthenticated))
      ensures Snapshot() == Created(old(Snapshot()), session.GetOwnerId(), reply, fallbackId)
    {
      var res := Api.CreateWishlistItem(session.GetOwnerId(), dto, reply, fallbackId);
      if res.Err? {
        return Threw(res.failure), None;
      }
      request := Some(res.value.request);
      if res.value.result.Some? {
        apiItems := apiItems + [Tag(res.value.result.value)];
      }
      r := Resolved;
    }

    /** `handleUpdateItem`: with no selected item it does nothing; otherwise every entry
        carrying the selected id is replaced by the updated item. */
    method HandleUpdateItem(updates: UpdateDto, reply: Api.Reply, fallbackId: string) returns (r: Outcome, request: Option<Api.Payload>)
      requires Valid()
      modifies this
      ensures Valid()
      ensures request.Some? <==> old(selectedItem).Some? && Session.OwnerUsable(session.GetOwnerId())
      ensures request.Some? ==>
        Api.IsUpdatePayload(request.value, old(selectedItem).value.id, session.GetOwnerId().value, updates)
      ensures r == (if old(selectedItem).Some? && !Session.OwnerUsable(session.GetOwnerId()) then Threw(Api.NotAuthenticated) else Resolved)
      ensures Snapshot() == Updated(old(Snapshot()), session.GetOwnerId(), reply, fallbackId)
    {
      if selectedItem.None? {
        return Resolved, None;
      }
      var res := Api.UpdateWishlistItem(session.GetOwnerId(), selectedItem.value.id, updates, reply, fallbackId);
      if res.Err? {
        return Threw(res.failure), None;
      }
      request := Some(res.value.request);
      if res.value.result.Some? {
        ReplaceKeepsAllApi(apiItems, selectedItem.value.id, Tag(res.value.result.value));
        apiItems := ReplaceById(apiItems, selectedItem.value.id, Tag(res.value.result.value));
      }
      r := Resolved;
    }

    /** `handleDeleteClick`: remembers the item and opens the confirmation dialog. */
    method HandleDeleteClick(item: Item)
      requires Valid()
      modifies this
      ensures Valid()
      ensures Snapshot() == old(Snapshot()).(itemToDelete := Some(item), showDeleteModal := true)
    {
      itemToDelete := Some(item);
      showDeleteModal := true;
    }

    /** `handleDeleteConfirm`: on success every entry with the id is removed and the
        dialog closes; on `false` or a thrown error nothing but the busy flag changes.
        The busy flag, set while the request is in flight, is false afterwards. */
    method HandleDeleteConfirm(reply: Api.Reply)
      requires Valid()
      modifies this
      ensures Valid()
      ensures Snapshot() == DeleteConfirmed(old(Snapshot()), session.GetOwnerId(), reply)
    {
      if itemToDelete.None? {
        return;
      }
      var id := itemToDelete.value.id;
      isDeleting := true;
      var deleted := Api.DeleteWishlistItem(session.GetOwnerId(), id, reply);
      if deleted.Ok? && deleted.value.result {
        RemoveKeepsAllApi(apiItems, id);
        apiItems := RemoveById(apiItems, id);
        showDeleteModal := false;
        itemToDelete := None;
      }
      isDeleting := false;
    }

    /** `openCreateModal` */
    method OpenCreateModal()
      requires Valid()
      modifies this
      ensures Valid()
      ensures Snapshot() == old(Snapshot()).(selectedItem := None, modalMode := CreateMode, isModalOpen := true)
    {
      selectedItem := None;
      modalMode := CreateMode;
      isModalOpen := true;
    }

    /** `openEditModal(item)` */
    method OpenEditModal(item: Item)
      requires Valid()
      modifies this
      ensures Valid()
      ensures Snapshot() == old(Snapshot()).(selectedItem := Some(item), modalMode := EditMode, isModalOpen := true)
    {
      selectedItem := Some(item);
      modalMode := EditMode;
      isModalOpen := true;
    }

    /** The item form's `onSubmit`: create in create mode, otherwise update the
        selected item with every field the form holds. */
    method SubmitItemForm(dto: CreateDto, reply: Api.Reply, fallbackId: string) returns (r: Outcome, request: Option<Api.Payload>)
      requires Valid()
      modifies this
      ensures Valid()
      ensures old(modalMode) == CreateMode ==>
        && r == (if Session.OwnerUsable(session.GetOwnerId()) then Resolved else Threw(Api.NotAuthenticated))
        && request == (if Session.OwnerUsable(session.GetOwnerId()) then Some(Api.CreatePayload(dto, session.GetOwnerId().value)) else None)
        && Snapshot() == Created(old(Snapshot()), session.GetOwnerId(), reply, fallbackId)
      ensures old(modalMode) == EditMode ==>
        && r == (if old(selectedItem).Some? && !Session.OwnerUsable(session.GetOwnerId()) then Threw(Api.NotAuthenticated) else Resolved)
        && (request.Some? <==> old(selectedItem).Some? && Session.OwnerUsable(session.GetOwnerId()))
        && (request.Some? ==> Api.IsUpdatePayload(request.value, old(selectedItem).value.id, session.GetOwnerId().value,
                                                  UpdateDto(Some(dto.title), Some(dto.imageurl), Some(dto.producturl))))
        && Snapshot() == Updated(old(Snapshot()), session.GetOwnerId(), reply, fallbackId)
    {
      if modalMode == CreateMode {
        r, request := HandleCreateItem(dto, reply, fallbackId);
      } else {
        r, request := HandleUpdateItem(UpdateDto(Some(dto.title), Some(dto.imageurl), Some(dto.producturl)), reply, fallbackId);
      }
    }

    /** The sign-in button and the welcome screen's "get started" open the auth modal. */
    method OpenAuthModal()
      requires Valid()
      modifies this
      ensures Valid()
      ensures Snapshot() == old(Snapshot()).(showAuthModal := true)
    {
      showAuthModal := true;
    }

    /** The auth modal's `onClose`. */
    method CloseAuthModal()
      requires Valid()
      modifies this
      ensures Valid()
      ensures Snapshot() == old(Snapshot()).(showAuthModal := false)
    {
      showAuthModal := false;
    }

    /** The item form's `onClose`. */
    method CloseItemModal()
      requires Valid()
      modifies this
      ensures Valid()
      ensures Snapshot() == old(Snapshot()).(isModalOpen := false)
    {
      isModalOpen := false;
    }

    /** The confirmation dialog's `onClose`: closes it and forgets the item. */
    method CloseDeleteModal()
      requires Valid()
      modifies this
      ensures Valid()
      ensures Snapshot() == old(Snapshot()).(showDeleteModal := false, itemToDelete := None)
    {
      showDeleteModal := false;
      itemToDelete := None;
    }

    method OpenShareModal()
      requires Valid()
      modifies this
      ensures Valid()
      ensures Snapshot() == old(Snapshot()).(showShareModal := true)
    {
      showShareModal := true;
    }

    method CloseShareModal()
      requires Valid()
      modifies this
      ensures Valid()
      ensures Snapshot() == old(Snapshot()).(showShareModal := false)
    {
      showShareModal := false;
    }

    /** The owner id handed to the share dialog: `getOwnerId() || ''`. */
    function ShareOwnerId(): (id: string)
      reads this, session
      ensures session.GetOwnerId().None? ==> id == ""
      ensures session.GetOwnerId().Some? ==> id == session.GetOwnerId().value
    {
      match session.GetOwnerId()
      case None => ""
      case Some(s) => s
    }
  }
}
