# Wishlist client: a verified model

This project models the client core of a wishlist web application. Signed-in users keep a list of wished-for items, each with a title, an image link and a product link. The items live on a remote store, and users can share a read-only view of their list.

The model covers five parts:

- **Session store.** One owner id is kept in local storage. A present id means "authenticated". Requests refuse an id that is absent or empty.
- **Item normalizer.** It turns a loosely typed remote record into a canonical item.
- **Remote item client and auth client.** This covers the payloads each call sends and how each response shape is read. It also covers the failure values: `[]` for a list, `null` for create and update, `false` for delete, and a thrown error for sign-in and sign-up.
- **Page controller.** Its in-memory list follows the remote store through optimistic updates: append on create, replace by id on update, filter by id on delete, and clear on sign-out. It also has boolean predicates that decide which parts of the page are shown.
- **The three dialogs.**
  - The sign-in/sign-up form: its mode, error and busy flag.
  - The item form: it prefills or resets its fields, and builds the DTO it submits.
  - The delete confirmation dialog: it builds its message with a first-occurrence `{title}` substitution, and has disabled flags.

How the code is modelled:

- Pure code is written as functions with contracts.
- Stateful code is written as classes with `modifies` methods: the session slot, the page's state hooks and the form states.
- Each network exchange is an input to the model. A `Reply` is either a network failure or a response with an ok flag, a status text and a parsed body; the body is `None` when it would not parse as JSON. Each request is modelled as the payload map it would send.
- Each page handler is one atomic step. Each dialog's submit handler is split at its `await` into `StartSubmit` and `FinishSubmit`, so the busy state in between can be seen.
- The ids the runtime would make up are parameters: `fallbackId`, and `fallback(i)` for the i-th element of a list. The runtime makes them from a random UUID or from the clock and a random number.
- The JavaScript behaviour the code relies on is written out:
  - `??` and `?.`, where null and undefined are treated alike;
  - truthiness, where `""` and `0` are falsy;
  - `String(v)` for a numeric id;
  - the fact that local storage stores `String(undefined)` as `"undefined"`;
  - the `$`-patterns of `String.prototype.replace`.

Files:

- `common.dfy`: Option, JavaScript's undefined/null/value, languages and promise outcomes.
- `decimal.dfy`: `String(n)`.
- `items.dfy`: items, DTOs, remote records and the normalizer.
- `session.dfy`: the session store.
- `api.dfy`: the item and auth client.
- `item_list.dfy`: the list transforms.
- `page.dfy`: the page controller.
- `string_replace.dfy`: `String.prototype.replace`.
- `delete_modal.dfy`, `auth_modal.dfy`, `wishlist_modal.dfy`: the dialogs.

Two behaviours of the code are easy to misread:

- Unlike `fetchWishlistItems`, which also accepts a bare array, the public list reader `fetchPublicWishlist` reads only the `{data: [...]}` shape; a bare array gives `[]` (`Api.FetchPublicWishlist`, `Api.ListReadersCompared`).
- Sign-in and sign-up store `String(data.id)`. So a success body without an `id` leaves the owner id `"undefined"`, and a body with `id: null` leaves it `"null"`. Either way the user counts as authenticated (`Api.AuthResult`).

## Model

| member | source | states |
|---|---|---|
| Common.Field.OrElse | src/lib/api/wishlist.ts:156-160 | `a ?? b` is a value exactly when either side is; it is `a` when `a` is present and `b` when `a` is null or undefined |
| Common.Field.OrDefault | src/lib/api/wishlist.ts:172-174 | `a ?? d` is `a`'s value when present, else the default |
| Decimal.NatToDecimal | src/lib/api/wishlist.ts:171 | the text of a natural number is non-empty and all digits, and starts with `0` only for zero |
| Decimal.IntToDecimal | src/lib/api/wishlist.ts:171 | `String(n)` for a safe integer (magnitude at most 2^53 - 1, below 10^21 so no exponent form): a minus sign for negative numbers, then the digits of the magnitude |
| Decimal.DecimalRoundTrip | src/lib/api/wishlist.ts:171 | reading back the digits of `String(n)` gives n |
| Decimal.NaturalsPrintDistinctly | src/lib/api/wishlist.ts:171 | distinct naturals print differently |
| Decimal.DistinctIntegersPrintDistinctly | src/lib/api/wishlist.ts:171 | distinct numeric ids (safe integers) give distinct string ids |
| Items.Normalize | src/lib/api/wishlist.ts:155-177 | id resolution order `id`, `_id`, `ID`, truthy `slug`, then the fallback; the lowercase field wins even when it is `""`, then camelCase, then `""`; source is api; a missing record gives empty fields and never fails |
| Items.FallbackUsedOnlyWithoutId | src/lib/api/wishlist.ts:156-171 | the fallback id matters only when the record carries no id, and then it is the id; it never affects other fields |
| Items.PresentIdWins | src/lib/api/wishlist.ts:157-171 | a present `id` always wins; the number 5 becomes `"5"` |
| Session.EmptyOwnerIsAuthenticatedButUnusable | src/lib/api/wishlist.ts:52-54 | an owner id `""` counts as authenticated but fails the request guard; every usable id is authenticated |
| Session.OwnerUsable | src/lib/api/wishlist.ts:181-184 | the requests' `if (!ownerId)` guard: only a present, non-empty id passes, and every id that passes counts as authenticated |
| Session.Store.GetOwnerId | src/lib/api/wishlist.ts:37-40 | without a window there is no id; in a browser the id is what the storage slot holds |
| Session.Store.IsAuthenticated | src/lib/api/wishlist.ts:52-54 | authenticated exactly when in a browser with an id stored, whatever the id |
| Session.Store.SetOwnerId | src/lib/api/wishlist.ts:42-45 | in a browser, `getOwnerId` then returns the id and the user is authenticated; without a window nothing is stored |
| Session.Store.ClearOwnerId | src/lib/api/wishlist.ts:47-50 | afterwards `getOwnerId` is absent and the user is not authenticated |
| Session.Store.SignOut | src/lib/api/wishlist.ts:113-115 | sign-out clears the session |
| Api.SuccessBody | src/lib/api/wishlist.ts:194-200 | a body is read exactly when the call reached the server, the status was ok and the body parsed |
| Api.NormalizeAll | src/lib/api/wishlist.ts:207 | mapping the normalizer keeps length and order, and every result is api-sourced |
| Api.FetchWishlistItems | src/lib/api/wishlist.ts:180-212 | without a usable owner id: no request and `[]`; otherwise sends `{owner_id}`; reads a bare array, else `data.data` when it is an array, else `[]`; any failure gives `[]`; element i is the normalized i-th record |
| Api.FetchPublicWishlist | src/lib/api/wishlist.ts:118-141 | sends `{owner_id}` with no session needed; reads only `data.data`; a bare array or any failure gives `[]` |
| Api.ListReadersCompared | src/lib/api/wishlist.ts:118-141 | the two readers agree on enveloped responses; on a bare array the public reader sees nothing while the owner's sees every element |
| Api.Unwrap | src/lib/api/wishlist.ts:246 | `data?.data ?? data` picks `data.data` exactly when `data` is an object whose `data` is present |
| Api.ItemFromReply | src/lib/api/wishlist.ts:239-251 | `null` exactly on failure; otherwise the normalized unwrapped body |
| Api.CreatePayload | src/lib/api/wishlist.ts:224-229 | exactly the DTO's keys plus `imageUrl` equal to `imageurl`, `productUrl` equal to `producturl`, and `owner_id` |
| Api.CreateWishlistItem | src/lib/api/wishlist.ts:215-252 | fails with "Not authenticated" exactly without a usable owner id; otherwise sends the create payload and returns the normalized item or null |
| Api.BuildUpdatePayload | src/lib/api/wishlist.ts:265-279 | always `id` and `owner_id`; `title` iff supplied; `imageurl` and `imageUrl`, both equal, iff supplied, and likewise for `producturl`; nothing else |
| Api.EmptyUpdatePayload | src/lib/api/wishlist.ts:265-279 | an empty update sends exactly `{id, owner_id}` |
| Api.FullUpdatePayload | src/lib/api/wishlist.ts:265-279 | an update that supplies every field carries all seven keys: the create payload's fields plus `id` |
| Api.UpdateWishlistItem | src/lib/api/wishlist.ts:255-302 | fails with "Not authenticated" exactly without a usable owner id; otherwise sends an update payload and returns the normalized item or null |
| Api.DeleteWishlistItem | src/lib/api/wishlist.ts:305-331 | fails exactly without a usable owner id; otherwise sends `{id, owner_id}` and returns true iff the response was ok |
| Api.RequestsNeedUsableOwner | src/lib/api/wishlist.ts:180-184 | with an absent or empty owner id, create and delete throw before any request, and the list is `[]` without a request |
| Api.AuthFailureMessage | src/lib/api/wishlist.ts:69-74 | the body's truthy `message`, otherwise the failure prefix followed by the status text |
| Api.AuthResult | src/lib/api/wishlist.ts:57-111 | a non-ok response throws with the failure message; a parsed non-null success body is returned, and a present `id` is what gets stored |
| Api.Authenticate | src/lib/api/wishlist.ts:85-111 | sends the credentials; on success the returned id becomes the owner id; on any failure the session is unchanged |
| Api.SignInThenListScenario | src/lib/api/wishlist.ts:104-105 | a server answering `{id: "42"}` leaves the owner id `"42"`, and the next list call sends `{owner_id: "42"}` |
| ItemList.TagApi | app/page.tsx:159 | tagging keeps length and order and makes every entry api-sourced |
| ItemList.TagApiKeepsApiLists | app/page.tsx:159 | tagging an all-api list changes nothing |
| ItemList.ReplaceById | app/page.tsx:204-206 | same length; exactly the entries with the id become the replacement, and the others are unchanged |
| ItemList.ReplaceKeepsAllApi | app/page.tsx:204-206 | an api replacement keeps the list all-api |
| ItemList.ReplaceMissingIdIsIdentity | app/page.tsx:204-206 | replacing an id that is not in the list changes nothing |
| ItemList.RemoveById | app/page.tsx:223 | no entry with the id survives, and the list does not grow |
| ItemList.RemoveCounts | app/page.tsx:223 | every copy of an entry with the id is dropped, every copy of the others is kept, and membership follows |
| ItemList.RemoveDistributes | app/page.tsx:223 | filtering distributes over concatenation, so the survivors keep their order |
| ItemList.RemoveMissingIdIsIdentity | app/page.tsx:223 | removing an absent id changes nothing |
| ItemList.RemoveKeepsAllApi | app/page.tsx:223 | removing keeps an all-api list all-api |
| WishlistPage.ShowSignInButton | app/page.tsx:255 | while the sign-in button shows, neither the share button, the add button nor the footer note does |
| WishlistPage.ShowShareButton | app/page.tsx:277 | never shown to a visitor or for an empty list |
| WishlistPage.ShowHeader | app/page.tsx:304 | the header is never shown with the welcome screen or the sign-in button |
| WishlistPage.ShowAddButton | app/page.tsx:318-322 | the add button, nested in the authenticated content, appears exactly when the share button does |
| WishlistPage.ShowFooterNote | app/page.tsx:318-425 | the footer note, nested in the authenticated content, appears exactly when the add button does |
| WishlistPage.ShowItemControls | app/page.tsx:389 | a card's edit and delete controls appear only when the header does |
| WishlistPage.ShowImagePlaceholder | app/page.tsx:360 | before mount every card shows the placeholder; once mounted with no failed image, none does |
| WishlistPage.ListedItemsShowControls | app/page.tsx:389 | on a signed-in page whose list is all api, every card shows its edit and delete controls |
| WishlistPage.EditReplacesSelected | app/page.tsx:199-209 | a successful edit keeps the list's length, replaces exactly the entries with the selected id by the updated item, and keeps the list all api |
| WishlistPage.Page.constructor | app/page.tsx:84-98 | the page starts in `Initial`: not mounted, anonymous, no dialogs, empty list, loading, create mode, no failed images |
| WishlistPage.ShowSignOutButton | app/page.tsx:255-266 | the sign-in and sign-out buttons are never both shown, and one of them is shown exactly when mounted and outside the host app |
| WishlistPage.ShowWelcome | app/page.tsx:296 | the welcome screen needs an anonymous visitor, loading over and no host app, and then there is neither a share nor a sign-out button |
| WishlistPage.ContentPanel | app/page.tsx:319-351 | for an authenticated user exactly one of loading, empty state (not loading, length 0) and grid (not loading, length > 0) is shown; the grid comes with the share and add buttons; never with the welcome screen |
| WishlistPage.CreateScenario | app/page.tsx:192-197 | a reply `{data: {id: "9"}}` appends exactly one item, with id "9" and source api, after the existing ones |
| WishlistPage.DeleteSuccessEffect | app/page.tsx:216-232 | after a successful delete exactly the entries with other ids survive, with their counts; the dialog is closed, its item cleared, and the busy flag false |
| WishlistPage.DeleteFailureEffect | app/page.tsx:216-232 | on false or a throw the list, the dialog and the remembered item are unchanged, and the busy flag is false |
| WishlistPage.DeleteNeedsSession | app/page.tsx:219-226 | without a usable session the delete never removes anything |
| WishlistPage.MountSettles | app/page.tsx:133-146 | after mount loading is over; the authenticated flag follows the session; an anonymous visitor outside the host app sees the welcome screen and the sign-in button; a user's list is the fetched one, all api |
| WishlistPage.EmptyOwnerLoadsNothing | app/page.tsx:148-164 | with an owner id `""` the page counts the user as signed in, yet the list loads empty |
| WishlistPage.Page.LoadApiItems | app/page.tsx:148-164 | unauthenticated: the list is emptied, loading ends, and no request is made; otherwise the list becomes the fetched one tagged api and loading ends |
| WishlistPage.Page.Mount | app/page.tsx:106-146 | the host app's stored id (if any) reaches the session, then the page is in the mounted state of `Mounted` |
| WishlistPage.Page.CheckAuth | app/page.tsx:133-144 | the authenticated flag follows the session; the list loads, or loading simply ends |
| WishlistPage.Page.HandleUserAuth | app/page.tsx:166-178 | a failed call rethrows and changes nothing; a successful one stores the id, marks the user signed in, closes the auth dialog and reloads the list |
| WishlistPage.Page.HandleUserSignOut | app/page.tsx:180-185 | clears the session, marks the user signed out, empties the list and opens the auth dialog; no share button and no content remain |
| WishlistPage.Page.HandleImageError | app/page.tsx:187-189 | only adds the id to the failed images; the set never shrinks |
| WishlistPage.Page.HandleCreateItem | app/page.tsx:191-196 | without a usable session it rethrows, sends nothing and changes nothing; otherwise it sends the create payload and the new state is `Created` of the old one: the created item, tagged api, appended, or no change when the call returned null |
| WishlistPage.Page.HandleUpdateItem | app/page.tsx:198-208 | a request is sent exactly with a selected item and a usable session, and it is the update payload for the selected id; the new state is `Updated` of the old one: a no-op without a selection, a session or a result, otherwise every entry with the selected id replaced by the tagged result |
| WishlistPage.Page.HandleDeleteClick | app/page.tsx:210-213 | remembers the item and opens the confirmation dialog |
| WishlistPage.Page.HandleDeleteConfirm | app/page.tsx:215-231 | the new state is `DeleteConfirmed` of the old one: no-op without an item; on success removal and closing; otherwise only the busy flag is reset |
| WishlistPage.Page.OpenCreateModal | app/page.tsx:233-237 | clears the selection, sets create mode and opens the form |
| WishlistPage.Page.OpenEditModal | app/page.tsx:239-243 | selects the item, sets edit mode and opens the form |
| WishlistPage.Page.SubmitItemForm | app/page.tsx:461-467 | in create mode it behaves as `handleCreateItem` (outcome, create payload, `Created` state); in edit mode as `handleUpdateItem` with every field of the DTO supplied (outcome, update payload carrying all three fields, `Updated` state); every case, including a null reply and a missing selection, fixes the whole new state |
| WishlistPage.Page.OpenAuthModal | app/page.tsx:257 | opens the auth dialog |
| WishlistPage.Page.CloseAuthModal | app/page.tsx:452 | closes the auth dialog |
| WishlistPage.Page.CloseItemModal | app/page.tsx:460 | closes the item form |
| WishlistPage.Page.CloseDeleteModal | app/page.tsx:482-485 | closes the confirmation dialog and forgets the item |
| WishlistPage.Page.OpenShareModal | app/page.tsx:279 | opens the share dialog |
| WishlistPage.Page.CloseShareModal | app/page.tsx:475 | closes the share dialog |
| WishlistPage.Page.ShareOwnerId | app/page.tsx:476 | `getOwnerId() \|\| ''`: the stored id, or `""` without one |
| StringReplace.IndexFrom | components/wishlist/DeleteConfirmationModal.tsx:54 | the first occurrence at or after k, if any; none before it |
| StringReplace.Expand | components/wishlist/DeleteConfirmationModal.tsx:54 | GetSubstitution for a match without capture groups: the expansion holds only characters of the template, the match and the text around it |
| StringReplace.ReplaceFirst | components/wishlist/DeleteConfirmationModal.tsx:54 | `s.replace(pat, replacement)`: no change without an occurrence; otherwise the text before and after the first occurrence is kept |
| StringReplace.IndexOf | components/wishlist/DeleteConfirmationModal.tsx:54 | the first occurrence of the pattern, or none at all |
| StringReplace.ExpandLiteral | components/wishlist/DeleteConfirmationModal.tsx:54 | a replacement without `$` is inserted as it stands |
| StringReplace.ExpandSpecials | components/wishlist/DeleteConfirmationModal.tsx:54 | `$$`, `$&`, `` $` `` and `$'` expand, and `$1` stays literal |
| StringReplace.FirstOccurrence | components/wishlist/DeleteConfirmationModal.tsx:54 | in `a + pat + b` with the pattern's first character absent from `a`, the first occurrence is right after `a` |
| StringReplace.ReplaceAfterPrefix | components/wishlist/DeleteConfirmationModal.tsx:54 | only the first occurrence is replaced and all other text is kept; a `$`-free replacement appears verbatim |
| StringReplace.ReplaceWithoutOccurrence | components/wishlist/DeleteConfirmationModal.tsx:54 | without an occurrence nothing changes |
| StringReplace.ReplaceFirstLiterally | components/wishlist/DeleteConfirmationModal.tsx:54 | the intended replacement: text before the first occurrence, the replacement verbatim, then the text after it |
| StringReplace.LiteralAgreesWithoutDollar | components/wishlist/DeleteConfirmationModal.tsx:54 | for a `$`-free replacement the runtime's and the intended results agree |
| DeleteModal.MessageAsWritten | components/wishlist/DeleteConfirmationModal.tsx:53-55 | the message as the code computes it: the plain message for an absent or empty title; for a title, the titled template through `String.prototype.replace` |
| DeleteModal.Message | components/wishlist/DeleteConfirmationModal.tsx:53-55 | an absent or empty title gives the plain message; otherwise the titled template with the title in place of `{title}` |
| DeleteModal.Deleting | components/wishlist/DeleteConfirmationModal.tsx:47 | `isDeleting` defaults to false |
| DeleteModal.Render | components/wishlist/DeleteConfirmationModal.tsx:51-121 | nothing when closed; close, cancel and confirm are disabled exactly while deleting; the label is "deleting" while deleting, else "delete"; the message is the corrected one, and equals the code's as written for every title without `$` |
| DeleteModal.TitleFillsMarker | components/wishlist/DeleteConfirmationModal.tsx:54 | a template split around its first `{title}` shows the title there and the rest unchanged |
| DeleteModal.PrefixesHaveNoBrace | components/wishlist/DeleteConfirmationModal.tsx:18-34 | no template in any language has a `{` before its marker |
| DeleteModal.MessagesInEveryLanguage | components/wishlist/DeleteConfirmationModal.tsx:14-55 | in every language a non-empty title appears as typed, in quotes, within the fixed text; otherwise the plain message |
| DeleteModal.LabelsDistinguishDeleting | components/wishlist/DeleteConfirmationModal.tsx:121 | in every language the confirm label is the deleting text iff deleting |
| DeleteModal.AsWrittenAgreesWithoutDollar | components/wishlist/DeleteConfirmationModal.tsx:53-55 | for every title without `$` (or no title), the code as written gives the intended message |
| DeleteModal.DollarTitleShowsMarker | components/wishlist/DeleteConfirmationModal.tsx:54 | the title `$&` makes the code as written show the bare `{title}` template |
| AuthModal.Flip | components/wishlist/AuthModal.tsx:106 | the other mode |
| AuthModal.KindOf | components/wishlist/AuthModal.tsx:91-96 | sign-in mode calls sign-in, sign-up mode calls sign-up |
| AuthModal.ErrorAfter | components/wishlist/AuthModal.tsx:97-99 | a rejection with an `Error` leaves its message, any other rejection the generic text; success leaves the error alone |
| AuthModal.ShownError | components/wishlist/AuthModal.tsx:211-213 | an error is shown exactly when it is a non-empty string |
| AuthModal.LabelsDifferInEveryLanguage | components/wishlist/AuthModal.tsx:16-66 | the four submit labels differ in every language |
| AuthModal.SubmitLabelDeterminesState | components/wishlist/AuthModal.tsx:223-229 | the label is a function of (busy, mode) and tells both apart |
| AuthModal.Render | components/wishlist/AuthModal.tsx:110-241 | nothing when closed; submit is disabled exactly while busy; the label, the error, the switch prompt and the switch action follow the state |
| AuthModal.ReasonOf | app/page.tsx:166-178 | the page's handlers reject with `Error`s that carry the client's message |
| AuthModal.RefusedCallShowsError | components/wishlist/AuthModal.tsx:97-99 | a refused sign-in or sign-up always leaves a visible error: the server's message or the prefix with the status text |
| AuthModal.Form.StartSubmit | components/wishlist/AuthModal.tsx:85-96 | clears the error, turns busy, and calls the mode's handler with `{login: username, password}` |
| AuthModal.Form.FinishSubmit | components/wishlist/AuthModal.tsx:97-102 | closes iff the call was fulfilled; a rejection records its error; not busy afterwards |
| AuthModal.Form.Submit | components/wishlist/AuthModal.tsx:85-103 | the whole handler: not busy afterwards, and no error after a success |
| AuthModal.Form.SwitchMode | components/wishlist/AuthModal.tsx:105-108 | flips the mode and clears the error |
| AuthModal.Form.SelectMode | components/wishlist/AuthModal.tsx:138-148 | a tab sets the mode and keeps the error |
| AuthModal.Form.EditUsername | components/wishlist/AuthModal.tsx:173 | only the username changes |
| AuthModal.Form.EditPassword | components/wishlist/AuthModal.tsx:194 | only the password changes |
| AuthModal.Form.TogglePasswordVisibility | components/wishlist/AuthModal.tsx:202 | flips password visibility |
| WishlistModal.SubmitLabelDeterminesState | components/wishlist/WishlistModal.tsx:219 | "saving" while busy, else "create"/"save" by mode, and the three differ in every language |
| WishlistModal.Render | components/wishlist/WishlistModal.tsx:106-219 | nothing when closed; cancel and submit are disabled exactly while busy; the heading follows the mode; the preview appears iff the image URL is non-empty |
| WishlistModal.Form.Sync | components/wishlist/WishlistModal.tsx:76-86 | editing an item copies its title, image URL and product URL; otherwise all three are cleared; busy is untouched |
| WishlistModal.Form.StartSubmit | components/wishlist/WishlistModal.tsx:88-97 | turns busy and submits all three fields |
| WishlistModal.Form.FinishSubmit | components/wishlist/WishlistModal.tsx:98-104 | closes only if the call was fulfilled; not busy afterwards either way; fields kept |
| WishlistModal.Form.Submit | components/wishlist/WishlistModal.tsx:88-104 | the whole handler |
| WishlistModal.Form.EditTitle | components/wishlist/WishlistModal.tsx:150 | only the title changes |
| WishlistModal.Form.EditImageUrl | components/wishlist/WishlistModal.tsx:167 | only the image URL changes |
| WishlistModal.Form.EditProductUrl | components/wishlist/WishlistModal.tsx:197 | only the product URL changes |
| WishlistModal.UnchangedEditSendsItem | components/wishlist/WishlistModal.tsx:93-97 | an unchanged edit sends the item's own fields, and the update carries all seven keys |

## Findings

| source | as written | input that shows it | evidently intended | confidence | as-written member | corrected member |
|---|---|---|---|---|---|---|
| components/wishlist/DeleteConfirmationModal.tsx:54 | the item title is passed to `String.prototype.replace` as the replacement, so `$&`, `$$`, `` $` `` and `$'` in the title are expanded | an item titled `$&` shows `Are you sure you want to delete "{title}"?` | the title shown as typed: `Are you sure you want to delete "$&"?` | not executed | DeleteModal.MessageAsWritten, DeleteModal.DollarTitleShowsMarker | DeleteModal.Message, DeleteModal.MessagesInEveryLanguage |

`DeleteModal.Render` uses the corrected `Message`. `DeleteModal.AsWrittenAgreesWithoutDollar` proves that the two agree for every title without `$`.

## Left out

- HTTP `fetch`, JSON parsing and `console` logging are left out. Each response is an input (`Api.Reply`), and each request is the payload it would send.
- Base URLs and endpoint paths are not modelled. A request is identified by the call that makes it.
- Browser local storage is one `Option<string>` slot. The server-side `typeof window === "undefined"` check is the store's `inBrowser` flag.
- Random UUIDs, `Date.now` and `Math.random` are not modelled. The fallback ids they would produce are parameters, and their uniqueness is not claimed.
- The host-app integration is not modelled: Telegram's `ready`/`expand`, `authenticateWithTelegram` and `isTelegramMiniApp`, which the page imports from code that is not part of this model. "In the host app" is a boolean input. Auto-authentication is the id it stored, or `None`.
- Concurrency is left out: overlapping handlers, out-of-order responses and React's batching of state updates. Each page handler is one atomic step.
- WishlistPage.Page.HandleDeleteConfirm: the `isDeleting = true` state during the request is set and then reset within the one step. The contract states only the final state, so the dialog's busy rendering is covered by `DeleteModal.Render` alone.
- WishlistPage.Page.Mount: a failed auto-authentication is modelled as storing nothing. Its error is only logged.
- Remote records are taken as the declared record type: ids are strings or integers, and the text fields are strings. The list shape is taken from the parsed JSON.
- Decimal.IntToDecimal: numeric ids are limited to safe integers (`Decimal.SafeInteger`, magnitude at most 2^53 - 1). Larger ids, which JSON parsing rounds and `String` may print in exponent form (`1e+21`), and ids with fractions are not modelled.
- Failures raised by the runtime carry an unspecified message (`Api.RuntimeError`; the message is a parameter of `AuthModal.ReasonOf`).
- The browser's `required` input validation, which can block a submit, is not modelled. Nor is the disabled submit button that blocks a second submit. The forms' submit methods model the handlers and not the browser.
- JSX layout, CSS, icons and translation strings other than the labels and messages the logic chooses between are left out. The current language on the page, the language selector and the fonts are not modelled either.
- The share dialog (network shortener, clipboard, timers), the welcome screen, the empty-state panel, the layout and the public page `app/[ownerId]/page.tsx` are not part of this model. Only `Api.FetchPublicWishlist` of the public path is modelled.
- The item-card image's `onLoad`/`onError` DOM handlers are not modelled. Only the page's `handleImageError` is.
- WishlistModal.Form.Sync: `item.imageurl ?? ''` is modelled as `item.imageurl`, because an item's fields are always strings here.
