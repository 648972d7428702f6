# Digital menu: verified model of the client-side rules

This project models, in Dafny, the deterministic rules inside a restaurant
digital-menu application: the admin panel's product and category lists, the
public menu's category bar and headings, onboarding of a new restaurant owner,
the landing page's carousel, and the `Navbar` component
(src/components/Navbar.tsx). The hosted backend
(authentication, tables) and the browser are not modelled. What a remote call
answered, whether an awaited call threw, the window's scroll position and the
boxes of page elements are parameters.

Modules, one per source file plus shared helpers:

- `Wrappers` (`wrappers.dfy`): `Option`, for JavaScript's `null`/`undefined`.
- `JsText` (`js_text.dfy`): truthiness of an optional string, ASCII
  `toLowerCase`, and the slug rule (lower-case, then every space to `-`). The
  admin panel and onboarding use the same slug rule.
- `JsArray` (`js_array.dfy`): `Array.prototype.filter` (`Keep`) and the
  category-tab filter that the admin panel and the public menu share.
- `AdminContent` (`admin_content.dfy`): the admin panel. Pure functions hold
  the list operations and the store writes. The class `AdminPanel` holds the
  component state (`products`, `categories`, the selected tab, the modal,
  `isLoading`, the form). Each handler is a method. A store write is returned
  as a `StoreWrite` value.
- `MenuClient` (`menu_client.dfy`): the public menu. `OnScroll` is the
  category bar's state machine over `(isVisible, lastScrollY)`, and `Menu` is
  the component whose `HandleScroll` follows it. The module also holds the tab
  filter, the heading and the description line.
- `CreateRestaurant` (`create_restaurant.dfy`): the onboarding action as a pure
  function. It takes the outcomes of the two remote calls and returns the calls
  made, in order, with the action's answer.
- `LandingPage` (`landing_page.dfy`): the four slides and the `Carousel` class
  with its timer tick.
- `Navbar` (`navbar.dfy`): the `Navbar` component of
  src/components/Navbar.tsx: the scroll-spy, the scrolled flag, the link classes
  and the mobile menu.

Modelling choices that follow the code:

- A `string | null` test such as `selectedCategoryId ? … : …` or
  `isEditing && currentProduct.id` is falsy for both `null` and `""`.
  `JsText.Truthy` models this.
- `handleSave` leaves the save through its `catch` only when an awaited call
  throws. The store client answers a failed write with an error value. The
  code never reads that value, so such a write counts as a successful save and
  the modal closes. The model follows the code: each awaited call either threw
  or resolved. Only a thrown call reaches the `catch`, which shows the alert
  and keeps the modal open (src/components/admin/AdminContent.tsx:158-160). A
  write the store answers with an error value never gets there.
- `refreshData` replaces a list only when its read returned rows. A `null`
  answer keeps the shown list.
- The optimistic toggle and delete change the list before the store answers.
  Nothing rolls them back, so the model takes no store outcome for them.
- `openProductModal` with no product preselects
  `selectedCategoryId || categories[0]?.id || ""`.
- A form field missing from the onboarding form reads as `null`. A missing
  slug makes `slug.toLowerCase()` throw after the account already exists. A
  missing email prints as `"null"` in the success message.

## Model

| member | source | states |
|---|---|---|
| `JsText.Lower` | src/components/menu/MenuClient.tsx:71 | lower-casing keeps the length and maps each character on its own: upper-case ASCII letters to lower case, everything else unchanged |
| `JsText.ReplaceSpaces` | src/components/admin/AdminContent.tsx:151 | the global space replacement keeps the length, turns every space into `-` and keeps every other character |
| `JsText.Slugify` | src/components/admin/AdminContent.tsx:151 | the slug rule shared by the admin panel and onboarding gives a string of the name's length with no space and no upper-case letter; its character-by-character form is in `SlugifyShape` |
| `JsText.SlugifyShape` | src/components/admin/AdminContent.tsx:151 | a slug has its name's length, contains no space and no upper-case letter, and at each position holds `-` for a space or the lower-cased character |
| `JsText.SlugifyIdempotent` | src/app/actions/create-restaurant.ts:47 | normalising an already-normalised slug changes nothing |
| `JsArray.Keep` | src/components/admin/AdminContent.tsx:75 | filtering never lengthens the list; what it keeps is exactly the elements that pass; a list where all pass comes back whole |
| `JsArray.KeepAppend` | src/components/admin/AdminContent.tsx:75 | filtering keeps the original order: filtering `a + b` gives the filtered `a` followed by the filtered `b` |
| `JsArray.ByCategory` | src/components/menu/MenuClient.tsx:65-67 | with no category chosen (null or "") the whole list; with one chosen exactly the elements of that category |
| `JsArray.ByCategoryAppend` | src/components/menu/MenuClient.tsx:65-67 | the category tab keeps the products in their original order |
| `AdminContent.FilterByCategory` | src/components/admin/AdminContent.tsx:74-76 | no tab selected: the full list; a tab selected: exactly the products whose `category_id` is that tab's id |
| `AdminContent.SetActive` | src/components/admin/AdminContent.tsx:82 | the optimistic toggle keeps length and order, gives every product with the id the new flag with all its other fields unchanged, and leaves every other product as it was |
| `AdminContent.ToggleTwiceRestores` | src/components/admin/AdminContent.tsx:79-82 | toggling a product and then toggling it again from the re-rendered list restores the original list |
| `AdminContent.ListedProductIsFlagged` | src/components/admin/AdminContent.tsx:265 | a product clicked in a list with unique ids meets the condition under which toggling twice restores the list |
| `AdminContent.WithoutId` | src/components/admin/AdminContent.tsx:89 | the optimistic delete removes every product with the id and keeps every other product |
| `AdminContent.WithoutIdAppend` | src/components/admin/AdminContent.tsx:89 | the delete keeps the surviving products in their original order |
| `AdminContent.WithoutAbsentId` | src/components/admin/AdminContent.tsx:89 | deleting an id that no product has leaves the list unchanged |
| `AdminContent.DefaultCategoryId` | src/components/admin/AdminContent.tsx:109 | a new product starts in the selected tab if one is selected, else in the first category, else in "" |
| `AdminContent.NewProductDraft` | src/components/admin/AdminContent.tsx:104-111 | a new product form has no id, empty name and description, price 0, the placeholder image, `is_active` true, and a category that is "", the selected tab or the first category |
| `AdminContent.DraftOf` | src/components/admin/AdminContent.tsx:98-100 | editing loads every field of the chosen product into the form |
| `AdminContent.ProductWrite` | src/components/admin/AdminContent.tsx:132-145 | an update exactly when editing a product with a non-empty id; it writes name, description, price, image_url and category_id from the form and never `is_active`; otherwise an insert of the whole form with `is_active` forced to true |
| `AdminContent.CategoryWrite` | src/components/admin/AdminContent.tsx:149-153 | a new category carries its name, the name's slug (same length, no spaces; no slug when the name is absent) and `sort_order` = the number of categories shown + 1 |
| `AdminContent.AdminPanel.constructor` | src/components/admin/AdminContent.tsx:26-47 | the panel starts on the given lists, with no tab selected, the modal closed on the product form, not loading, not editing, empty forms |
| `AdminContent.AdminPanel.FilteredProducts` | src/components/admin/AdminContent.tsx:74-76 | the list rendered under the current tab: every product with no tab selected; with a tab selected, a product is listed iff its `category_id` is the tab's id |
| `AdminContent.AdminPanel.SelectCategory` | src/components/admin/AdminContent.tsx:211 | a tab click changes only the selected tab: lists, modal (open flag and type), loading flag and both forms are unchanged |
| `AdminContent.AdminPanel.ToggleActive` | src/components/admin/AdminContent.tsx:79-84 | the list becomes the optimistic toggle of the old list, the store gets the negated flag of the clicked product; tab, modal (open flag and type), loading flag and both forms are unchanged |
| `AdminContent.AdminPanel.Delete` | src/components/admin/AdminContent.tsx:87-91 | a refused confirmation leaves the list as it was and sends nothing; a confirmed one removes the id from the list and sends the delete; either way tab, modal (open flag and type), loading flag and both forms are unchanged |
| `AdminContent.AdminPanel.OpenProductModal` | src/components/admin/AdminContent.tsx:96-114 | opens the product form: with a product, editing it; without one, not editing, on the new-product defaults; lists and tab untouched |
| `AdminContent.AdminPanel.OpenCategoryModal` | src/components/admin/AdminContent.tsx:117-122 | opens the category form, not editing, with an empty name |
| `AdminContent.AdminPanel.CloseModal` | src/components/admin/AdminContent.tsx:298 | the close button closes the modal and changes nothing else |
| `AdminContent.AdminPanel.Save` | src/components/admin/AdminContent.tsx:125-164 | the write matches the open form (product write or category insert with the pre-save category count); the modal closes only when the write and both reload reads completed; a list is replaced only by rows the reload returned; on a thrown call lists and modal stay as they were; `isLoading` is false afterwards |
| `MenuClient.OnScroll` | src/components/menu/MenuClient.tsx:37-59 | a move under 10 px changes nothing; past it `lastScrollY` becomes the position; a position under 100 shows the bar; at or past 100 the bar shows iff the reader scrolled up |
| `MenuClient.ReplayKeepsHiddenOnlyBelowTop` | src/components/menu/MenuClient.tsx:41-58 | any run of scroll events keeps the invariant that a hidden bar has its last counted position at 100 or more |
| `MenuClient.InitialRunsHideOnlyBelowTop` | src/components/menu/MenuClient.tsx:31-58 | from the initial state (visible, position 0), whatever the scrolling, the bar is never hidden near the top |
| `MenuClient.ScrollUpShows` | src/components/menu/MenuClient.tsx:53-54 | scrolling up by 10 px or more always shows the bar |
| `MenuClient.ScrollDownHides` | src/components/menu/MenuClient.tsx:51-52 | scrolling down by 10 px or more to 100 or beyond always hides the bar |
| `MenuClient.OnScrollSettles` | src/components/menu/MenuClient.tsx:41-43 | a second event at the same position changes nothing |
| `MenuClient.FindCategory` | src/components/menu/MenuClient.tsx:69 | `find` returns the first category whose id equals the selection, or nothing when none does (always nothing for a null selection) |
| `MenuClient.CategoryTitle` | src/components/menu/MenuClient.tsx:69 | the heading is never empty; it is "Nuestra Carta" when no category matches, otherwise a matching category's name or "Nuestra Carta" |
| `MenuClient.TitleOfFoundCategory` | src/components/menu/MenuClient.tsx:69 | with the first match found, the heading is its name if that is non-empty, else "Nuestra Carta" |
| `MenuClient.CategoryDescription` | src/components/menu/MenuClient.tsx:70-72 | with a tab chosen, "Nuestras opciones de " + the lower-cased heading + "."; otherwise the fixed prompt |
| `MenuClient.UnknownSelectionDescription` | src/components/menu/MenuClient.tsx:69-72 | a chosen id that names no category gives the default heading and a description built from it |
| `MenuClient.NoSelectionDefaults` | src/components/menu/MenuClient.tsx:69-72 | with no tab chosen the page shows "Nuestra Carta" and the prompt |
| `MenuClient.Menu.constructor` | src/components/menu/MenuClient.tsx:26-34 | the menu starts with no tab chosen, the bar visible and `lastScrollY` 0 |
| `MenuClient.Menu.HandleScroll` | src/components/menu/MenuClient.tsx:37-59 | the scroll listener moves the state as `OnScroll` says, keeps the hidden-only-below-top invariant and leaves the tab alone |
| `MenuClient.Menu.SelectCategory` | src/components/menu/MenuClient.tsx:104 | a tab click changes only the chosen tab |
| `MenuClient.Menu.FilteredProducts` | src/components/menu/MenuClient.tsx:65-67 | the products rendered: all of them with no tab chosen; with a tab chosen, a product is listed iff it belongs to that category |
| `MenuClient.Menu.CurrentCategoryName` | src/components/menu/MenuClient.tsx:69 | the heading shown is never empty, and is "Nuestra Carta" with no tab chosen |
| `MenuClient.Menu.CurrentCategoryDesc` | src/components/menu/MenuClient.tsx:70-72 | the line shown is the prompt with no tab chosen; with a tab chosen it starts with "Nuestras opciones de " and ends with "." |
| `CreateRestaurant.UserRequestFor` | src/app/actions/create-restaurant.ts:28-33 | the account is requested for the submitted email with password "123456", confirmed email and role "owner" |
| `CreateRestaurant.Show` | src/app/actions/create-restaurant.ts:56 | a missing form field prints as "null" in the template; a present one prints as itself |
| `CreateRestaurant.SuccessMessage` | src/app/actions/create-restaurant.ts:56 | the success answer starts with "Listo. Usuario: " and ends with the password "123456"; that it contains the email is `SuccessMessageCarriesCredentials` |
| `CreateRestaurant.CreateRestaurantAndOwner` | src/app/actions/create-restaurant.ts:5-57 | the account is always requested first; if that fails the answer is a failure with "Error creando usuario: " and no insert; otherwise the restaurant is inserted with the normalised slug and the new user as owner; an insert error gives a failure with "Usuario creado, pero falló la DB: "; otherwise success with the credentials message |
| `CreateRestaurant.InsertedRowIsOwned` | src/app/actions/create-restaurant.ts:39-48 | any inserted restaurant row follows a successful account creation, is owned by exactly that user id, and has the normalised, space-free slug |
| `CreateRestaurant.FailedInsertKeepsUser` | src/app/actions/create-restaurant.ts:52-54 | a failed insert answers a failure after exactly two calls: the account creation, then the insert of a row owned by that account; the action has no call that removes the account, so it stays |
| `CreateRestaurant.FailureNamesTheStep` | src/app/actions/create-restaurant.ts:35-54 | every failure message starts with the prefix of the step that failed |
| `CreateRestaurant.SuccessMessageCarriesCredentials` | src/app/actions/create-restaurant.ts:56 | the success message contains the email and ends with the password |
| `LandingPage.NextSlide` | src/app/page.tsx:72 | a tick yields an index in [0, 4), moving to the next slide and wrapping from 3 back to 0 |
| `LandingPage.TicksAdvance` | src/app/page.tsx:70-75 | after n ticks from a valid index the index is (start + n) mod 4 |
| `LandingPage.FullRoundReturns` | src/app/page.tsx:72 | after any whole number of rounds of 4 ticks the carousel is back on its starting slide |
| `LandingPage.SlideClass` | src/app/page.tsx:53 | a slide gets the visible opacity class iff its index is the current one |
| `LandingPage.ExactlyOneVisible` | src/app/page.tsx:50-53 | the set of visible slide indices is exactly the current one |
| `LandingPage.Carousel.constructor` | src/app/page.tsx:68 | the carousel starts on slide 0 |
| `LandingPage.Carousel.Tick` | src/app/page.tsx:72 | a tick advances the index as `NextSlide` says and keeps it in range |
| `LandingPage.Carousel.ActiveSlide` | src/app/page.tsx:77 | the caption card's slide lookup is always in bounds and is one of the four slides |
| `Navbar.Spy` | src/components/Navbar.tsx:19-31 | after the first n sections the spy holds "" iff none of them is present and straddles y = 150, otherwise the last one that does |
| `Navbar.ActiveSection` | src/components/Navbar.tsx:19-32 | the active section after the scroll loop is "" or one of the four sections; it is "" iff no section is present and straddles the line, and a non-empty one does straddle it |
| `Navbar.LastStraddlingWins` | src/components/Navbar.tsx:22-31 | when several sections straddle the line, the last in the order how-it-works, features, partners, contact is active |
| `Navbar.MissingSectionNeverActive` | src/components/Navbar.tsx:23-24 | a section with no element on the page is never active |
| `Navbar.LinkClass` | src/components/Navbar.tsx:49-54 | both link styles start with the same base string; the active style is chosen iff the link's section is the active one |
| `Navbar.AtMostOneActiveLink` | src/components/Navbar.tsx:72-81 | of the four desktop links at most one carries the active style |
| `Navbar.NavbarState.constructor` | src/components/Navbar.tsx:9-11 | the bar starts unscrolled, with the mobile menu closed and no active section |
| `Navbar.NavbarState.HandleScroll` | src/components/Navbar.tsx:14-33 | `isScrolled` holds iff `scrollY > 10`, the loop leaves the active section the spy computes, and the mobile menu is untouched |
| `Navbar.NavbarState.ScrollToSection` | src/components/Navbar.tsx:39-46 | a link click closes the mobile menu only when the target element exists |
| `Navbar.NavbarState.ToggleMobileMenu` | src/components/Navbar.tsx:102 | the mobile button flips `mobileMenuOpen` |
| `Navbar.NavbarState.LinkClassFor` | src/components/Navbar.tsx:49-54 | a rendered link's class starts with the shared base and is the active style iff its section is the active one |

## Left out

- `JsText.Lower`: models `toLowerCase` on ASCII letters only. Unicode case mapping (accented capitals, for example) is outside the model.
- `AdminContent.AdminPanel.Save`: `isLoading` is true while the write and the reload are in flight. Each handler runs as one atomic step here, so that intermediate state is not modelled. Only its value afterwards is stated.
- Store calls (`supabase` selects, inserts, updates, deletes), `router.refresh()`, `router.push` and the `confirm`/`alert` dialogs are I/O. They appear only as returned `StoreWrite` values, `Fetch` or `Remote` outcomes, and a `confirmed` flag. The reload's ordering by `created_at`/`sort_order` is the store's, so the rows it returns are taken as given.
- The session check at src/components/admin/AdminContent.tsx:50-59 and logout at 166-169 are authentication I/O with no rule beyond a truthiness test.
- The form's field-by-field `onChange` edits are inline JSX handlers. `Save` takes whatever the form holds.
- Races between overlapping async handlers, and last-write-wins at the store, are concurrency and are not modelled.
- Rendering, CSS classes other than the link and slide classes, `useAutoAnimate`, price formatting with `toLocaleString`, the `setInterval` timing (only its tick is modelled), `scrollIntoView`, `getBoundingClientRect` and listener registration are left out. Scroll positions and element boxes are modelled as integers.
- Prices are modelled as `real`. JavaScript's `Number(...)` may yield `NaN`; that value is outside the model.
- Tenant resolution, the WiFi settings upsert, image upload with its size limit, the price-without-tax default and QR generation appear in no modelled file. The `refreshData` shown reads all products and categories with no tenant filter.
- src/app/admin/page.tsx:9 renders `AdminContent` with no props, but the component reads `initialProducts` and `categories` props. The constructor models the component as declared, with the two lists given.
- Neither src/app/layout.tsx nor src/app/page.tsx renders the `Navbar` component: the layout renders only its children (src/app/layout.tsx:32), and the landing page's own navigation at src/app/page.tsx:83-102 is static markup with no scroll-spy, no scrolled flag and no mobile menu. `Navbar` models the component on its own, and that static navigation is not modelled.
- Logging (`console.log` at src/app/actions/create-restaurant.ts:12, `console.error` at src/components/admin/AdminContent.tsx:159) is not modelled; no modelled rule depends on it.
