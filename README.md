# Thai Cook ordering front-end: verified model of its list logic

This project models, in Dafny, the deterministic list logic of a restaurant's ordering and
event-request web front-end whose data lives in a hosted table service:

- **Ordering page** (`Commander.tsx`): the dish catalogue filtered by weekday, the basket
  (`panier`) of order lines with add / change-quantity operations, its total, and
  `validerCommande`, which refuses an empty basket or a missing pickup date or time and
  otherwise sends the order and clears the form. The page state is the class
  `Commander.OrderPage`; the basket operations are pure functions it applies.
- **Event-request page** (`Evenements.tsx`): the form kept as a field dictionary, the
  check-box selection of dish ids, the selected dishes sent in catalogue order, and the
  rule that enables the submit button.
- **Admin order list** (`AdminCommandes.tsx`): the status filter and case-insensitive search,
  and the status-to-badge mapping.
- **Admin dashboard** (`Admin.tsx`): the new-order, new-event-request and client counters and
  the five-row preview panels.
- **Record mappers** (`useAirtable.ts`): raw rows (field dictionaries) to `Client` and `Plat`
  objects with their fallbacks, and the field dictionary posted for a new client.

Prices are whole cents (the application uses floating-point euros). JSON values are the
datatype `AirtableMappers.Value` (missing, null, string, number, boolean) with JavaScript
truthiness. Where a list may be `undefined` it is an `Option`.

Modules: `Wrappers` (Option), `Calendar` (a picked date), `Seqs` (`filter`, `slice(0, n)`,
subsequences), `Text` (ASCII `toLowerCase`, `includes`), and one module per source file:
`Commander`, `Evenements`, `AdminCommandes`, `Admin`, `AirtableMappers`.

Dish availability is a per-weekday text column holding "oui" or "non"
(src/pages/Commander.tsx:26-32, 111-112), and the mapper column names (`Nom`, `Prenom`,
`Disponible`, ...) are used rather than those declared in `src/types/airtable.ts`. `Admin.tsx`
imports `useCommandes` and `useEvenements`, and `AdminCommandes.tsx` imports `useCommandes`;
`src/hooks/useAirtable.ts` defines neither hook, so they are not part of this model, and the
order and event-request lists of both pages are taken as optional inputs.

## Model

| member | source | states |
|---|---|---|
| `Commander.AvailableDishes` | src/pages/Commander.tsx:109-113 | no day selected gives no dish; otherwise exactly the catalogue entries whose `<day>_dispo` column is "oui" |
| `Commander.AvailableDishesInCatalogueOrder` | src/pages/Commander.tsx:109-113 | the offered dishes are a subsequence of the catalogue and are selected entry by entry (distribute over concatenation) |
| `Commander.Find` | src/pages/Commander.tsx:117 | `find` returns a line exactly when some line has the dish id, and that line is in the basket with that id |
| `Commander.MapQuantity` | src/pages/Commander.tsx:119-123 | the per-line quantity update keeps length, ids, names and prices, leaves other dishes' lines as they were and rewrites the matching quantities |
| `Commander.AddDish` | src/pages/Commander.tsx:115-127 | a new dish is appended as one line of quantity 1 at the end; a present dish gets one more portion on its line, length and other lines unchanged |
| `Commander.ChangeQuantity` | src/pages/Commander.tsx:135-145 | quantity 0 removes the dish's lines and keeps all others; another quantity is written on the dish's lines only; an absent dish leaves the basket unchanged |
| `Commander.RemovalKeepsOrder` | src/pages/Commander.tsx:136-137 | removing a dish keeps the relative order of the remaining lines |
| `Commander.AddDishKeepsUnique` | src/pages/Commander.tsx:117-125 | adding keeps dish ids unique in the basket |
| `Commander.RemovalKeepsUnique` | src/pages/Commander.tsx:136-137 | dropping a dish's line keeps dish ids unique |
| `Commander.ChangeQuantityKeepsUnique` | src/pages/Commander.tsx:135-145 | changing a quantity keeps dish ids unique |
| `Commander.AddDishKeepsPositive` | src/pages/Commander.tsx:117-125 | adding keeps every quantity at least 1 |
| `Commander.StepKeepsPositive` | src/pages/Commander.tsx:298-312 | the basket's minus and plus buttons keep every quantity at least 1, since reaching 0 removes the line |
| `Commander.Total` | src/pages/Commander.tsx:147-148 | the basket total in cents; it is never negative when no price or quantity is |
| `Commander.TotalConcat` | src/pages/Commander.tsx:147-148 | the total is 0 for an empty basket, one more line adds exactly its price × quantity (the `reduce` step), and the total is additive over concatenation |
| `Commander.MapQuantityTotal` | src/pages/Commander.tsx:139-143 | with unique ids, rewriting one line's quantity changes the total by that line's change |
| `Commander.RemovalTotal` | src/pages/Commander.tsx:136-137 | with unique ids, filtering out a dish's line lowers the total by exactly that line's price × quantity |
| `Commander.AddDishTotal` | src/pages/Commander.tsx:115-127 | adding a dish raises the total by one portion's price |
| `Commander.ChangeQuantityTotal` | src/pages/Commander.tsx:135-145 | setting quantity q replaces the line's subtotal by price × q; an absent dish leaves the total unchanged |
| `Commander.OrderPage.constructor` | src/pages/Commander.tsx:87-92 | the page starts with no day, an empty basket, no pickup date, empty time and notes, not loading |
| `Commander.OrderPage.AddToCart` | src/pages/Commander.tsx:115-127 | the basket becomes `AddDish` of the old one, ids stay unique, nothing else changes |
| `Commander.OrderPage.ModifyQuantity` | src/pages/Commander.tsx:135-145 | the basket becomes `ChangeQuantity` of the old one, ids stay unique, nothing else changes |
| `Commander.OrderPage.Submit` | src/pages/Commander.tsx:151-211 | an empty basket, then a missing date or time, is refused with no state change; otherwise the order with its total is sent and basket, date, time and notes are reset |
| `Evenements.Toggle` | src/pages/Evenements.tsx:61-67 | an unselected id is appended; a selected id is removed, keeping the order of the rest; no other id changes membership |
| `Evenements.ToggleKeepsNoDuplicates` | src/pages/Evenements.tsx:62-66 | a toggle never creates a duplicate |
| `Evenements.ToggleAllKeepsNoDuplicates` | src/pages/Evenements.tsx:62-66 | no sequence of toggles creates a duplicate |
| `Evenements.ToggleTwiceRestores` | src/pages/Evenements.tsx:62-66 | toggling an absent id twice restores the original sequence |
| `Evenements.ToggleIsSymmetricDifference` | src/pages/Evenements.tsx:62-66 | as a set a toggle flips membership of the id only, so toggling twice is the identity |
| `Evenements.SelectedDetails` | src/pages/Evenements.tsx:74-76 | the details are exactly the catalogue entries whose id is selected |
| `Evenements.DetailsFollowCatalogueOrder` | src/pages/Evenements.tsx:74-76 | the details are in catalogue order and depend only on the set of selected ids, not on selection order |
| `Evenements.DoubleToggleKeepsDetails` | src/pages/Evenements.tsx:61-76 | ticking and unticking a dish leaves the dishes sent unchanged |
| `Evenements.InputChange` | src/pages/Evenements.tsx:54-59 | the named field gets the value and every other field is unchanged |
| `Evenements.InputChangesCombine` | src/pages/Evenements.tsx:54-59 | a later change of a field overrides an earlier one; changes to different fields commute |
| `Evenements.SubmitEnabled` | src/pages/Evenements.tsx:280 | the button is enabled iff not loading and name, type, date and headcount are all non-empty |
| `Evenements.OptionalFieldsDoNotMatter` | src/pages/Evenements.tsx:280 | editing the budget or the special requests never changes whether the form can be sent |
| `Evenements.HandleSubmit` | src/pages/Evenements.tsx:69-119 | the request carries the form, the date and the selected details; the page is reset (no date, no selection, the five form fields back to "") and its button is then disabled |
| `AdminCommandes.FilteredOrders` | src/pages/AdminCommandes.tsx:20-26 | an undefined list gives []; the result holds exactly the listed orders passing the status and search tests |
| `AdminCommandes.FilteredOrdersShape` | src/pages/AdminCommandes.tsx:20-26 | "tous" with an empty search returns the list unchanged; every result is an order-preserving subsequence; a status filter other than "tous" keeps only that status |
| `AdminCommandes.SearchMeaning` | src/pages/AdminCommandes.tsx:22-24 | a non-empty search keeps an order iff the lower-cased query occurs in its lower-cased number or client; absent fields never match |
| `AdminCommandes.SearchIgnoresCase` | src/pages/AdminCommandes.tsx:22-24 | a query and its lower-cased form select the same orders |
| `AdminCommandes.BadgeVariant` | src/pages/AdminCommandes.tsx:38-55 | total mapping: awaiting confirmation and cancelled are destructive, collected is outline, confirmed and ready are default, everything else secondary |
| `Text.Lower` | src/pages/AdminCommandes.tsx:23-24 | lower-casing keeps length, folds each character and leaves no upper-case ASCII letter |
| `Text.ContainsIff` | src/pages/AdminCommandes.tsx:23-24 | `includes` holds iff the needle occurs at some position of the text |
| `Admin.CountWhere` | src/pages/Admin.tsx:27-34 | `filter(...).length` or 0 is 0 for an undefined list, at most the length, the length iff all match, 0 iff none match |
| `Admin.CountWhereAdds` | src/pages/Admin.tsx:27-34 | the count adds up over concatenation and counts one per matching element |
| `Admin.NewOrderCount` | src/pages/Admin.tsx:27 | new-order count is 0 when undefined, at most the list length, 0 iff no order awaits confirmation |
| `Admin.NewOrderCountCounts` | src/pages/Admin.tsx:27 | the new-order count is the number of orders whose status is exactly "En attente de confirmation" |
| `Admin.NewRequestCount` | src/pages/Admin.tsx:34 | new-request count is 0 when undefined, at most the list length, 0 iff no request is "Demande initiale" |
| `Admin.NewRequestCountCounts` | src/pages/Admin.tsx:34 | the new-request count is the number of requests whose status is "Demande initiale" |
| `Admin.TotalClients` | src/pages/Admin.tsx:35 | the client total is the list length, or 0 when undefined |
| `Admin.TotalClientsCountsRecords` | src/pages/Admin.tsx:35 | fed by the client mapper, the total is the number of fetched records, 0 without data |
| `Admin.PreviewAsWritten` | src/pages/Admin.tsx:189-208 | the panel shows the first min(5, n) items in order, and the fallback message only for an undefined list |
| `Admin.EmptyListShowsBlankPanel` | src/pages/Admin.tsx:189-208 | an empty order list gives a panel with no row and no message |
| `Admin.ClientMessageUnreachable` | src/pages/Admin.tsx:252-264 | with the client mapper as source, the clients panel never shows its "none found" message |
| `Admin.Preview` | src/pages/Admin.tsx:189-208 | intended preview: the first min(5, n) items in order, and the message exactly when there is nothing to list |
| `AirtableMappers.Clients` | src/hooks/useAirtable.ts:43-53 | missing data gives []; otherwise one client per record, in record order |
| `AirtableMappers.ClientsFollowRecords` | src/hooks/useAirtable.ts:43-53 | id and createdTime are copied; nom, prenom and email default to "" when missing or falsy; other fields pass through |
| `AirtableMappers.Dishes` | src/hooks/useAirtable.ts:61-70 | missing data gives []; otherwise one dish per record, in record order |
| `AirtableMappers.DishesFollowRecords` | src/hooks/useAirtable.ts:61-70 | id copied, nom defaults to ""; `disponible` is false iff the column is exactly boolean false, true when absent |
| `AirtableMappers.NewClientFields` | src/hooks/useAirtable.ts:83-91 | the posted dictionary has exactly the seven columns Nom, Prenom, Email, Telephone, Adresse, Date de naissance, Preferences, and each holds the matching client property |
| `AirtableMappers.NewClientRequest` | src/hooks/useAirtable.ts:83-93 | the new client is created in table "Client DB" with those fields |
| `AirtableMappers.Serialized` | src/services/airtableService.ts:33-35 | the JSON body drops undefined properties and reads the same on every column |
| `AirtableMappers.NewClientReadsBack` | src/hooks/useAirtable.ts:83-93 | the client mapper inverts the field map: mapping the posted fields (with or without the dropped `undefined` properties) gives back each property, with the "" fallback for a falsy name or e-mail |

## Left out

- Rendering, styling, routing, navigation, internationalisation and static pages: presentation only.
- HTTP calls, React Query caching and invalidation, and the `localStorage` configuration store: network, a foreign cache library and browser storage.
- The today's-orders counter of `Admin.tsx` and the date pickers' "not in the past" rules: they read the clock and locale date strings.
- Timestamps in the sent order and event request: they read the clock.
- `toFixed(2)` formatting: totals are exact integer cents instead of rounded floats.
- The "Plat ajouté !" toast of `ajouterAuPanier` and the confirmation toasts of `validerCommande` and `handleSubmit`: user notifications with no effect on state.
- The table service is assumed to store the posted fields unchanged and return them on the next read; `AirtableMappers.NewClientReadsBack` is about the two mappers, not the service.
- The error branches of `validerCommande` and `handleSubmit`: nothing in their `try` blocks can fail in the code as written (the webhook calls are commented out), so success is the only path modelled; the transient `isLoading = true` is not observable afterwards.
- Text.Lower: folds only the ASCII letters A to Z; JavaScript's `toLowerCase` also folds other capitals such as "É", so searches involving accented capitals are not modelled.
- AirtableMappers.Value: numbers are reals and NaN is not modelled (NaN is falsy in JavaScript).
- The `onChange` bindings that set the selected day, pickup date, time and notes: they are plain field assignments on `Commander.OrderPage`.
- The dashboard's own inline badge colours and `AdminCommandeDetail.tsx`, `Profil.tsx`, `AirtableTest.tsx`, `ClientsList.tsx`: display and form binding only.

## Findings

| source | as written | input that shows it | evidently intended | confidence | as-written member | corrected member |
|---|---|---|---|---|---|---|
| src/pages/Admin.tsx:189-264 | `list?.slice(0, 5).map(row)` with a "none found" paragraph as the `or` alternative shows the message only when the list is undefined, since an empty array is truthy | an empty order list gives a blank panel; the client list from `useClients` is never undefined, so "Aucun client trouvé" never shows | show the message whenever there is nothing to list | not executed; high | `Admin.PreviewAsWritten` (`Admin.EmptyListShowsBlankPanel`, `Admin.ClientMessageUnreachable`) | `Admin.Preview` |
