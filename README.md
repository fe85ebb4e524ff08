# EcoSync waste-transfer store, modelled in Dafny

EcoSync is a single-page application that coordinates waste transfers
between drumyards (collection sites holding a stock of waste) and NGOs
(partners that process it). All its state lives in one in-memory store
(`EcoProvider`):

- three collections: drumyards, NGOs and connections;
- four mutators: `addDrumyard`, `addNGO`, `createConnection` and
  `updateConnectionStatus`;
- one read-only query, `getStats`.

The pages read the store and call its mutators.

This project models the following:

- the store, as the class `EcoContext.EcoStore`. Its three `seq` fields are
  replaced by its methods, and its aggregates are recursive folds
  (module `EcoStats`);
- the admin dashboard's two derivations (module `AdminPage`):
  - the waste-by-type grouping is a loop over the drumyards. It calls a
    callback whose loop bumps or pushes accumulator entries. It is proved
    against a specification function, `Grouped`;
  - the activity list is the first five connections, projected;
- the operations page (module `ConnectionsPage`):
  - the submit guard on the transfer form;
  - the one forward status step that each connection card offers;
- the NGO form's specialization toggle and submit step (module `NgosPage`);
- the drumyard form's one-entry registration and reset (module
  `DrumyardsPage`).

Each page's form state is a class whose fields are the `useState` variables.
A setter is a field assignment.

Modelling choices:

- `uuidv4()` becomes an `id` parameter. A precondition says that no entity of
  that collection holds this id yet. A ghost `Valid()` keeps ids unique per
  collection.
- The creation date of a connection is a `date` parameter.
- Amounts are unbounded integers. The store validates nothing, so they may
  be zero or negative.
- A form's amount field is `Option<int>`: `None` is the empty input.
  `Number("")` is 0, so the drumyard handler, called with an empty amount
  field, would register 0 kg (`DrumyardsPage.ParsedAmount`).
- Every `reduce` is a left fold. It is written as recursion on the last
  element, which adds in the same order.

Three things the code does not enforce; the model follows the code:

- `createConnection` does not check that the drumyard and NGO ids exist.
- `updateConnectionStatus` accepts any status, a backward one included.
  The forward-only lifecycle exists only in the buttons of the operations
  page.
- No amount is checked to be non-negative or positive.

## Model

| member | source | states |
|---|---|---|
| `EcoContext.EcoStore.constructor` | client/src/context/EcoContext.tsx:53-112 | the store starts with the two mock drumyards, two NGOs and two connections, ids unique; its stats are totalWaste 3950, totalRecycled 500, activeConnections 1 |
| `EcoContext.SeedStats` | client/src/context/EcoContext.tsx:53-112 | on the mock data the stock sums to 3950 kg, the processed transfers to 500 kg, and exactly one connection is active |
| `EcoContext.SeedWaste` | client/src/context/EcoContext.tsx:53-74 | the mock drumyards' stock (1200 + 450 at d1, 300 + 2000 at d2) sums to 3950 kg |
| `EcoContext.SeedConnectionStats` | client/src/context/EcoContext.tsx:93-112 | of the mock connections, the processed c1 gives 500 kg recycled and the collected c2 is the one active connection |
| `EcoContext.EcoStore.GetStats` | client/src/context/EcoContext.tsx:138-143 | reads only; totalWaste equals one sum over every stock entry of every drumyard; activeConnections plus the number of processed connections is the number of connections |
| `EcoContext.EcoStore.AddDrumyard` | client/src/context/EcoContext.tsx:114-117 | appends exactly the caller's drumyard with the fresh id; earlier drumyards, NGOs and connections unchanged; ids stay unique; totalWaste rises by the new stock sum, the other stats are unchanged |
| `EcoContext.EcoStore.AddNgo` | client/src/context/EcoContext.tsx:119-122 | appends exactly the caller's NGO with the fresh id; nothing else changes; stats unchanged |
| `EcoContext.EcoStore.CreateConnection` | client/src/context/EcoContext.tsx:124-132 | appends one Pending connection carrying the caller's drumyard id, NGO id, type and amount, the fresh id and the given date, with no check that the ids resolve; activeConnections rises by one, the other stats are unchanged |
| `EcoContext.EcoStore.UpdateConnectionStatus` | client/src/context/EcoContext.tsx:134-136 | connections become the status update of the old ones for any status; drumyards, NGOs and totalWaste unchanged; ids stay unique |
| `EcoContext.SetStatus` | client/src/context/EcoContext.tsx:135 | same length and order; every connection with the id gets the new status with its other fields kept; every other connection is identical |
| `EcoContext.SetStatusUnknownId` | client/src/context/EcoContext.tsx:135 | an id that no connection holds leaves the collection unchanged |
| `EcoContext.SetStatusKeepsIds` | client/src/context/EcoContext.tsx:135 | the update keeps connection ids unique |
| `EcoContext.SetStatusAt` | client/src/context/EcoContext.tsx:135 | with unique ids, updating connection i's id changes connection i's status and nothing else |
| `EcoContext.CreateThenCollect` | client/src/context/EcoContext.tsx:124-143 | from the mock data, creating a 500 kg Plastic transfer and marking it collected gives a third, collected connection and one more active connection, with the same waste and recycled totals |
| `EcoStats.StockSum` | client/src/context/EcoContext.tsx:139 | definition, no contract: the inner `reduce` over one drumyard's stock, adding the amounts left to right from 0 |
| `EcoStats.TotalWaste` | client/src/context/EcoContext.tsx:139 | definition, no contract: the outer `reduce` adding each drumyard's stock sum; `EcoStats.TotalWasteIsFlatSum` relates it to one flat sum |
| `EcoStats.ProcessedOnly` | client/src/context/EcoContext.tsx:140 | the processed filter is never longer than the connections; which connections it keeps is `EcoStats.ProcessedOnlySpec` |
| `EcoStats.ProcessedOnlySpec` | client/src/context/EcoContext.tsx:140 | a connection is in the processed filter iff it is one of the connections and its status is Processed |
| `EcoStats.AmountSum` | client/src/context/EcoContext.tsx:140 | definition, no contract: the `reduce` adding the filtered connections' amounts from 0 |
| `EcoStats.TotalRecycled` | client/src/context/EcoContext.tsx:140 | definition, no contract: the amount sum of the processed filter |
| `EcoStats.Unprocessed` | client/src/context/EcoContext.tsx:141 | the active filter is never longer than the connections; which connections it keeps is `EcoStats.UnprocessedSpec` |
| `EcoStats.UnprocessedSpec` | client/src/context/EcoContext.tsx:141 | a connection is in the active filter iff it is one of the connections and its status is not Processed |
| `EcoStats.ActiveConnections` | client/src/context/EcoContext.tsx:141 | definition, no contract: the length of the active filter; `EcoStats.ActivePlusProcessed` relates it to the processed filter |
| `EcoStats.StockSumAppend` | client/src/context/EcoContext.tsx:139 | the stock sum of two concatenated stocks is the sum of their stock sums |
| `EcoStats.TotalWasteAppend` | client/src/context/EcoContext.tsx:139 | totalWaste over concatenated drumyard lists is the sum of the two totals |
| `EcoStats.TotalWasteIsFlatSum` | client/src/context/EcoContext.tsx:139 | the nested reduce equals one sum over all stock entries, drumyard by drumyard |
| `EcoStats.ActivePlusProcessed` | client/src/context/EcoContext.tsx:140-141 | active connections plus processed connections equal all connections |
| `EcoStats.ConnectionStatsSnoc` | client/src/context/EcoContext.tsx:140-141 | appending a connection adds its amount to totalRecycled if it is processed, and one to activeConnections if it is not |
| `EcoStats.StatusChangeStats` | client/src/context/EcoContext.tsx:140-141 | changing one connection's status changes totalRecycled and activeConnections by exactly the difference of its old and new contributions |
| `AdminPage.Find` | client/src/pages/Admin.tsx:14 | finds nothing iff no entry has the name; otherwise the first entry with that name |
| `AdminPage.FirstOccurrencesSpec` | client/src/pages/Admin.tsx:14-18 | the first-occurrence list has no repeats and holds exactly the types that occur |
| `AdminPage.TypeSumAbsent` | client/src/pages/Admin.tsx:13-19 | a type with no stock entry sums to 0 |
| `AdminPage.Absorb` | client/src/pages/Admin.tsx:14-18 | one forEach step, bump the found entry or push a new one, grows the accumulator by at most one entry; that it keeps a grouping is `AdminPage.AbsorbStep` |
| `AdminPage.Grouped` | client/src/pages/Admin.tsx:12-22 | the reduce as a fold of the step from `[]`; it has no more entries than there are stock entries; its grouping properties are `AdminPage.GroupedSummarizes`, `AdminPage.GroupedTotal` and `AdminPage.WasteByTypeSpec` |
| `AdminPage.AbsorbBump` | client/src/pages/Admin.tsx:14-16 | bumping the entry found for the type keeps the names and makes that entry's value the type's sum including the new amount |
| `AdminPage.AbsorbPush` | client/src/pages/Admin.tsx:17-18 | pushing an entry for a type not found appends that type to the first-seen names with the new amount as its sum; the other sums are unchanged |
| `AdminPage.AbsorbStep` | client/src/pages/Admin.tsx:13-19 | one bump-or-push step keeps the accumulator a grouping: names in first-seen order, each value the per-type sum |
| `AdminPage.GroupedSummarizes` | client/src/pages/Admin.tsx:12-22 | the grouping of any stock list has one entry per type in first-seen order, each valued at the sum over that type |
| `AdminPage.ValueSumUpdate` | client/src/pages/Admin.tsx:16 | bumping one entry changes the total of the values by the same amount |
| `AdminPage.GroupedTotal` | client/src/pages/Admin.tsx:12-22 | the grouped values add up to the sum of all amounts |
| `AdminPage.DistinctTypesAtMostSix` | client/src/context/EcoContext.tsx:4 | a list of waste types without repeats has at most six elements |
| `AdminPage.WasteByTypeSpec` | client/src/pages/Admin.tsx:12-22 | over all drumyards: at most one entry per type, at most six entries, first-seen order, a type has an entry iff some stock entry has that type, each value is that type's sum, and all values add up to totalWaste |
| `AdminPage.AbsorbStock` | client/src/pages/Admin.tsx:13-20 | the reduce callback's forEach turns the grouping of the stock seen so far into the grouping with this drumyard's stock appended |
| `AdminPage.WasteByType` | client/src/pages/Admin.tsx:12-22 | the in-place reduction returns the grouping of all stock: distinct names, at most six, present iff the type occurs, per-type sums, and a grand total equal to totalWaste |
| `AdminPage.Project` | client/src/pages/Admin.tsx:26-30 | same length; item i is connection i's type, amount and status |
| `AdminPage.ActivityData` | client/src/pages/Admin.tsx:26-30 | length min(5, number of connections); item i is the type, amount and status of connection i |
| `AdminPage.ActivityDataOmitsNewest` | client/src/pages/Admin.tsx:26-30 | with more than five connections, a type that only the newest connection carries never appears in the activity data |
| `AdminPage.LatestActivity` | client/src/pages/Admin.tsx:124-125 | the five newest connections, oldest first; the newest connection is always shown |
| `ConnectionsPage.OfferedTransition` | client/src/pages/Connections.tsx:158-167 | Pending offers only Collected and Collected only Processed, each one stage forward; Processed offers nothing |
| `ConnectionsPage.MarkCollectedKeepsStats` | client/src/pages/Connections.tsx:159 | Pending to Collected leaves activeConnections and totalRecycled unchanged |
| `ConnectionsPage.MarkProcessedStats` | client/src/pages/Connections.tsx:164 | Collected to Processed lowers activeConnections by one and raises totalRecycled by that connection's amount |
| `ConnectionsPage.AfterPress` | client/src/pages/Connections.tsx:158-167 | definition, no contract: the connections after the two `onClick` handlers at lines 159 and 164, an update to the offered status or nothing once processed; `ConnectionsPage.PressIsForwardStep` and `ConnectionsPage.PressStats` state its effect |
| `ConnectionsPage.PressIsForwardStep` | client/src/pages/Connections.tsx:158-167 | a button press moves the pressed connection exactly one stage on and leaves every other one identical; no connection moves backward; ids stay unique |
| `ConnectionsPage.PressStats` | client/src/pages/Connections.tsx:158-167 | only a press on a collected connection moves the connection stats: active down one, recycled up by its amount |
| `ConnectionsPage.ConnectionsForm.constructor` | client/src/pages/Connections.tsx:16-22 | dialog closed and all four form fields empty |
| `ConnectionsPage.ConnectionsForm.Complete` | client/src/pages/Connections.tsx:26 | definition, no contract: the guard holds iff drumyard, NGO, type and amount are all filled in; `ConnectionsPage.ConnectionsForm.HandleSubmit` states both of its outcomes |
| `ConnectionsPage.ConnectionsForm.HandleSubmit` | client/src/pages/Connections.tsx:24-38 | with any field empty, nothing changes; otherwise exactly one Pending connection with the selected drumyard, NGO, type and amount is appended, the four fields are cleared and the dialog closes |
| `ConnectionsPage.ConnectionsForm.PressStatusButton` | client/src/pages/Connections.tsx:158-167 | the store's connections become the offered step's update; no stage decreases; totalWaste is unchanged; only the Collected to Processed step changes the other stats |
| `NgosPage.RemoveAll` | client/src/pages/NGOs.tsx:27 | the filter removes every copy of the type and keeps every other type's membership; it is the identity when the type is absent |
| `NgosPage.RemoveAllKeepsDistinct` | client/src/pages/NGOs.tsx:27 | filtering keeps a list without repeats free of repeats |
| `NgosPage.Toggle` | client/src/pages/NGOs.tsx:25-31 | a listed type is gone afterwards; an absent one is appended at the end; every other type's membership is unchanged |
| `NgosPage.ToggleKeepsDistinct` | client/src/pages/NGOs.tsx:25-31 | toggling keeps a specialization list free of repeats |
| `NgosPage.ToggleTwiceAbsent` | client/src/pages/NGOs.tsx:25-31 | toggling an absent type twice restores the exact original list |
| `NgosPage.ToggleTwicePresent` | client/src/pages/NGOs.tsx:25-31 | toggling a listed type twice keeps the same members, with that type moved to the end |
| `NgosPage.ToggleTwiceReorders` | client/src/pages/NGOs.tsx:25-31 | the order can change: [Plastic, Paper] comes back as [Paper, Plastic] |
| `NgosPage.NgoForm.constructor` | client/src/pages/NGOs.tsx:17-23 | dialog closed, empty name, location and specialization, type Private |
| `NgosPage.NgoForm.HandleSpecToggle` | client/src/pages/NGOs.tsx:25-31 | the specialization becomes its toggle; no other field changes |
| `NgosPage.NgoForm.HandleSubmit` | client/src/pages/NGOs.tsx:33-39 | appends the NGO with the entered name, type, location and specialization unchanged; clears name, location and specialization; keeps the type; closes the dialog |
| `DrumyardsPage.ParsedAmount` | client/src/pages/Drumyards.tsx:37 | definition, no contract: `Number(wasteAmount)` on an integer field, with the empty field read as 0 |
| `DrumyardsPage.Registration` | client/src/pages/Drumyards.tsx:31-40 | name, owner and location passed through; exactly one stock entry, of the selected type, recyclable, whose amount is the stock sum |
| `DrumyardsPage.DrumyardForm.constructor` | client/src/pages/Drumyards.tsx:17-26 | dialog closed, empty text fields, type Plastic, empty amount |
| `DrumyardsPage.DrumyardForm.HandleSubmit` | client/src/pages/Drumyards.tsx:28-50 | with no field check, registers the one-entry recyclable drumyard; totalWaste rises by exactly the entered amount; name, owner, location and amount are cleared; the type is kept; the dialog closes |

## Left out

- Every id parameter: `uuidv4()` is a foreign random generator. It is
  replaced by a caller-supplied id that no entity of the same collection
  holds. Global uniqueness across the three collections is not modelled.
- The connection date: it is read from the clock and formatted as an ISO
  date. It is a parameter instead.
- Amount parsing: `Number(...)` on form text, `NaN` and floating-point amounts
  are not modelled. Amounts are integers, and an empty field is `None`.
- `ConnectionsPage.ConnectionsForm.wasteType`: the source keeps any string
  and casts it with `as any`. The model keeps `Option<WasteType>`, because the
  select only offers the six type names.
- The `useEco` missing-provider error (client/src/context/EcoContext.tsx:152-157):
  framework plumbing. Every store method takes an existing `EcoStore`.
- `getStatusColor` (client/src/pages/Connections.tsx:40-47): it only picks CSS
  class strings.
- Toasts, dialog open/close by the user, the `onChange` field setters,
  `e.preventDefault()`, chart rendering and colour cycling: these are UI
  machinery. Only the `isOpen` assignments made by the submit handlers are
  modelled.
- React re-rendering and functional state updates: every update is
  modelled as an immediate, sequential field assignment.
- client/src/pages/Home.tsx, client/src/components/layout/AppLayout.tsx and
  client/src/App.tsx: static markup, navigation highlighting and route wiring.
- The HTML `required` attributes on the drumyard and NGO forms
  (client/src/pages/Drumyards.tsx:73, 78, 82, 104 and
  client/src/pages/NGOs.tsx:62, 77): they are browser-side checks. Both
  submit handlers are modelled without any check, as written.

## Findings

| source | as written | input that shows it | evidently intended | confidence | as-written member | corrected member |
|---|---|---|---|---|---|---|
| client/src/pages/Admin.tsx:26 | `connections.slice(0, 5)` feeds the chart titled "Recent Activity" and described as "Latest waste transfer operations". New connections are appended at the end, so the chart shows the five oldest transfers. | six connections where only the sixth, the newest, is of type Glass: no Glass item appears | the five most recent connections | not executed; medium | `AdminPage.ActivityDataOmitsNewest` | `AdminPage.LatestActivity` |
