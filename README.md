# Per-date category counts of the VGI4HWM dashboard

The dashboard shows geotagged photo and video records on a stacked time
histogram: one bar per date, split into one layer per media category.
The logic the dashboard implements itself is the aggregation that feeds
those bars. `receiveData` in `src/app/dashboard/dashboard.component.ts`
does four things:

- it builds `categoryCounts`, an object with every category shortname
  set to 0;
- it gives the date group three reducers: `initial` copies that table,
  `add` increments the entry of a record's category shortname, and
  `remove` decrements it;
- it makes category objects compare by their numeric `id` by replacing
  their `valueOf`;
- it stacks the chart: the first category is the base group and every
  later category is a layer named by its shortname. Each series reads
  its shortname's entry of a date's accumulator.

This project models that aggregation and proves what it guarantees:

- add and remove undo each other when the accumulator has the record's
  shortname; without it, either round trip leaves that key holding NaN;
- the result does not depend on the order of the calls;
- when every touched shortname has a zeroed entry, any mix of add and
  remove calls that nets to a set of records leaves exactly the batch
  count of those records; a touched shortname without an entry ends as
  NaN;
- each series shows the number of records whose category shortname is
  the series' shortname; where shortname and id pick out the same
  records, that is the count of the category's id group
  (`Stacking.LayerCountsById`);
- the stacked bar counts each record once per category carrying its
  shortname; so when no two categories share a shortname and the
  shortnames cover every record, it shows the number of records at that
  date.

Modules, one per concept:

- `Sums` (`sums.dfy`): sums over sequences. They split over
  concatenation and do not depend on order.
- `Media` (`media.dfy`): records, categories, and the category key that
  compares by id.
- `Reducers` (`reducers.dfy`): accumulators as values. A JavaScript
  number is `Num(n)` or `NaN`, and a missing key reads as `undefined`.
  The module holds the zeroed table and the add and remove reducers.
  Its lemmas cover replaying a sequence of reducer calls (`Op`) and the
  batch recount.
- `CountTables` (`count_table.dfy`): the JavaScript objects updated in
  place. The class `CountTable` has an `entries` map. Its constructor
  `Initial` makes the fresh copy, and its methods `Add` and `Remove`
  update the object and return it. `BuildCategoryCounts` is the loop
  that fills `categoryCounts`.
- `Stacking` (`stacking.dfy`): the base and layer series, their value
  accessor, and the top of a stacked bar.

Modelling choices:

- Each record has one `category` (lines 53, 62 and 71), even though the
  raw interface lists a `categories` array.
- The category dimension's key is the category object itself, compared
  through its replaced `valueOf`, which returns the id
  (`Media.CategoryKey`).
- The accumulators are keyed by category shortname.

## Model

| member | source | states |
|---|---|---|
| Media.SameGroupIffSameId | src/app/dashboard/dashboard.component.ts:52-55 | two category objects fall into one key group exactly when their ids are equal, whatever their names; otherwise exactly one sorts first |
| Reducers.Zeroed | src/app/dashboard/dashboard.component.ts:59-62 | the zeroed table has a key for exactly the shortnames of the category group, and every entry is 0 |
| Reducers.Add | src/app/dashboard/dashboard.component.ts:70-73 | add raises the record's shortname entry by exactly 1. A missing or NaN entry becomes NaN. Every other entry is unchanged, and the only key that can be new is that shortname |
| Reducers.Remove | src/app/dashboard/dashboard.component.ts:74-77 | remove lowers the record's shortname entry by exactly 1, with the same NaN cases. Every other entry is unchanged |
| Reducers.AddThenRemove | src/app/dashboard/dashboard.component.ts:70-77 | add followed by remove of the same record restores the accumulator exactly when it has the record's key |
| Reducers.RemoveThenAdd | src/app/dashboard/dashboard.component.ts:70-77 | remove followed by add of the same record restores the accumulator exactly when it has the record's key |
| Reducers.AddWithoutKeyGivesNaN | src/app/dashboard/dashboard.component.ts:70-77 | without the key, neither add then remove nor remove then add restores the accumulator: it gains the key holding NaN |
| Reducers.ReplayEntries | src/app/dashboard/dashboard.component.ts:69-79 | after any sequence of reducer calls: the keys are the old keys plus the touched shortnames; an existing entry moves by adds minus removes for its shortname; a key that was missing holds NaN |
| Reducers.ReplayOrderIndependent | src/app/dashboard/dashboard.component.ts:69-79 | any reordering of the same reducer calls leaves the same accumulator |
| Reducers.IncrementalEqualsBatch | src/app/dashboard/dashboard.component.ts:59-79 | starting from the zeroed table, adds and removes that net to a batch of records leave, for every shortname, the number of batch records carrying it. This is the batch recount |
| Reducers.BatchRecount | src/app/dashboard/dashboard.component.ts:59-79 | adding every record of a batch to the zeroed table gives the batch recount |
| CountTables.CountTable.Initial | src/app/dashboard/dashboard.component.ts:78 | `initial` makes a new object whose entries equal `categoryCounts` |
| CountTables.CountTable.SetZero | src/app/dashboard/dashboard.component.ts:62 | after `table[key] = 0` the key holds 0, and the other keys are unchanged |
| CountTables.CountTable.Add | src/app/dashboard/dashboard.component.ts:70-73 | the in-place add leaves the entries that `Reducers.Add` gives and returns the same object |
| CountTables.CountTable.Remove | src/app/dashboard/dashboard.component.ts:74-77 | the in-place remove leaves the entries that `Reducers.Remove` gives and returns the same object |
| CountTables.BuildCategoryCounts | src/app/dashboard/dashboard.component.ts:59-64 | the loop over the category group leaves a new table with every shortname present and every count 0 |
| CountTables.SeparateAccumulators | src/app/dashboard/dashboard.component.ts:78 | two accumulators made by `initial` are distinct new objects. Adding to one changes neither the other nor `categoryCounts` |
| Stacking.Layering | src/app/dashboard/dashboard.component.ts:96-108 | there is one series per category. Only the first is the base. Every later one is a layer named by its shortname, and each series reads its own category's shortname |
| Stacking.LayerShowsCount | src/app/dashboard/dashboard.component.ts:96-108 | after reducer calls that net to a batch, each series' value at a date is the number of batch records whose category shortname is the series' shortname, whatever other shortnames the calls touch |
| Stacking.StackTopCountsRecords | src/app/dashboard/dashboard.component.ts:96-108 | when shortnames are distinct and cover every record, the stacked bar's top equals the number of records at that date |
| Stacking.StackTopCountsCopies | src/app/dashboard/dashboard.component.ts:59-108 | after reducer calls that net to a batch, the stacked bar's top is the sum over the batch's records of the number of categories carrying each record's shortname |
| Stacking.UnknownShortnameNotStacked | src/app/dashboard/dashboard.component.ts:59-108 | an instance of that law: with one category "x", records of id 1 under shortnames "x" and "y" give a bar 1 high, because the NaN "y" entry is read by no series |
| Stacking.SharedShortnameStacksTwice | src/app/dashboard/dashboard.component.ts:59-108 | an instance of that law: categories (1,"x") and (2,"x") share one counter and both series read it, so a single record makes the stacked bar 2 high |
| Stacking.LayerCountsById | src/app/dashboard/dashboard.component.ts:52-108 | where shortname and id select the same records, each series counts the records of its category's id group, the grouping the category dimension uses |

## Left out

- Crossfilter is a library whose code is not part of this model. The
  model leaves out its dimensions, `filter`/`filterAll`,
  `group().all()` and `top(Infinity)` (lines 48-57, 63, 67, 83). Which
  records reach which date's accumulator, and in what order, is
  represented by an arbitrary sequence of reducer calls (`Reducers.Op`).
  The order of the category group's keys is an input.
- The `categoryDim.filter(group.key)` call inside the counts loop
  (line 63) is left out. The filter is cleared at line 67, before any
  reducer runs.
- ISO-8601 parsing (line 45) and the one-day axis padding (lines 90-93)
  are date-library calls. A record carries its parsed instant as an
  integer.
- The dc chart configuration, the `renderlet` callback that updates the
  map markers, and rendering (lines 81-94, 110, 113-115) are left out.
  `Stacking.StackTop` states only the arithmetic of stacking.
- The HTTP data services, the Leaflet map service and the vector icon
  class are I/O and UI code over libraries. They are not part of this
  model.
- Stacking.StackTopCountsRecords: holds only when no two categories
  share a shortname. Nothing in the code ensures this. Categories with
  different ids and one shortname share one counter, and each of their
  series stacks it again (`Stacking.StackTopCountsCopies`,
  `Stacking.SharedShortnameStacksTwice`).
- Reducers.Add: JavaScript numbers are modelled as unbounded integers
  plus NaN. Floating-point rounding beyond 2^53 is not modelled.
- Reducers.Add: the prototype chain of plain objects is not modelled.
  A shortname such as `__proto__` or `constructor` behaves differently
  in JavaScript.
- The replacement of `valueOf` at line 53 mutates the record's category
  object. The model treats it as a pure key function, because no field
  the aggregation reads changes.
