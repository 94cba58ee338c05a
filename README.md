# Crime incidents search: the filter compiler

A Dafny model of the search-filter compiler of the crime incidents browser
(`CrimeIncidentsApp.java`). The model has four parts:

- **The search builder.** `onSearch` starts from a fixed
  `SELECT … WHERE 1=1` query. It appends an optional lower and upper bound on
  the report date, then one ` AND <column> IN (?,…,?)` per dimension whose
  selection is not `["All"]` (shift, method, offense, block, via
  `applyMultiFilter`). Alongside it builds the ordered list of values that
  `performSearch` binds positionally to the `?` markers.
- **The filter panel's selection lists.** There are four mutable lists, all
  starting as `["All"]`. The OK handler of a multi-select dialog rewrites a
  list in place. *Clear* (`resetFilters`) restores the defaults.
- **The reports.** The two Top-N reports run no query unless the number
  entered is at least 1; otherwise they bind exactly that number to a fixed
  `… LIMIT ?` template. The average-duration and query-history reports bind
  nothing.
- **`FilterCriteria`**, the value the panel hands to the builder.

Files:

- `sql.dfy`: statements and their `?` markers, positional well-formedness,
  and the `?,?,…,?` marker list.
- `criteria.dfy`: `FilterCriteria`, dates and the `"All"` sentinel.
- `filters.dfy`: the panel as a class over shared `SelectionList` objects.
  It models the OK handler, `resetFilters` as written, and a corrected
  reset.
- `search.dfy`: the builder (`SqlText` and `ParamList` stand for the
  `StringBuilder` and the `ArrayList`). It also holds the specification of
  the search as an ordered list of clauses, and the lemmas relating the two.
- `reports.dfy`: the Top-N guard and the fixed report statements.

The statement handed to `performSearch(sql, params, prepared)` is a
`Statement`. `WellBound` says it has one parameter per `?` marker, and no
parameter at all when it runs unprepared.

## Model

| member | source | states |
|---|---|---|
| Sql.NCopies | 385Final/src/FinalJDBC/CrimeIncidentsApp.java:277 | `Collections.nCopies(n, x)`: exactly `n` elements, each equal to `x` |
| Sql.MarkerListShape | 385Final/src/FinalJDBC/CrimeIncidentsApp.java:277 | the joined marker list for `n` values holds exactly `n` markers. It is empty for 0 and has length `2n-1` otherwise, with `?` at every even position and `,` at every odd one |
| Search.BaseHasNoMarkers | 385Final/src/FinalJDBC/CrimeIncidentsApp.java:157-166 | the base query contains no `?` |
| Search.DateSqlMarkers | 385Final/src/FinalJDBC/CrimeIncidentsApp.java:168-175 | each date condition carries exactly one marker |
| Search.RestrictsUnlessAll | 385Final/src/FinalJDBC/CrimeIncidentsApp.java:276 | for a non-empty list, the guard `size>1 \|\| !"All".equals(get(0))` holds exactly when the list is not `["All"]` |
| Search.TextParams | 385Final/src/FinalJDBC/CrimeIncidentsApp.java:280 | the selected values become parameters one for one, in list order |
| Search.InListMarkers | 385Final/src/FinalJDBC/CrimeIncidentsApp.java:277-279 | ` AND <column> IN (…)` for `n` values has exactly `n` markers when the column has none |
| Search.ApplyMultiFilter | 385Final/src/FinalJDBC/CrimeIncidentsApp.java:272-282 | a `["All"]` list leaves text and parameters unchanged. Any other non-empty list appends ` AND <column> IN (` + its marker list + `)` to the text and its values, in order, to the parameters |
| Search.ApplyDateBound | 385Final/src/FinalJDBC/CrimeIncidentsApp.java:168-175 | a present bound appends its condition and its date as a timestamp; an absent one appends nothing |
| Search.ApplyDimension | 385Final/src/FinalJDBC/CrimeIncidentsApp.java:176-179 | one `applyMultiFilter` call appends exactly that dimension's clause group, text and values |
| Search.AppendFilters | 385Final/src/FinalJDBC/CrimeIncidentsApp.java:167-179 | the builder only appends. What it adds is exactly the specified clauses' text and their parameters, in clause order |
| Search.OnSearch | 385Final/src/FinalJDBC/CrimeIncidentsApp.java:155-181 | the statement passed to `performSearch` is prepared and well bound. Its text is the base query followed by the specified clauses; its parameters are theirs |
| Search.DateStep | 385Final/src/FinalJDBC/CrimeIncidentsApp.java:168-175 | a date filter's clause group is what its `if (date != null)` block appends: one condition and one timestamp when present, nothing when absent |
| Search.InStep | 385Final/src/FinalJDBC/CrimeIncidentsApp.java:276-281 | a dimension's clause group is what `applyMultiFilter` appends for it |
| Search.SqlOfConcat | 385Final/src/FinalJDBC/CrimeIncidentsApp.java:168-179 | the text of consecutive clause lists is the concatenation of their texts |
| Search.ParamsOfConcat | 385Final/src/FinalJDBC/CrimeIncidentsApp.java:168-179 | the parameters of consecutive clause lists are the concatenation of theirs |
| Search.TextByGroup | 385Final/src/FinalJDBC/CrimeIncidentsApp.java:168-179 | the clause text is the six filters' texts in the fixed order |
| Search.ParamsByGroup | 385Final/src/FinalJDBC/CrimeIncidentsApp.java:168-179 | the parameters are the six filters' values in the fixed order |
| Search.ClauseForBalanced | 385Final/src/FinalJDBC/CrimeIncidentsApp.java:168-179 | every clause of a filter in force has one marker per value it binds |
| Search.ClausesBalanced | 385Final/src/FinalJDBC/CrimeIncidentsApp.java:168-179 | every clause of a search is balanced |
| Search.BalancedMarkers | 385Final/src/FinalJDBC/CrimeIncidentsApp.java:168-179 | balanced clauses together have as many markers as parameters |
| Search.SearchWellBound | 385Final/src/FinalJDBC/CrimeIncidentsApp.java:157-180 | the search text has exactly as many `?` markers as the parameter list has entries |
| Search.PositionalBinding | 385Final/src/FinalJDBC/CrimeIncidentsApp.java:106-110 | for every clause, the markers before it equal the parameters before its values. So `setObject(i + 1, params.get(i))` gives each clause its own values |
| Search.SplitTextAt | 385Final/src/FinalJDBC/CrimeIncidentsApp.java:168-179 | the text of a clause list splits around any clause |
| Search.SplitParamsAt | 385Final/src/FinalJDBC/CrimeIncidentsApp.java:168-179 | the parameters of a clause list split around any clause |
| Search.ClauseOrder | 385Final/src/FinalJDBC/CrimeIncidentsApp.java:168-179 | clauses appear strictly in the order fromDate, toDate, shift, method, offense, block |
| Search.RankedConcat | 385Final/src/FinalJDBC/CrimeIncidentsApp.java:168-179 | groups of at most one clause, ranked 0 to 5 in turn, concatenate to strictly increasing ranks |
| Search.ClausePresence | 385Final/src/FinalJDBC/CrimeIncidentsApp.java:168-179 | a filter has a clause if and only if it is in force (date present, or list not `["All"]`). That clause binds exactly the date or the selected values in order |
| Search.OwnGroup | 385Final/src/FinalJDBC/CrimeIncidentsApp.java:168-179 | every clause of a search is the clause of a filter in force |
| Search.InClausesOf | 385Final/src/FinalJDBC/CrimeIncidentsApp.java:168-179 | every filter in force contributes its clause |
| Search.UnfilteredIsBase | 385Final/src/FinalJDBC/CrimeIncidentsApp.java:157-179 | the text equals the bare base query, and the parameters are empty, if and only if both dates are absent and all four lists are `["All"]` |
| Search.NoClauses | 385Final/src/FinalJDBC/CrimeIncidentsApp.java:168-179 | no clause text and no parameter if and only if no filter is in force |
| Search.GroupNonEmpty | 385Final/src/FinalJDBC/CrimeIncidentsApp.java:168-179 | a filter contributes text, and values, if and only if it is in force |
| Search.GroupText | 385Final/src/FinalJDBC/CrimeIncidentsApp.java:168-179 | a filter's text is its condition when in force, and empty otherwise |
| Search.TextIgnoresValues | 385Final/src/FinalJDBC/CrimeIncidentsApp.java:168-179 | two criteria with the same shape get the same SQL text. The shape is which dates are present and how many values each dimension binds; dates and selected values reach the database only as parameters |
| Search.SameShapeSameText | 385Final/src/FinalJDBC/CrimeIncidentsApp.java:168-179 | criteria of the same shape give each filter the same text |
| Search.SameWidth | 385Final/src/FinalJDBC/CrimeIncidentsApp.java:276-279 | lists binding the same number of values agree on restricting and on the `IN` text |
| Filters.TickedIndices | 385Final/src/FinalJDBC/CrimeIncidentsApp.java:392-394 | reference definition: the ticked positions, strictly ascending, valid, ticked, and covering every ticked box |
| Filters.CheckedInBoxOrder | 385Final/src/FinalJDBC/CrimeIncidentsApp.java:392-394 | the loop's result is exactly the labels at the ticked positions, in box order |
| Filters.OkSelection | 385Final/src/FinalJDBC/CrimeIncidentsApp.java:391-395 | the list an OK click leaves is never empty. It is either `["All"]` or exactly the ticked labels |
| Filters.ApplySelection | 385Final/src/FinalJDBC/CrimeIncidentsApp.java:391-395 | clearing, adding each ticked label in a loop, and then falling back to `"All"` leaves exactly `OkSelection(boxes)` |
| Filters.FilterPanel.OnOk | 385Final/src/FinalJDBC/CrimeIncidentsApp.java:364-398 | the handler rewrites the list it captured, and the panel stays valid (all lists non-empty). A dimension sees the new selection exactly when its field is that list; the others are unchanged |
| Filters.FilterPanel.GetCriteria | 385Final/src/FinalJDBC/CrimeIncidentsApp.java:336-345 | the criteria carry the spinner dates (never null) and each dimension's current list |
| Filters.FilterPanel.ValidIsSearchable | 385Final/src/FinalJDBC/CrimeIncidentsApp.java:336-345 | a valid panel's criteria satisfy `applyMultiFilter`'s need for a first element |
| Filters.FilterPanel.constructor | 385Final/src/FinalJDBC/CrimeIncidentsApp.java:296-320 | all lists start as `["All"]`, each button's handler holds the panel's own list, and the dates are a week ago and today |
| Filters.FilterPanel.ResetFilters | 385Final/src/FinalJDBC/CrimeIncidentsApp.java:347-356 | as written: the defaults are restored, but in four fresh lists that no handler holds |
| Filters.FilterPanel.ResetFiltersInPlace | 385Final/src/FinalJDBC/CrimeIncidentsApp.java:347-356 | corrected: the defaults are restored inside the existing lists, so every handler still edits the list the criteria read |
| Filters.ResetList | 385Final/src/FinalJDBC/CrimeIncidentsApp.java:353-356 | a list reset in place holds exactly `["All"]` |
| Filters.SelectAfterReset | 385Final/src/FinalJDBC/CrimeIncidentsApp.java:347-398 | with the code as written, Clear followed by an OK in the shift dialog leaves the selection in the dialog's list, while the criteria remain the defaults |
| Filters.SelectAfterResetLosesSelection | 385Final/src/FinalJDBC/CrimeIncidentsApp.java:390-395 | ticking the single shift `DAY` gives the selection `["DAY"]`, which differs from the `["All"]` the search then uses |
| Filters.SelectAfterResetInPlace | 385Final/src/FinalJDBC/CrimeIncidentsApp.java:347-395 | with the corrected Clear, the same steps give the defaults with the ticked shifts |
| Reports.PromptForN | 385Final/src/FinalJDBC/CrimeIncidentsApp.java:284-290 | an unparsable answer yields a number below 1 (`-1`) |
| Reports.TopNTemplatesHaveOneMarker | 385Final/src/FinalJDBC/CrimeIncidentsApp.java:186-199 | each Top-N template has exactly one marker, its `LIMIT ?` |
| Reports.TopNGuard | 385Final/src/FinalJDBC/CrimeIncidentsApp.java:183-201 | no statement if and only if `n < 1`. Otherwise the template, prepared, with parameters exactly `[n]`, which is well bound for a one-marker template |
| Reports.FetchTopNBlocks | 385Final/src/FinalJDBC/CrimeIncidentsApp.java:183-191 | no query if and only if the prompt gives less than 1, in particular on a parse failure. Otherwise parameters exactly `[n]`, well bound |
| Reports.FetchTopNOffenses | 385Final/src/FinalJDBC/CrimeIncidentsApp.java:193-201 | as for blocks, with the offense template |
| Reports.PlainReportsWellBound | 385Final/src/FinalJDBC/CrimeIncidentsApp.java:203-217 | the average-duration and query-history statements run unprepared, with no parameters and no markers |

## Left out

- Swing and Swing workers are not modelled. This covers window and menu construction, dialogs, spinners, button captions (`setText` after OK and after Clear), the progress bar and the `SwingWorker` callbacks. They are presentation and thread hand-off.
- Statement execution is not modelled. This covers JDBC connections, `prepareStatement` and `setObject`, `DBUtil.buildTableModel`, `DBConnector` and `logQuery`. The model stops at the `Statement` passed to `performSearch`. Positional binding is captured by `WellBound` and `PositionalBinding`.
- The multi-select dialog's check boxes come from a database lookup and are pre-ticked from the current list. The model takes the boxes, already in their final state, as a parameter of the OK handler.
- The clock and `Calendar` arithmetic are left out: the panel's constructor and the resets take "a week ago" and "today" as parameters. A `Date` is known only by its milliseconds, which is all the `Timestamp` parameter uses.
- `Integer.parseInt` and the input dialog are not modelled: `Prompt` is either a parsed `int` or a failure. `FilterPanel.promptForN` (lines 419-426) is never called and is not part of this model.
- `Filters.FilterPanel.GetCriteria` returns a snapshot of the lists. The Java `FilterCriteria` holds references to the panel's live lists, so a list edited while a search is being built would show through. That needs concurrent UI events and is not modelled.
- The meaning of the report SQL is not modelled. `COUNT`, `AVG`, `TIMESTAMPDIFF`, `LIMIT` and the monthly chart query (`showIncidentsPerMonthChart`, with JFreeChart) are evaluated by the database and the charting library. Templates are modelled only as constant text.
- Long SQL literals are written as concatenations of shorter literals with the same text.

## Findings

| source | as written | input that shows it | evidently intended | confidence | as-written member | corrected member |
|---|---|---|---|---|---|---|
| 385Final/src/FinalJDBC/CrimeIncidentsApp.java:347-356 | `resetFilters` points the four `selectedX` fields at new lists. Each multi-select button's OK handler (lines 364, 390-395) keeps editing the list it captured when it was created, which `getCriteria` no longer reads | press Clear, open the Shift dialog, tick `DAY`, press OK, then Search: the dialog's list is `["DAY"]` but the criteria still hold `["All"]`, so no shift clause is emitted. The same happens for every dimension | Clear restores `["All"]` in the existing lists, so later selections reach the search | high (not executed) | Filters.SelectAfterReset | Filters.SelectAfterResetInPlace |
