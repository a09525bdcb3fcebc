# Inventory dashboard: sales, reports and categories, in Dafny

This project models the logic core of a small React inventory dashboard. The
dashboard keeps products and sales in a hosted database and categories behind
an HTTP API. Three pages are modelled:

- **Sales page.** Recording a sale takes the sold units out of the product's
  stock. Editing a sale moves the difference. Deleting a sale gives the units
  back. A product picker filters the cached products by name or reference
  number. The sales table is paginated.
- **Reports page.** It shows revenue and sale count over a date range, and
  sales grouped by product name with the five best sellers. It also shows the
  revenue of each of the last six months, the month-over-month change in
  percent, and low-stock alerts.
- **Categories page.** It lists categories ten to a page, counted by the
  server. One form both creates and renames a category. A delete failure is
  explained by the server's message when the category still has products.

The files:

- `wrappers.dfy`: the `Option` type.
- `text.dfy`: the string operations the filters use (`trim`, ASCII
  `toLowerCase`, `includes`).
- `seqs.dfy`: `filter` on sequences.
- `pagination.dfy`: the page arithmetic shared by the sales, products and
  categories tables.
- `sales.dfy`: the remote store (products and sales tables), the cached
  product list, and the effect of each sale handler as a function.
- `sales_page.dfy`: the sales page as a class whose handler methods update
  the store and the form state step by step. Each method is tied to the
  effect functions of `sales.dfy`.
- `calendar.dfy`: which month each pass of the monthly revenue loop visits.
- `reports.dfy`: the report figures, the grouping loop, the month loop and
  the reports page class.
- `categories.dfy`: the categories page rules and its class.

Remote calls become store updates, each of which either succeeds or fails.
A write that fails, or a `TypeError`, stops the rest of the handler.
Prices are exact `real`s, and `total_price` is exactly `quantity * unit_price`.
Timestamps are integer milliseconds. The calendar instants (now, the first of
the month and of the year, and the first instant and the `monthEnd` instant of
each month the revenue loop visits) are inputs. Which months the loop visits
is modelled on calendar dates.

The central invariant of the sales model is **holdings**. For every product,
holdings are the stock on hand plus the units held by that product's sales.
Each handler is meant to pair a sale write with the inverse stock write,
which keeps holdings constant.

## Model

| member | source | states |
|---|---|---|
| Text.TrimStart | src/components/SalesPage.jsx:48 | the result is a suffix of the input with no leading ECMAScript white space |
| Text.TrimEnd | src/components/SalesPage.jsx:48 | the result is a prefix of the input with no trailing white space |
| Text.TrimStartRemovesBlanks | src/components/SalesPage.jsx:48 | the prefix `trim` removes from the start is all white space |
| Text.TrimEndRemovesBlanks | src/components/SalesPage.jsx:48 | the suffix `trim` removes from the end is all white space |
| Text.Trim | src/components/SalesPage.jsx:48 | definition of `trim()`: TrimStart then TrimEnd; its properties are Text.TrimEmptyIffBlank, Text.TrimStartRemovesBlanks and Text.TrimEndRemovesBlanks |
| Text.TrimEmptyIffBlank | src/components/SalesPage.jsx:48 | `term.trim() === ''` holds exactly when every character of the term is white space |
| Text.Lower | src/components/SalesPage.jsx:52-53 | `toLowerCase` keeps the length and maps each character on its own, A-Z to a-z |
| Text.Contains | src/components/SalesPage.jsx:52-53 | `includes` is true exactly when the needle occurs at some index of the haystack |
| Seqs.Filter | src/components/SalesPage.jsx:51-54 | `filter` keeps exactly the elements that pass the test, and never lengthens the list |
| Seqs.FilterKeepsOrder | src/components/SalesPage.jsx:51-54 | filtering a concatenation is the concatenation of the filtered parts, so the order is kept |
| Pagination.PageRange | src/components/SalesPage.jsx:94-95 | page p asks for the inclusive row range `(p-1)*perPage` to `(p-1)*perPage + perPage - 1`: exactly perPage rows, none negative (also src/components/ProductsPage.jsx:42-43) |
| Pagination.PageOf | src/components/SalesPage.jsx:94-95 | the page that holds a row offset is at least 1 |
| Pagination.PageRangeHoldsExactlyItsRows | src/components/SalesPage.jsx:94-95 | a row offset lies in the range of page p exactly when PageOf names p |
| Pagination.ConsecutivePagesAreAdjacent | src/components/SalesPage.jsx:94-95 | page p+1 starts right after page p ends: no row is skipped or shown twice |
| Pagination.TotalPages | src/components/CategoriesPage.jsx:99 | `Math.ceil(count / perPage)` is the fewest pages that hold every row |
| Pagination.Prev | src/components/SalesPage.jsx:400 | `max(1, page - 1)` is at least 1, and is page - 1 unless page is 1 or less (also src/components/CategoriesPage.jsx:207, src/components/ProductsPage.jsx:244) |
| Pagination.Next | src/components/SalesPage.jsx:420 | `min(totalPages, page + 1)` never passes the last page, and is page + 1 unless that would pass it (also src/components/CategoriesPage.jsx:227, src/components/ProductsPage.jsx:264) |
| Pagination.PageButtons | src/components/SalesPage.jsx:406 | the numbered buttons are 1 to totalPages, in order |
| Pagination.PageButtonsAreTheValidPages | src/components/CategoriesPage.jsx:213 | a page has a button exactly when it is between 1 and totalPages |
| Pagination.PrevNextStayInRange | src/components/CategoriesPage.jsx:207-208 | from a valid page, prev and next stay valid; prev stays put exactly when it is disabled (page 1), next stays put exactly when it is disabled (last page) (also src/components/CategoriesPage.jsx:227-228) |
| Pagination.EveryRowIsOnANumberedPage | src/components/CategoriesPage.jsx:99 | with pages counted from the total row count, every row's page has a numbered button and its range holds the row |
| Pagination.FetchedPageCountsOnePage | src/components/SalesPage.jsx:257 | counting pages from the rows of one fetched page of at most perPage rows gives at most 1 page, so the pager (shown only for more than one page, src/components/SalesPage.jsx:396) never shows (also src/components/ProductsPage.jsx:134) |
| Sales.InsertSale | src/components/SalesPage.jsx:128-135 | the insert adds the sale row under its id and leaves the products table alone |
| Sales.UpdateSaleRow | src/components/SalesPage.jsx:190-199 | the update rewrites quantity, unit price and total price of the row with that id; with no such row nothing changes |
| Sales.DeleteSaleRow | src/components/SalesPage.jsx:229-234 | the delete removes exactly the row with that id |
| Sales.SetStock | src/components/SalesPage.jsx:141-146 | the stock write changes only the quantity of that product; other products and all sales are untouched |
| Sales.Find | src/components/SalesPage.jsx:182 | `products.find` returns a product exactly when one with the id is cached, and then the first one |
| Sales.SoldOutProductIsNotCached | src/components/SalesPage.jsx:59-73 | the cached list comes from a query with `quantity > 0`, so a product with no stock left is never found in it |
| Sales.FieldMatches | src/components/SalesPage.jsx:53 | definition: an optional reference number matches when it is present, non-empty and its lower-cased text contains the lower-cased term; its properties are Sales.FilterProductsChoosesMatches |
| Sales.Matches | src/components/SalesPage.jsx:52-53 | definition of the filter's test: the lower-cased name contains the lower-cased term, or the reference number matches; its properties are Sales.FilterProductsChoosesMatches |
| Sales.FilterProducts | src/components/SalesPage.jsx:46-57 | definition of the picker list: every product for a blank term, else the matching ones; its properties are Sales.FilterProductsChoosesMatches |
| Sales.FilterProductsChoosesMatches | src/components/SalesPage.jsx:46-57 | a blank or white-space term lists every product; any other term lists exactly the products whose lower-cased name, or non-empty reference number, contains the lower-cased term |
| Sales.SubmitSaleEffect | src/components/SalesPage.jsx:113-160 | definition of handleSubmitSale's effect on the store and the step it stops at; its properties are Sales.SubmitRejectsOverStock, Sales.SubmitWritesSaleThenStock, Sales.SubmitKeepsHoldings and Sales.SubmitHalfDoneOverstatesHoldings |
| Sales.SubmitRejectsOverStock | src/components/SalesPage.jsx:121-124 | create is rejected exactly when the quantity exceeds the picked product's stock, and then nothing is written |
| Sales.SubmitWritesSaleThenStock | src/components/SalesPage.jsx:128-146 | an accepted create inserts the sale with `total_price = quantity * unit_price` and sets the stock to `stock - quantity`, never negative; a failed insert writes no stock |
| Sales.UpdateSaleEffect | src/components/SalesPage.jsx:170-222 | definition of handleUpdateSale's effect on the store and the step it stops at; its properties are Sales.UpdateRejectsOnlyPositiveDeltaOverStock, Sales.UpdateWritesSaleThenStock, Sales.UpdateLookupFailureLeavesStock, Sales.UpdateKeepsHoldings and Sales.EditWithoutProductIdNeverAdjustsStock |
| Sales.UpdateRejectsOnlyPositiveDeltaOverStock | src/components/SalesPage.jsx:179-186 | edit is rejected exactly when `delta = new - old` is positive and above the cached stock; a delta of zero or less always passes |
| Sales.UpdateWritesSaleThenStock | src/components/SalesPage.jsx:190-208 | an accepted edit rewrites the sale's quantity, unit price and total price, and sets the stock to `cached - delta`, never negative |
| Sales.UpdateLookupFailureLeavesStock | src/components/SalesPage.jsx:188-206 | when the product lookup fails, the sale row has already been rewritten and the stock is not touched |
| Sales.DeleteSaleEffect | src/components/SalesPage.jsx:224-255 | definition of handleDeleteSale's effect on the store and the step it stops at; its properties are Sales.DeleteRestoresOnlyCachedProducts, Sales.DeleteKeepsHoldingsWhenCached, Sales.CreateThenDeleteRestoresStore and Sales.SellOutThenDeleteLosesStock |
| Sales.DeleteRestoresOnlyCachedProducts | src/components/SalesPage.jsx:229-246 | delete removes the sale and adds its quantity back only when the product is cached; otherwise the stock stays |
| Sales.SoldPick | src/components/SalesPage.jsx:128-146 | the units sold of a product are one sale's units plus the units of the other sales |
| Sales.SoldInsert | src/components/SalesPage.jsx:128-135 | inserting a new sale adds its units to its product's units sold |
| Sales.SoldRemove | src/components/SalesPage.jsx:229-234 | deleting a sale takes its units off its product's units sold |
| Sales.SoldReplace | src/components/SalesPage.jsx:190-199 | rewriting a sale replaces its old units by its new units in its product's units sold |
| Sales.SubmitKeepsHoldings | src/components/SalesPage.jsx:128-146 | a successful create keeps every product's holdings |
| Sales.SubmitHalfDoneOverstatesHoldings | src/components/SalesPage.jsx:137-146 | a create whose stock write fails keeps the sale, and the product's holdings grow by the sale's units |
| Sales.UpdateKeepsHoldings | src/components/SalesPage.jsx:179-208 | a successful edit that looks up the sale's own product keeps every product's holdings |
| Sales.DeleteKeepsHoldingsWhenCached | src/components/SalesPage.jsx:229-246 | a successful delete whose product is cached keeps every product's holdings |
| Sales.CreateThenDeleteRestoresStore | src/components/SalesPage.jsx:140-146 | creating a sale, refreshing the cached list and deleting that sale gives back the original store, stock included, while the product still has stock (also src/components/SalesPage.jsx:237-246) |
| Sales.SellOutThenDeleteLosesStock | src/components/SalesPage.jsx:237-246 | as written, deleting a sale that took a product's last units leaves the stock at 0, and holdings shrink by the units sold |
| Sales.DeleteSaleFixed | src/components/SalesPage.jsx:224-255 | corrected delete: credits the sale row the store still holds to the product's current row; its properties are Sales.DeleteFixedKeepsHoldings, Sales.CreateThenDeleteFixedRestoresStore and Sales.DeleteFixedIsIdempotent |
| Sales.DeleteFixedKeepsHoldings | src/components/SalesPage.jsx:224-255 | the corrected delete keeps every product's holdings, sold-out products included |
| Sales.CreateThenDeleteFixedRestoresStore | src/components/SalesPage.jsx:224-255 | with the corrected delete, create then delete always gives back the original store |
| Sales.StaleDeleteTwiceRestoresOnce | src/components/SalesPage.jsx:237-246 | as written, a second delete of the same listed sale against the same cached product list removes nothing more and writes the same stock again: the units come back once |
| Sales.DeleteAgainAfterProductsRefetchRestoresTwice | src/components/SalesPage.jsx:237-249 | as written, when the products refetch lands before the second delete of the same listed sale, the second delete credits the refreshed stock again: the stock ends `2 * quantity` above where it started and the product's holdings grow by the sale's quantity |
| Sales.DeleteFixedIsIdempotent | src/components/SalesPage.jsx:224-255 | a second corrected delete of the same sale changes nothing |
| Sales.EditWithoutProductIdNeverAdjustsStock | src/components/SalesPage.jsx:162-168 | as written, the edit form's product is the joined record without an id: a larger quantity crashes before any write, and a smaller one rewrites the sale but leaves the stock, so holdings shrink (also src/components/SalesPage.jsx:182, 202) |
| Sales.UpdateSaleFixed | src/components/SalesPage.jsx:170-222 | corrected edit: checks and adjusts the stock of the sale's own product; its properties are Sales.UpdateFixedKeepsHoldings |
| Sales.UpdateFixedKeepsHoldings | src/components/SalesPage.jsx:170-222 | the corrected edit, using the sale's own product id, keeps every product's holdings and never makes a stock negative |
| SalesPage.SalesPage.constructor | src/components/SalesPage.jsx:6-21 | the page starts on page 1 with empty lists, closed forms, empty fields and no notification |
| SalesPage.SalesPage.TotalPages | src/components/SalesPage.jsx:257 | the page count is at most 1 and the pager never shows (src/components/SalesPage.jsx:396) |
| SalesPage.SalesPage.Notify | src/components/SalesPage.jsx:40-44 | the notification shows with the given kind and message |
| SalesPage.SalesPage.FetchProducts | src/components/SalesPage.jsx:59-77 | a successful query replaces the cached list; a failed one leaves it |
| SalesPage.SalesPage.FetchSales | src/components/SalesPage.jsx:79-105 | a successful query of one page replaces the listed sales; a failed one leaves them |
| SalesPage.SalesPage.OpenAddModal | src/components/SalesPage.jsx:264 | the add form opens |
| SalesPage.SalesPage.SetProductSearchTerm | src/components/SalesPage.jsx:463 | the picker's search term is set |
| SalesPage.SalesPage.SetFields | src/components/SalesPage.jsx:557 | the quantity and price fields are set (also src/components/SalesPage.jsx:572) |
| SalesPage.SalesPage.FilteredProducts | src/components/SalesPage.jsx:46-57 | the picker lists only cached products (which ones is Sales.FilterProductsChoosesMatches) |
| SalesPage.SalesPage.SelectProduct | src/components/SalesPage.jsx:107-111 | picking a cached product selects it as picked from the list, prefills its price and a quantity of 1 |
| SalesPage.SalesPage.CloseAddModal | src/components/SalesPage.jsx:437-443 | closing the add form clears the selection, fields and picker search and changes nothing else |
| SalesPage.SalesPage.SubmitSale | src/components/SalesPage.jsx:113-160 | the store ends as the create effect says; success closes and clears the form with the success notice; a failed write shows the error notice and keeps the form |
| SalesPage.SalesPage.WriteSubmit | src/components/SalesPage.jsx:115-146 | the reads and writes of the create, in order, end as the create effect says |
| SalesPage.SalesPage.EditSale | src/components/SalesPage.jsx:162-168 | the edit form opens on the sale, with its quantity and unit price and its joined product record, which has no id |
| SalesPage.SalesPage.CloseEditModal | src/components/SalesPage.jsx:629-635 | closing the edit form forgets the sale, the selection and the fields |
| SalesPage.SalesPage.UpdateSale | src/components/SalesPage.jsx:170-222 | the store ends as the edit effect says, looked up in the cached list by the picked record's id; success closes and clears the form; an error inside the `try` shows the error notice |
| SalesPage.SalesPage.WriteUpdate | src/components/SalesPage.jsx:173-208 | the reads and writes of the edit, in order, end as the edit effect says |
| SalesPage.SalesPage.DeleteSale | src/components/SalesPage.jsx:224-255 | the store ends as the delete effect says; the notice tells success or failure; the forms are untouched |
| SalesPage.SalesPage.WriteDelete | src/components/SalesPage.jsx:226-246 | the reads and writes of the delete, in order, end as the delete effect says |
| Reports.Revenue | src/components/ReportsPage.jsx:50 | the revenue sum treats a missing total price as 0, and is non-negative when no price is negative |
| Reports.RevenueOfConcat | src/components/ReportsPage.jsx:50 | revenue is additive over concatenation, so the fold's order does not matter |
| Reports.StartDate | src/components/ReportsPage.jsx:34-46 | definition of `startDate`: seven days before now, the first of this month, or the first of this year; Reports.ReportsPage.FetchReports filters by it |
| Reports.InRange | src/components/ReportsPage.jsx:32-48 | definition of `filteredSales`; its properties are Reports.InRangeKeepsExactlyTheRange |
| Reports.InRangeKeepsExactlyTheRange | src/components/ReportsPage.jsx:32-48 | range `all` keeps every sale; any other range keeps exactly the sales created at or after the start date; its revenue is at most the total; a failed query gives no sales |
| Reports.GroupName | src/components/ReportsPage.jsx:78 | definition: the product's name, or the deleted-product label when it is missing or empty; Reports.NamesAreTheGroups groups by it |
| Reports.Names | src/components/ReportsPage.jsx:76-86 | definition of the keys of `productSales` in insertion order; its properties are Reports.NamesAreTheGroups and Reports.NamesAreDistinct |
| Reports.QuantityOf | src/components/ReportsPage.jsx:82 | definition of a group's summed quantity; its properties are Reports.AbsentGroupIsEmpty and Reports.GroupsAccountForEverySale |
| Reports.RevenueOf | src/components/ReportsPage.jsx:83 | definition of a group's summed revenue; its properties are Reports.AbsentGroupIsEmpty and Reports.GroupsAccountForEverySale |
| Reports.NamesAreTheGroups | src/components/ReportsPage.jsx:76-84 | a group exists exactly for the names some sale is grouped under, a missing or empty product name giving the deleted-product label |
| Reports.NamesAreDistinct | src/components/ReportsPage.jsx:76-84 | one entry per product name: no name is listed twice |
| Reports.AbsentGroupIsEmpty | src/components/ReportsPage.jsx:79-81 | a name no sale is grouped under has quantity 0 and revenue 0 |
| Reports.GroupByProduct | src/components/ReportsPage.jsx:76-84 | the loop builds one group per name in first-sale order, each holding the summed quantity and the summed total price of its sales |
| Reports.Entries | src/components/ReportsPage.jsx:86-87 | definition of `Object.entries(productSales).map(...)`; its properties are Reports.EntriesForListsTheGroups and Reports.GroupByProduct |
| Reports.EntriesFor | src/components/ReportsPage.jsx:86-87 | there is one entry per listed name |
| Reports.EntriesForListsTheGroups | src/components/ReportsPage.jsx:86-87 | entry k lists name k with its group's quantity and revenue, in the given order |
| Reports.SumsAfterOneMoreSale | src/components/ReportsPage.jsx:82-83 | one more sale adds its quantity and price to the sums over the groups exactly when its group is listed |
| Reports.SumsOverOneMoreName | src/components/ReportsPage.jsx:86-87 | listing one more name adds that name's group's quantity and revenue to the sums |
| Reports.NewGroupSums | src/components/ReportsPage.jsx:79-83 | a sale under a name not seen before opens a group holding exactly its quantity and price |
| Reports.OneMoreSaleKeepsQuantities | src/components/ReportsPage.jsx:76-84 | one more sale keeps the groups' quantities adding up to the quantity of all sales |
| Reports.OneMoreSaleKeepsRevenues | src/components/ReportsPage.jsx:76-84 | one more sale keeps the groups' revenues adding up to the revenue of all sales |
| Reports.GroupsAccountForEverySale | src/components/ReportsPage.jsx:76-84 | the groups' quantities add up to the quantity of all sales, and their revenues to the revenue of all sales |
| Reports.InsertByQuantity | src/components/ReportsPage.jsx:88 | inserting an entry makes the list one longer and adds exactly that entry to its members |
| Reports.InsertIsPermutation | src/components/ReportsPage.jsx:88 | inserting an entry adds exactly one copy of it and keeps every other entry |
| Reports.SortedUnderHead | src/components/ReportsPage.jsx:88 | an entry that sold at least as much as every entry of a sorted list can head it |
| Reports.InsertKeepsSorted | src/components/ReportsPage.jsx:88 | inserting an entry into a list sorted by descending quantity keeps it sorted |
| Reports.SortByQuantity | src/components/ReportsPage.jsx:88 | the sort by descending quantity is a permutation and is non-increasing in quantity |
| Reports.TopSelling | src/components/ReportsPage.jsx:86-89 | definition: sort by descending quantity, keep the first five; its properties are Reports.TopSellingIsSortedPrefix and Reports.NoLeftOutGroupSoldMore |
| Reports.TopSellingIsSortedPrefix | src/components/ReportsPage.jsx:86-89 | the top list has min(5, n) entries, is a prefix of the sorted groups, is non-increasing in quantity and holds only groups |
| Reports.NoLeftOutGroupSoldMore | src/components/ReportsPage.jsx:86-89 | no group left out of the top list sold more than any group in it |
| Reports.WindowRevenue | src/components/ReportsPage.jsx:114-119 | definition of a month's revenue, both bounds inclusive; its properties are Reports.WindowRevenueIsRevenueOfFilter, Reports.AdjacentWindowsAdd and Reports.WindowRevenueOfOne |
| Reports.WindowRevenueIsRevenueOfFilter | src/components/ReportsPage.jsx:114-119 | a month's revenue is the revenue reduce over the sales the window filter keeps |
| Reports.AdjacentWindowsAdd | src/components/ReportsPage.jsx:114-119 | two adjacent time windows hold together what the window spanning both holds |
| Calendar.MakeDate | src/components/ReportsPage.jsx:110 | the date `setMonth` gives is a valid date; it lies in the target month exactly when it keeps the day, otherwise in the month after, and a day up to the 28th never rolls over |
| Calendar.SetMonthBack | src/components/ReportsPage.jsx:109-110 | definition of pass i's date, `setMonth(getMonth() - i)` on today; its properties are Calendar.MakeDate and the Calendar lemmas below |
| Calendar.VisitedMonths | src/components/ReportsPage.jsx:108-110 | the six passes each visit one month |
| Calendar.EarlyInTheMonthVisitsTheLastSixMonths | src/components/ReportsPage.jsx:108-110 | run on a day up to the 28th, pass k visits the month 5 - k months back: the last six months, each once, oldest first |
| Calendar.EndOfJulyRepeatsMonths | src/components/ReportsPage.jsx:108-110 | as written, run on July 31, 2025 the passes visit March, March, May, May, July, July |
| Calendar.VisitedMonthsFixed | src/components/ReportsPage.jsx:108-110 | the corrected passes, moving back from the 1st, each visit one month |
| Calendar.FixedVisitsTheLastSixMonths | src/components/ReportsPage.jsx:108-110 | the corrected passes visit the last six months on any day: consecutive, strictly increasing, ending with the current month |
| Reports.MonthsOf | src/components/ReportsPage.jsx:108-122 | the monthly list has exactly 6 entries, one per pass |
| Reports.MonthlyRevenue | src/components/ReportsPage.jsx:108-122 | the loop from 5 down to 0 gives 6 entries, oldest first; entry k holds pass k's `monthStart` and the revenue of the sales between that pass's `monthStart` and `monthEnd`, both inclusive |
| Reports.StartBounds | src/components/ReportsPage.jsx:111-112 | six consecutive months, given by their first instants, each ending a fixed gap before the next begins, give six pairs of bounds |
| Reports.Months | src/components/ReportsPage.jsx:108-122 | the monthly list of six consecutive months has exactly 6 entries |
| Reports.RegularMonthsEndADayBeforeTheNext | src/components/ReportsPage.jsx:111-116 | on a regular calendar (six consecutive months, 24-hour last days) month k counts the sales from its first instant to midnight at the start of its last day, one day before month k + 1 begins, and the months are listed oldest first |
| Reports.StartsIncrease | src/components/ReportsPage.jsx:108-111 | later months start later |
| Reports.LastDaySaleIsInNoMonth | src/components/ReportsPage.jsx:112-116 | a sale made during the last day of one of the six months lies in none of the six windows, since each window ends at midnight at the start of its last day |
| Reports.WindowRevenueOfOne | src/components/ReportsPage.jsx:114-119 | a single sale's window revenue is its price when it lies in the window and 0 otherwise |
| Reports.SumOfEmptyMonths | src/components/ReportsPage.jsx:119 | months that each earned nothing sum to nothing |
| Reports.LastDaySaleAddsToNoMonth | src/components/ReportsPage.jsx:112-119 | a sale made during the last day of a month adds nothing to any month |
| Reports.MonthlyRevenueMissesLastDay | src/components/ReportsPage.jsx:112-119 | as written, one sale made during a month's last day: all six months report 0 although the sale falls inside the six months |
| Reports.MonthsAreTheWindows | src/components/ReportsPage.jsx:107-124 | with each month ending just before the next begins, the first n months add up to the sum of their n windows |
| Reports.WindowsSumSpans | src/components/ReportsPage.jsx:107-124 | n consecutive month windows add up to the window from the first month's start to month n's start |
| Reports.SixMonthsCoverTheWindow | src/components/ReportsPage.jsx:107-124 | with each month ending just before the next begins, the six months add up to the revenue of the whole six-month span: every sale counted once |
| Reports.RevenueChange | src/components/ReportsPage.jsx:150-156 | definition of `getRevenueChange`; its properties are Reports.RevenueChangeIsGrowthInPercent |
| Reports.RevenueChangeIsGrowthInPercent | src/components/ReportsPage.jsx:150-156 | the change is 0 with fewer than two months and 100 when last month earned nothing; otherwise it is the growth in percent, so last month's revenue plus that percentage gives this month's; with a positive last month the change is positive or zero exactly when revenue grew or stayed |
| Reports.LowStock | src/components/ReportsPage.jsx:59-62 | definition of the `.lt('quantity', 10)` query; its properties are Reports.StockAlertsAreTheLowStockProducts |
| Reports.StockAlerts | src/components/ReportsPage.jsx:127-131 | definition of `stockAlerts`; its properties are Reports.StockAlertsAreTheLowStockProducts |
| Reports.StockAlertsAreTheLowStockProducts | src/components/ReportsPage.jsx:59-62 | there is one alert per product below 10 units, in the order of the low-stock rows, with its name, quantity and reference; every alert comes from such a product and the list is never longer than the products (also src/components/ReportsPage.jsx:127-131) |
| Reports.ReportsPage.constructor | src/components/ReportsPage.jsx:6-17 | the page starts with zero figures, empty lists and range `all` |
| Reports.ReportsPage.SetDateRange | src/components/ReportsPage.jsx:17 | the range is set |
| Reports.ReportsPage.Change | src/components/ReportsPage.jsx:158 | definition: `revenueChange` is Reports.RevenueChange of the shown months |
| Reports.ReportsPage.FetchReports | src/components/ReportsPage.jsx:23-142 | the figures are the revenue and count of the sales in range, the product count (0 if missing), the low-stock count, the top five groups of all sales, the ten newest sales, the six months of all sales, and the stock alerts |
| Categories.TotalPagesOf | src/components/CategoriesPage.jsx:24-25 | definition of `Math.ceil((totalCount || 0) / 10)` (also src/components/CategoriesPage.jsx:99); its properties are Categories.CategoryPagesHoldEveryCategory |
| Categories.CategoryPagesHoldEveryCategory | src/components/CategoriesPage.jsx:24-25 | the page count is the fewest pages of ten that hold every category, 0 with no data, and the pager shows exactly when there are more than ten categories (also src/components/CategoriesPage.jsx:99, 203) |
| Categories.DeleteSuccessMessage | src/components/CategoriesPage.jsx:72 | a successful delete shows the server's message when it is non-empty, else the default text; never an empty text |
| Categories.DeleteErrorMessage | src/components/CategoriesPage.jsx:76-80 | definition of the failed-delete text; its properties are Categories.DeleteErrorShowsServerMessageIffLinked |
| Categories.DeleteErrorShowsServerMessageIffLinked | src/components/CategoriesPage.jsx:76-80 | a failed delete shows the server's message exactly when it contains the "linked to products" phrase, and the generic text otherwise |
| Categories.SubmitRequest | src/components/CategoriesPage.jsx:51-57 | submit sends an update, with the edited category's id, exactly when a category is being edited, else a create; both carry the form's name |
| Categories.CategoriesPage.constructor | src/components/CategoriesPage.jsx:7-30 | the page starts on page 1 with an empty search, a closed form, nothing edited and an empty name |
| Categories.CategoriesPage.Load | src/components/CategoriesPage.jsx:24-25 | the list is the answer's rows or empty, and the count is the answer's count or 0 |
| Categories.CategoriesPage.TotalPages | src/components/CategoriesPage.jsx:99 | the page count is never negative |
| Categories.CategoriesPage.Notify | src/components/CategoriesPage.jsx:42-46 | the notification shows with the given kind and message |
| Categories.CategoriesPage.SetSearchTerm | src/components/CategoriesPage.jsx:122 | the search term is set and the page number kept |
| Categories.CategoriesPage.OpenAddModal | src/components/CategoriesPage.jsx:106 | the form opens |
| Categories.CategoriesPage.SetName | src/components/CategoriesPage.jsx:266 | the form's name is set |
| Categories.CategoriesPage.ResetForm | src/components/CategoriesPage.jsx:93-97 | the form's name becomes empty |
| Categories.CategoriesPage.HandleEdit | src/components/CategoriesPage.jsx:85-91 | editing remembers the category, copies its name into the form and opens the form |
| Categories.CategoriesPage.CloseModal | src/components/CategoriesPage.jsx:246-250 | closing the form forgets the edited category and clears the name (also src/components/CategoriesPage.jsx:281-285) |
| Categories.CategoriesPage.HandleSubmit | src/components/CategoriesPage.jsx:48-66 | the request is update-or-create as SubmitRequest says; success notifies, closes the form, forgets the edited category and clears the name; failure leaves form, editing and name and shows the error text |
| Categories.CategoriesPage.HandleDelete | src/components/CategoriesPage.jsx:68-83 | unconfirmed, nothing changes; a success shows DeleteSuccessMessage, a failure shows DeleteErrorMessage |
| Categories.CategoriesPage.GoPrevious | src/components/CategoriesPage.jsx:207 | the page becomes `max(1, page - 1)` |
| Categories.CategoriesPage.GoNext | src/components/CategoriesPage.jsx:227 | while the pager shows, the page becomes `min(totalPages, page + 1)` |
| Categories.CategoriesPage.GoTo | src/components/CategoriesPage.jsx:213-216 | a numbered button sets the page to its number |

## Left out

- Network and persistence. The Supabase queries and the category API hooks
  (`src/hooks/useLaravelApi.js`, React Query caching and invalidation) are
  reduced to table updates that succeed or fail, and to query answers given
  as inputs.
- The refetches a handler starts after it succeeds. These are fire-and-forget
  and are modelled as separate `FetchProducts` and `FetchSales` calls.
- Concurrency between browser sessions. The model is one sequential client.
  The race in which two clients both pass the stock check is not modelled.
- Rendering, icons, loading flags, the `alert` dialog text, and the
  notification's 3-second auto-hide timer.
- Calendar arithmetic in milliseconds. `startDate`, the first of the month
  and of the year, and each pass's `monthStart` and `monthEnd` instants are
  inputs, since they depend on the time zone. Which month each pass visits is
  modelled on dates. The month labels (`toLocaleDateString`) are not modelled.
- Reports.MonthlyRevenue: the loop's instants are inputs, so a 23- or 25-hour
  last day (daylight saving time) is covered by the loop but not by the
  last-day lemmas. Those lemmas, and the corrected coverage lemma, assume a
  regular calendar: six consecutive months (`MonthStarts`) whose last day is
  24 hours long (`StartBounds` with a one-day gap).
- Reports.GroupByProduct: every product name is a fresh key. In the source,
  `productSales` is a plain object, so a name such as `constructor`,
  `toString` or `__proto__` finds an inherited value at
  src/components/ReportsPage.jsx:79. That group is never initialised, its
  sums become NaN, and `Object.entries` at line 86 omits it.
- `parseInt`/`parseFloat` on form strings, NaN, and IEEE rounding of prices.
  An empty field is `None` and a filled one a number.
- Unicode case mapping beyond ASCII in `toLowerCase`. Arabic letters have no
  case, and only A-Z are mapped.
- The server-side parts of the queries: the `ilike` search that narrows the
  cached product list, the ordering by name, the newest-first ordering of the
  ten recent sales, the newest-first ordering of the sales table
  (src/components/SalesPage.jsx:92), which decides which sales a page's row
  range selects, and the categories search. `IsProductsAnswer` states only
  that every cached row is current and in stock.
- `Object.entries` lists integer-like keys first, in ascending order. The
  model keeps insertion order for every name.
- Reports.SortByQuantity: the definition is a stable sort, as
  `Array.prototype.sort` is, but no lemma states the stability.
- Reports.ReportsPage.FetchReports: the `try`/`catch` that would keep the old
  figures after an exception is not modelled, because nothing in the model
  throws.
- The rest of `src/components/ProductsPage.jsx` (its CRUD calls and random
  placeholder barcode). Its page arithmetic is the shared `Pagination` model.
- The home page, authentication, navigation and the welcome page.

## Findings

| source | as written | input that shows it | evidently intended | confidence | as-written member | corrected member |
|---|---|---|---|---|---|---|
| src/components/SalesPage.jsx:237-246 | delete gives the units back only to a product found in the cached list, which holds only products with stock (line 64) | sell all 5 units of a product, let the list refresh, delete the sale: the stock stays 0 | give the sale's units back to the product's current row, whatever its stock | high, not executed | Sales.SellOutThenDeleteLosesStock | Sales.DeleteFixedKeepsHoldings |
| src/components/SalesPage.jsx:162-168 | the edit form's product is the sale's joined record (name, reference number, image), which has no id, so `products.find(p => p.id === selectedProduct.id)` at line 182 never matches | edit any sale to a larger quantity: `TypeError`, nothing saved; to a smaller quantity: sale saved, stock never credited, error shown | look the product up by `editingSale.product_id` and adjust its stock by the difference | high, not executed | Sales.EditWithoutProductIdNeverAdjustsStock | Sales.UpdateFixedKeepsHoldings |
| src/components/SalesPage.jsx:257 | the page count is computed from the rows of the one page fetched (at most 8), so it is at most 1 and the pager never shows; the same holds at src/components/ProductsPage.jsx:134 | 20 sales: page 1 shows 8 rows, `totalPages` is 1, rows 9-20 are unreachable | count pages from the table's total row count, as the categories page does | high, not executed | Pagination.FetchedPageCountsOnePage | Pagination.EveryRowIsOnANumberedPage |
| src/components/ReportsPage.jsx:112-116 | each month's window ends at `new Date(y, m + 1, 0)`, midnight at the start of the month's last day, and is tested with `<=` | a sale at 15:00 on January 31: counted in no month | end each month just before the next month begins | high, not executed | Reports.MonthlyRevenueMissesLastDay | Reports.SixMonthsCoverTheWindow |
| src/components/SalesPage.jsx:237-249 | the stock write runs even when the sale row was already deleted | confirm a delete twice on the same row, with the products refetch (line 248) landing before the sales refetch (line 249): the units come back twice | give units back only for a sale row that still existed | medium, not executed | Sales.DeleteAgainAfterProductsRefetchRestoresTwice | Sales.DeleteFixedIsIdempotent |
| src/components/ReportsPage.jsx:109-112 | each pass moves today's date back with `setMonth`, which keeps the day of the month, so a day the target month lacks rolls over into the next month | run on July 31, 2025: the passes visit March, March, May, May, July, July | move back from the 1st of the month | high, not executed | Calendar.EndOfJulyRepeatsMonths | Calendar.FixedVisitsTheLastSixMonths |
