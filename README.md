# Credit-card points calculator: a Dafny model

The calculator pages let a visitor:
- pick an Indian credit card from a paged, searchable list;
- pick a redemption category (airlines, hotels, cash) and a reward program;
- type a points balance and see what it is worth in rupees.

The cards, the programs and the per-card conversion rates come from a Google spreadsheet. It has one tab per category:
- row 0 holds bank names and row 1 card names, from column 2 on;
- every later row is a program, with its name, its point name and one rate cell per card column.

This project models the logic behind those pages.

**Grid normaliser.** It turns a tab into cards and programs with sparse per-card rate maps (`GridNormalizer`). The repository has it twice:
- in the browser data layer (`GoogleSheets.ProcessSheetData`);
- in the WordPress theme (`WordPressFunctions.ProcessSheetData`).

The two copies run the same loops and differ only in how they trim, what they count as blank, how they read a rate cell and how they build a card id. Those four choices are a `Dialect`, so the algorithm and its properties are stated once. The differences are proved as lemmas:
- the browser keeps zero and negative rates, the server drops them;
- a header cell `"0"` is blank to PHP but names a card in JavaScript;
- `"a & b"` becomes `a_b` in one slug function and `a__b` in the other.

**Rate repositories.** These are the classes `GoogleSheets.SheetsApi` and `SecureProxy.SecureCalculatorProxy`:
- a five-minute cache of tabs keyed `sheet_<name>`;
- the merge of the three tabs' cards into one list, where the first card with a given lower-cased bank and name wins (`CardMerge`);
- the category-to-tab mapping and the bank-to-program table;
- the rate lookup, which reports an absent rate as none and never as zero.

The proxy's reply is modelled by the grid the server read: the server replies with its own normalisation of that grid, so every rate the proxy serves from a reply is positive. The two classes behave differently on failure. `SheetsApi` answers with empty data. The proxy answers with three built-in cards and one built-in program. `getCategorySheetName` is the same in both files (credit-card-calculators/shared/sheets-api.jsx:274-281 and wordpress-upload/credit-card-calculators/js/secure-proxy.js:175-182). Both use `GoogleSheets.CategorySheetName`.

**Redemption calculator.** `PointsCalculator` holds:
- the fixed redemption table;
- `calculateConversions`, which returns an error for an unknown program;
- the choice of the best and the worst option, where ties go to the first.

**Front-ends.** The main page `App` and the hotels, cash and airlines pages share one state and one set of rules (`CalculatorApp.Calculator`). They differ only in where the category comes from. The model covers:
- the paging rules (`Pagination`): twelve cards a page, the page slice, the "Showing a-b of n" text, and the page buttons with ellipses;
- the previous/next guards;
- the case-insensitive search;
- the filter that keeps only the programs giving the selected card a positive rate;
- the rule that turns a points entry into `₹0.00`, `N/A` or points × rate.

The network and the clock are parameters. Every fetch takes the answer the server would give (`SheetResponse` or `ProxyResponse`) and the time of the call (`now`, in milliseconds). The stateful parts are classes whose methods are proved equal to pure functions of the old state and the inputs (`Fetch`, `ProxyFetch`, `FetchAll`, `Merged`, `Normalized`, `KeepRated`, `PageWindow`). The properties are proved about those functions.

Shared vocabulary lives in these modules:
- `Text`: trimming, ASCII lower-casing and character removal;
- `Numbers`: decimal digits and the number prefix that `parseFloat` and `floatval` read;
- `Slug`: the slug steps;
- `Sheet`: the normalised data and the rate lookup;
- `Wrappers`: `Option` and `Result`.

## Model

| member | source | states |
|---|---|---|
| GridNormalizer.Normalize | credit-card-calculators/shared/sheets-api.jsx:63-150 | The normaliser's loops give exactly `Normalized(grid, dialect)`; a grid of fewer than three rows gives no cards and no programs |
| GridNormalizer.CollectCards | credit-card-calculators/shared/sheets-api.jsx:81-96 | The header loop over columns 2 .. max(row 0, row 1) - 1 yields the cards of `CardsUpTo` |
| GridNormalizer.CollectPrograms | credit-card-calculators/shared/sheets-api.jsx:101-145 | The body loop over rows 2 .. end yields the programs of `ProgramsUpTo` |
| GridNormalizer.FillValues | credit-card-calculators/shared/sheets-api.jsx:117-140 | The per-card loop fills a program's rate map as `ValuesFor`; a later card with the same id overwrites |
| GridNormalizer.CardsUpToFaithful | credit-card-calculators/shared/sheets-api.jsx:81-93 | Every card comes from its own column c with 2 <= c < width and carries that column's trimmed bank, trimmed name and id; columns strictly ascend; a column has a card iff its trimmed bank or name is not blank |
| GridNormalizer.CardsUpToSound | credit-card-calculators/shared/sheets-api.jsx:81-93 | Soundness half: each card is the card of its column, in ascending column order |
| GridNormalizer.CardsUpToComplete | credit-card-calculators/shared/sheets-api.jsx:81-93 | Completeness half: every non-blank column has a card |
| GridNormalizer.ProgramsUpToFaithful | credit-card-calculators/shared/sheets-api.jsx:101-113 | Programs correspond one to one, in ascending row order, to exactly the rows r >= 2 whose trimmed name is not blank; each is the program of its row (id `program_r`, point name falling back to the name) |
| GridNormalizer.ProgramsMatchRowsSkip | credit-card-calculators/shared/sheets-api.jsx:108 | A row with a blank name adds no program and keeps the correspondence |
| GridNormalizer.ProgramsMatchRowsSnoc | credit-card-calculators/shared/sheets-api.jsx:108-143 | A named row appends its program and keeps the correspondence |
| GridNormalizer.ValuesForKeys | credit-card-calculators/shared/sheets-api.jsx:117-140 | A rate map has a key exactly for the ids of cards whose cell in the row yields a rate |
| GridNormalizer.ValuesForLast | credit-card-calculators/shared/sheets-api.jsx:117-140 | A stored rate is the one read from the last card with that id that has a rate in the row |
| GridNormalizer.LastRatedExtends | credit-card-calculators/shared/sheets-api.jsx:117-140 | A card without a rate for id k leaves the last rated card for k unchanged |
| GridNormalizer.ProgramIdInjective | credit-card-calculators/shared/sheets-api.jsx:110 | Different rows get different program ids |
| GridNormalizer.ProgramIdsDistinct | credit-card-calculators/shared/sheets-api.jsx:101-113 | No two programs of a tab share an id |
| GridNormalizer.ValuesKeysAreCardIds | credit-card-calculators/shared/sheets-api.jsx:117-140 | Every key of every rate map is the id of a card of the same tab |
| GridNormalizer.NormalizedLookup | credit-card-calculators/shared/sheets-api.jsx:101-140 | After normalising, the rate of card id k in the program of row r exists iff the row's name is not blank and some card with id k has a rate cell there; it is the rate read from the last such card's cell |
| GridNormalizer.NamedRowLookup | credit-card-calculators/shared/sheets-api.jsx:255-258 | With distinct program ids, the lookup of a named row's program reads that program's own rate map |
| GridNormalizer.UnnamedRowLookup | credit-card-calculators/shared/sheets-api.jsx:108 | A row with a blank name has no program, so every lookup of its id gives none |
| Sheet.FindProgram | credit-card-calculators/shared/sheets-api.jsx:255 | `find` returns the first program with the id, or none when no program has it |
| Sheet.LookupRate | credit-card-calculators/shared/sheets-api.jsx:251-269 | A rate exists iff the first program with the id has an own entry for the card, and the rate is that entry; an absent rate is never 0 |
| Sheet.LookupRateOfUnique | credit-card-calculators/shared/sheets-api.jsx:255-258 | For a program whose id is unique, the lookup is its own entry for the card or none |
| GoogleSheets.JsClean | credit-card-calculators/shared/sheets-api.jsx:126 | Cleaning keeps exactly the characters outside `₹`, `$`, `,` and white space |
| GoogleSheets.BlankCellCleansToEmpty | credit-card-calculators/shared/sheets-api.jsx:121-126 | A cell that is blank after trimming has nothing left after cleaning |
| GoogleSheets.ParseFloatOfCleaned | credit-card-calculators/shared/sheets-api.jsx:128 | On a cleaned string, `parseFloat` reads the number prefix with no leading white space to skip |
| GoogleSheets.CellRate | credit-card-calculators/shared/sheets-api.jsx:117-132 | A cell's rate is the number prefix of the cell with currency signs, commas and white space removed, and exists iff that cleaned text starts with a number: the blank test and the trim change nothing |
| GoogleSheets.CellRateOfGroupedPrice | credit-card-calculators/shared/sheets-api.jsx:117-132 | A padded, comma-grouped price ` ₹<digits>,<digits>.<digits> ` stores the decimal its digits write: padding, rupee sign and separator are ignored and the fraction is kept |
| GoogleSheets.CleanOfPrice | credit-card-calculators/shared/sheets-api.jsx:126 | A leading `₹` or `$` is removed and the digits kept |
| GoogleSheets.CellRateOfPrice | credit-card-calculators/shared/sheets-api.jsx:117-140 | A cell `₹n` or `$n` stores the rate n |
| GoogleSheets.CleanOfNegative | credit-card-calculators/shared/sheets-api.jsx:126 | Cleaning keeps the minus sign of a negative number |
| GoogleSheets.CellRateKeepsNonPositive | credit-card-calculators/shared/sheets-api.jsx:128-132 | The browser copy stores a zero or negative rate as it is |
| GoogleSheets.NormalizeText | credit-card-calculators/shared/sheets-api.jsx:157-163 | The slug has only `[a-z0-9_]`, no double underscore and no edge underscore |
| GoogleSheets.NormalizeTextOfCleanSlug | credit-card-calculators/shared/sheets-api.jsx:157-163 | A clean slug is its own slug |
| GoogleSheets.NormalizeTextIdempotent | credit-card-calculators/shared/sheets-api.jsx:157-163 | Normalising twice is normalising once |
| GoogleSheets.CreateCardId | credit-card-calculators/shared/sheets-api.jsx:155-169 | A card id has only slug characters and contains the joining underscore |
| GoogleSheets.CreateCardIdCanonical | credit-card-calculators/shared/sheets-api.jsx:155-169 | The id of already normalised names is the id of the names |
| GoogleSheets.CreateCardIdIgnoresCase | credit-card-calculators/shared/sheets-api.jsx:155-169 | Names that differ only in ASCII case get the same id |
| GoogleSheets.ProcessSheetData | credit-card-calculators/shared/sheets-api.jsx:63-150 | The browser normaliser gives `Normalized` with the JavaScript rules; every card id is a slug and program ids are distinct |
| GoogleSheets.CardIdsAreSlugs | credit-card-calculators/shared/sheets-api.jsx:87-89 | Every card id the browser copy emits has only slug characters |
| GoogleSheets.CategorySheetName | credit-card-calculators/shared/sheets-api.jsx:274-281 | `hotels` maps to Hotels, `cash` to Cash, any other category to Airlines |
| GoogleSheets.InferProgramFromBank | credit-card-calculators/shared/sheets-api.jsx:283-296 | The lower-cased bank name is looked up in the table; an unknown bank gives `other` |
| GoogleSheets.InferProgramIgnoresCase | credit-card-calculators/shared/sheets-api.jsx:283-296 | The inferred program does not depend on the case of the bank name |
| GoogleSheets.FetchIsCachedForFiveMinutes | credit-card-calculators/shared/sheets-api.jsx:17-58 | After a successful fetch, any request for the same tab within five minutes returns the same data and leaves the cache alone, whatever the network would answer |
| GoogleSheets.FetchExpires | credit-card-calculators/shared/sheets-api.jsx:18-24 | An entry five minutes old or older is not served: the result is as if the cache were empty |
| GoogleSheets.FetchFailureIsNotCached | credit-card-calculators/shared/sheets-api.jsx:33-38 | An error answer or a failed request gives empty data and leaves the cache unchanged, so the next request asks again |
| GoogleSheets.FetchKeepsOtherTabs | credit-card-calculators/shared/sheets-api.jsx:46-49 | A fetch changes only its own tab's cache entry |
| GoogleSheets.SheetsApi.constructor | credit-card-calculators/shared/sheets-api.jsx:6-12 | A new repository starts with an empty cache |
| GoogleSheets.Fetch | credit-card-calculators/shared/sheets-api.jsx:17-58 | Only the tab's own cache entry may change; a fresh entry is returned with the cache untouched; after the call the entry is fresh iff it was fresh before or the API answered, a fresh entry is what is returned, a new entry is the normalised answer stamped with the time of the call, and otherwise the result is empty data with the cache unchanged |
| GoogleSheets.SheetsApi.FetchSheetData | credit-card-calculators/shared/sheets-api.jsx:17-58 | The data returned and the new cache are `Fetch` of the old cache, the tab, the time and the answer |
| GoogleSheets.SheetsApi.GetAllData | credit-card-calculators/shared/sheets-api.jsx:174-196 | The three tabs are fetched in the order Airlines, Hotels, Cash, each through the cache |
| GoogleSheets.SheetsApi.GetAllCreditCards | credit-card-calculators/shared/sheets-api.jsx:201-228 | The cards are the first-occurrence merge of the three tabs' cards, with the program inferred from the bank |
| GoogleSheets.SheetsApi.GetRewardPrograms | credit-card-calculators/shared/sheets-api.jsx:233-246 | The programs of the category's tab, fetched through the cache |
| GoogleSheets.SheetsApi.GetConversionValue | credit-card-calculators/shared/sheets-api.jsx:251-269 | The rate lookup on the category's programs: none when the program is missing or has no own entry for the card |
| GoogleSheets.SheetsApi.ClearCache | credit-card-calculators/shared/sheets-api.jsx:301-303 | The cache is empty afterwards |
| CardMerge.Merged | credit-card-calculators/shared/sheets-api.jsx:201-228 | The merged list of the tabs has no key twice, lists the key of every card of every tab, and each entry is the listing of the first card met with its key |
| CardMerge.MergeCards | credit-card-calculators/shared/sheets-api.jsx:201-228 | The merge loop gives `Merged` of the tabs |
| CardMerge.MergeSheet | credit-card-calculators/shared/sheets-api.jsx:208-219 | Merging one more tab extends the merge of the cards seen so far, and keeps the key set in step |
| CardMerge.MergedFlatSnoc | credit-card-calculators/shared/sheets-api.jsx:209-218 | One more card is listed iff its key was not listed before |
| CardMerge.KeysOfSnoc | credit-card-calculators/shared/sheets-api.jsx:209-212 | Listing a card adds exactly its key |
| CardMerge.MergedKeysDistinct | credit-card-calculators/shared/sheets-api.jsx:201-228 | No two listed cards share a lower-cased bank-and-name key |
| CardMerge.MergedCoversAllCards | credit-card-calculators/shared/sheets-api.jsx:201-228 | The key of every input card is listed |
| CardMerge.MergedFirstWins | credit-card-calculators/shared/sheets-api.jsx:201-228 | Each listed card is the listing of the first card with its key |
| WordPressFunctions.PhpCellRate | wordpress-upload/functions.php:112-118 | A stored rate is positive, and an `empty` cell stores nothing |
| WordPressFunctions.PhpCellRateOfPrice | wordpress-upload/functions.php:112-118 | A cell `₹n` or `$n` with n > 0 stores the rate n |
| WordPressFunctions.PhpCleanOfPrice | wordpress-upload/functions.php:114 | A leading `₹` or `$` is removed and the digits kept |
| WordPressFunctions.PhpFloatvalOfNat | wordpress-upload/functions.php:115 | `floatval` of a decimal numeral is its value |
| WordPressFunctions.PhpFloatvalOfDecimal | wordpress-upload/functions.php:115 | `floatval` of digits, a point and digits is the decimal they write |
| WordPressFunctions.PhpCellRateOfGroupedPrice | wordpress-upload/functions.php:112-118 | A padded, comma-grouped price stores the decimal its digits write when that is positive, and nothing otherwise |
| WordPressFunctions.ServedRatesPositive | wordpress-upload/functions.php:70-127 | Every rate of the server's normalisation of any grid is positive, and every card id is a slug |
| WordPressFunctions.PhpCellRateDropsNonPositive | wordpress-upload/functions.php:115-117 | A zero or negative cell stores no rate |
| WordPressFunctions.NonPositiveRatesDiverge | wordpress-upload/functions.php:116 | On the same negative or zero cell, the browser copy stores the number and the server copy stores nothing |
| WordPressFunctions.PhpNormalizeText | wordpress-upload/functions.php:130-135 | The PHP slug has only `[a-z0-9_]` |
| WordPressFunctions.PhpNormalizeTextOfSlug | wordpress-upload/functions.php:130-135 | A string of slug characters without double underscores is its own PHP slug |
| WordPressFunctions.PreparedSlug | wordpress-upload/functions.php:133-134 | Trimming, lower-casing and the white-space step leave a string of slug characters unchanged |
| WordPressFunctions.PhpCreateCardId | wordpress-upload/functions.php:129-141 | A PHP card id has only slug characters and contains the joining underscore |
| WordPressFunctions.RowRatesPositive | wordpress-upload/functions.php:111-120 | Every rate in a PHP rate map is positive |
| WordPressFunctions.StoredRatesPositive | wordpress-upload/functions.php:98-124 | Every rate the server copy stores in any program is positive |
| WordPressFunctions.CardIdsAreSlugs | wordpress-upload/functions.php:82-95 | Every card id the server copy emits has only slug characters |
| WordPressFunctions.ProcessSheetData | wordpress-upload/functions.php:70-127 | The server normaliser gives `Normalized` with the PHP rules; card ids are slugs and every stored rate is positive |
| WordPressFunctions.ZeroNameDiverges | wordpress-upload/functions.php:86 | A header cell `0` is blank to the server copy and names a card in the browser copy |
| WordPressFunctions.PhpZeroIsBlank | wordpress-upload/functions.php:86 | PHP `empty` makes a column whose only name is `0` yield no card |
| WordPressFunctions.JsZeroIsPresent | credit-card-calculators/shared/sheets-api.jsx:85 | JavaScript truthiness makes a column named `0` yield a card |
| WordPressFunctions.SpacedAmpersand | wordpress-upload/functions.php:133 | The white-space step turns `a & b` into `a_&_b` |
| WordPressFunctions.KeptAmpersand | wordpress-upload/functions.php:131 | Stripping non-slug characters from `a_&_b` leaves `a__b` |
| WordPressFunctions.CollapsedAmpersand | credit-card-calculators/shared/sheets-api.jsx:161 | Collapsing underscore runs turns `a__b` into `a_b` |
| WordPressFunctions.JsSlugOfAmpersand | credit-card-calculators/shared/sheets-api.jsx:157-163 | The browser slug of `a & b` is `a_b` |
| WordPressFunctions.UncollapsedAmpersand | wordpress-upload/functions.php:132 | Collapsing before stripping leaves `a_&_b` unchanged |
| WordPressFunctions.PhpSlugOfAmpersand | wordpress-upload/functions.php:130-135 | The PHP slug of `a & b` is `a__b` |
| WordPressFunctions.SlugsDiverge | wordpress-upload/functions.php:130-135 | The two slug functions give different results for `a & b` |
| SecureProxy.FallbackData | wordpress-upload/credit-card-calculators/js/secure-proxy.js:64-85 | The built-in data has three cards and one program `program_1` whose rate keys are exactly the three card ids, each rate at least 1 |
| SecureProxy.FallbackRates | wordpress-upload/credit-card-calculators/js/secure-proxy.js:64-85 | Looking up the built-in cards in the built-in program gives 1, 1.2 and 1.5 |
| SecureProxy.ProxyFailureFallsBack | wordpress-upload/credit-card-calculators/js/secure-proxy.js:38-61 | A reply that is not ok, an unsuccessful reply or a network error yields the built-in data and leaves the cache unchanged |
| SecureProxy.ServedData | wordpress-upload/functions.php:59-67 | What the server replies for a grid has only positive rates and slug card ids |
| SecureProxy.ProxyFetch | wordpress-upload/credit-card-calculators/js/secure-proxy.js:16-62 | Only the tab's own cache entry may change; a fresh entry is returned with the cache untouched; after the call the entry is fresh iff it was fresh before or the reply was ok and successful, a fresh entry is what is returned, a new entry is the server's data stamped with the time of the call, and otherwise the built-in data is returned with the cache unchanged; a cache holding only positive rates keeps doing so and serves only positive rates |
| SecureProxy.ProxyReplyIsCachedForFiveMinutes | wordpress-upload/credit-card-calculators/js/secure-proxy.js:17-54 | A successful reply's data is stored as it is and served for five minutes without a request |
| SecureProxy.ProxyInferProgramFromBank | wordpress-upload/credit-card-calculators/js/secure-proxy.js:184-196 | The lower-cased bank name is looked up in the proxy's own table; an unknown bank gives `other` |
| SecureProxy.FallbackBanksInferred | wordpress-upload/credit-card-calculators/js/secure-proxy.js:64-85 | Listing the built-in cards infers `other` for HDFC Bank and Axis Bank and `amex` for American Express |
| SecureProxy.SecureCalculatorProxy.constructor | wordpress-upload/credit-card-calculators/js/secure-proxy.js:7-11 | A new proxy starts with an empty cache |
| SecureProxy.SecureCalculatorProxy.FetchSheetData | wordpress-upload/credit-card-calculators/js/secure-proxy.js:16-62 | The data returned and the new cache are `ProxyFetch` of the old cache, the tab, the time and the reply |
| SecureProxy.SecureCalculatorProxy.GetAllData | wordpress-upload/credit-card-calculators/js/secure-proxy.js:90-111 | The three tabs are fetched in the order Airlines, Hotels, Cash, each through the cache |
| SecureProxy.SecureCalculatorProxy.GetAllCreditCards | wordpress-upload/credit-card-calculators/js/secure-proxy.js:116-140 | The cards are the first-occurrence merge of the three tabs, with the program from the proxy's bank table |
| SecureProxy.SecureCalculatorProxy.GetRewardPrograms | wordpress-upload/credit-card-calculators/js/secure-proxy.js:145-154 | The programs of the category's tab, fetched through the cache |
| SecureProxy.SecureCalculatorProxy.GetConversionValue | wordpress-upload/credit-card-calculators/js/secure-proxy.js:159-173 | None unless the first program with the id has an own entry for the card |
| SecureProxy.SecureCalculatorProxy.ClearCache | wordpress-upload/credit-card-calculators/js/secure-proxy.js:198-200 | The cache is empty afterwards |
| PointsCalculator.RedemptionTableShape | calculator.js:3-44 | chase, amex, capital-one and citi have five options, marriott and hilton four; every rate is positive |
| PointsCalculator.ConversionOf | calculator.js:57-63 | A line keeps the option's kind and description; with a positive rate its value is positive iff the balance is |
| PointsCalculator.CalculateConversions | calculator.js:47-67 | A program outside the table is the error "Invalid card program selected"; otherwise one line per option in table order, each points × rate with the rate in cents |
| PointsCalculator.BestIndex | calculator.js:69-73 | The index `reduce` keeps holds a largest value, and every earlier value is strictly smaller |
| PointsCalculator.WorstIndex | calculator.js:75-79 | The index `reduce` keeps holds a smallest value, and every earlier value is strictly larger |
| PointsCalculator.BestRedemption | calculator.js:69-73 | None iff the list is empty; otherwise a list element whose value is at least every element's value |
| PointsCalculator.WorstRedemption | calculator.js:75-79 | None iff the list is empty; otherwise a list element whose value is at most every element's value |
| PointsCalculator.WorstNotAboveBest | calculator.js:69-79 | The worst option is worth no more than the best |
| Pagination.TotalPages | main.js:145 | The page count is the least t with n <= 12t |
| Pagination.PageWindow | main.js:168-201 | At most seven items; none iff there are no pages; every button is a page of the list; the first item is page 1 and the last the last page |
| Pagination.RenderPageNumbers | main.js:168-201 | The loops append exactly the buttons of `PageWindow` |
| Pagination.PageWindowListsPages | main.js:168-201 | The buttons are strictly increasing pages within 1 .. totalPages; the first and the last page are listed, and so is the current page when it is a page |
| Pagination.EllipsisMarksAGap | main.js:175-200 | Every ellipsis stands between two buttons whose pages are more than one apart |
| Pagination.JsSlice | main.js:127-129 | `slice` returns at most the list's length and, for start <= end, at most end - start elements, whatever the clamping |
| Pagination.PageSlice | main.js:127-129 | A page shows at most twelve cards, the i-th being card (page - 1) · 12 + i |
| Pagination.PageInfo | main.js:146-147 | The last number is the smaller of the card count and page · 12, at most eleven past the first, and the first is at least 1 on a page numbered from 1 |
| Pagination.PageInfoMatchesSlice | main.js:146-147 | On a page within range, "Showing start-end" names exactly the cards of the slice |
| Pagination.EveryCardIsOnAPage | credit-card-calculators/hotels/hotels-calculator.js:116-118 | Card i is shown on page i / 12 + 1, which exists, at position i mod 12 |
| CalculatorApp.SearchFilter | main.js:287-290 | The result is at most as long as the list and holds exactly the cards whose name or bank contains the query, ignoring case |
| CalculatorApp.SearchFilterAppend | main.js:287-290 | The search keeps the cards' order: filtering a concatenation concatenates the filtered parts |
| CalculatorApp.SearchIgnoresCase | credit-card-calculators/cash/cash-calculator.js:249-265 | Lower-casing the query does not change the result |
| CalculatorApp.KeepRated | main.js:435-474 | The kept programs are exactly those of the list whose looked-up rate for the card is positive |
| CalculatorApp.KeepRatedAppend | main.js:447-463 | Filtering keeps the list's order: filtering two lists joined is filtering each and joining the results |
| CalculatorApp.KeepRatedReadsOwnRates | main.js:449-460 | With distinct program ids, a program is kept iff its own rate for the card is positive |
| CalculatorApp.ValueOf | main.js:596-614 | Non-positive points show `₹0.00`; positive points with an absent or zero rate show N/A; otherwise the value is points × rate, positive for a positive rate |
| CalculatorApp.Points | main.js:597 | Input that starts, after white space, with a number is read as `parseFloat` reads it; any other input is 0 |
| CalculatorApp.CalculateValue | main.js:596-614 | The entry shows `₹0.00` iff its points are not positive (in particular when it starts with no number), N/A iff they are positive and the rate is absent or zero, and otherwise points × rate |
| CalculatorApp.PointsOfUnspaced | main.js:597 | Input not starting with white space is read as its number prefix, 0 when there is none |
| CalculatorApp.PointsOfWhole | main.js:597 | A whole-number input is read as its value |
| CalculatorApp.CalculateValueOfWholePoints | credit-card-calculators/airlines/airlines-calculator.js:512-530 | A positive whole number of points with a non-zero rate is worth points × rate |
| CalculatorApp.ValueOfPositivePoints | credit-card-calculators/hotels/hotels-calculator.js:512-530 | Positive points with a non-zero rate are worth points × rate |
| CalculatorApp.CalculateValueOfNegativePoints | main.js:597-613 | A negative entry shows `₹0.00` whatever the rate |
| CalculatorApp.Calculator.App | main.js:5-16 | The main page starts on page 1 with no cards, no selection and no category |
| CalculatorApp.Calculator.ForCategory | credit-card-calculators/hotels/hotels-calculator.js:4-15 | A category page starts on page 1 with no cards and no selection, in its fixed category |
| CalculatorApp.Calculator.LoadCards | main.js:18-58 | Called on page 1, the loaded cards, or the default cards when none were loaded, become both the full and the filtered list, and the page state is valid |
| CalculatorApp.Calculator.VisibleCards | main.js:109-140 | At most twelve cards are shown |
| CalculatorApp.Calculator.PageButtons | main.js:142-201 | No buttons iff the filtered list is empty; every button is a page of the list; on a valid page the current page has a button |
| CalculatorApp.Calculator.GoToPage | main.js:221-225 | A page taken from a button of the current list becomes the current page and stays within range; nothing else changes (buttons left over from an earlier list: see Left out) |
| CalculatorApp.Calculator.PrevPage | main.js:267-271 | The page goes back by one only when it is above 1, and stays within range |
| CalculatorApp.Calculator.NextPage | main.js:273-278 | The page goes forward by one only when it is below the page count, and stays within range |
| CalculatorApp.Calculator.HandleSearch | main.js:281-297 | A blank query restores all cards, any other query keeps the matching cards; the page is reset to 1 |
| CalculatorApp.Calculator.ClearSearch | main.js:299-312 | All cards are shown again, from page 1 |
| CalculatorApp.Calculator.SelectCard | main.js:314-345 | The card becomes the selected card; nothing else changes |
| CalculatorApp.Calculator.ShowCardSelection | main.js:362-373 | The selection is cleared; nothing else changes |
| CalculatorApp.Calculator.SelectCategory | main.js:347-360 | The category becomes the chosen one; nothing else changes |
| CalculatorApp.Calculator.SelectProgram | main.js:522-541 | The first program with the id becomes the selected program; an unknown id changes nothing |
| CalculatorApp.Calculator.FilterProgramsForSelectedCard | main.js:435-474 | Without a selected card the list is empty; otherwise the programs, in order, whose rate for the card is positive |
| CalculatorApp.Calculator.ConversionRate | main.js:575-589 | A rate iff a card with an id and a program are selected and the first program with that id has an entry for the card; the rate is that entry |
| CalculatorApp.NewHotelsCalculator | credit-card-calculators/hotels/hotels-calculator.js:4-15 | A new hotels page is valid and fixed to `hotels` |
| CalculatorApp.NewCashCalculator | credit-card-calculators/cash/cash-calculator.js:4-15 | A new cash page is valid and fixed to `cash` |
| CalculatorApp.NewAirlinesCalculator | credit-card-calculators/airlines/airlines-calculator.js:4-15 | A new airlines page is valid and fixed to `airlines` |
| Text.TrimOfTrimmed | credit-card-calculators/shared/sheets-api.jsx:85-87 | Trimming a string without edge white space leaves it unchanged |
| Text.RemoveAllAfterTrim | credit-card-calculators/shared/sheets-api.jsx:121-126 | Removing a class that contains the white space gives the same result with or without trimming first |
| Slug.KeepSlugCharsOfSlug | wordpress-upload/functions.php:131 | Stripping non-slug characters leaves a slug unchanged |
| Numbers.NatToStringRoundTrip | credit-card-calculators/shared/sheets-api.jsx:110 | The decimal numeral of a row number reads back as that number |
| Numbers.ParseDecimalPrefix | credit-card-calculators/shared/sheets-api.jsx:128 | The number prefix exists iff the string starts with an optional sign and then a digit, or a point and a digit |
| Numbers.ParseNatString | credit-card-calculators/shared/sheets-api.jsx:128 | A decimal numeral parses to its value |
| Numbers.ParseDecimalWithFraction | credit-card-calculators/shared/sheets-api.jsx:128 | Digits, a point and digits parse to the whole part plus the fraction digits over the matching power of ten |
| Numbers.ParseNegativeNatString | credit-card-calculators/shared/sheets-api.jsx:128 | A minus sign before a numeral parses to the negated value |

## Left out

- Network I/O is not modelled. This covers the Google Sheets API request, the WordPress AJAX request and the server's own request to the API. Each fetch takes the answer as a parameter.
- Time: the clock is a parameter, read once per fetch. The source reads `Date.now()` separately for the freshness check and for the timestamp it stores.
- Concurrency is not modelled: `Promise.all` over the three tabs is a sequential walk in the same order. The five-second `Promise.race` timeout in `loadCreditCards` is treated as one more way of getting no cards.
- CalculatorApp.Calculator.LoadCards: takes the fetched and default card lists as parameters. `getDefaultCards` (main.js:60 and the category files) is a static list, not modelled as data.
- Floating point is not modelled. Rates and points are exact reals, and `parseFloat`/`floatval` read a sign, digits, a point, digits and an exponent. `Infinity`, hexadecimal forms and rounding are not modelled.
- `toFixed(2)` and `toLocaleString` are not modelled; the displayed value is the exact product.
- Numbers.ParseDecimalPrefix: `floatval` is read with the same decimal grammar as `parseFloat`, with no number read as 0. Where PHP's numeric-string rules differ from that grammar, the difference is not modelled.
- Lower-casing covers ASCII letters only. This is exact for PHP `strtolower`. JavaScript `toLowerCase` also maps other letters.
- The cleaning pattern `[₹$,\s]` on the server is read as four character kinds. PCRE without the `u` flag sees `₹` as three bytes, and that quirk is not modelled.
- Inherited `Object.prototype` keys are not modelled. An id such as `constructor` would find a JavaScript `values` object's inherited member; the model's rate maps hold only their own entries.
- The built-in fallback cards carry a `program` field and no sheet column. The model gives them column 0 and drops the field, because listing re-infers the program from the bank.
- The main page's category starts as `null` and is modelled as the empty string.
- The `catch` branches that cannot be reached by the modelled operations are not modelled (for example JSON errors inside `processSheetData`).
- All DOM work is left out: rendering, `innerHTML` templates, icons, event wiring, `setTimeout` delays, `focus`, loading and error panels, and console logging. The `isLoading` flags exist only for that.
- CalculatorApp.Calculator.PageButtons: gives no buttons for an empty filtered list. The source returns early there and leaves the previous buttons in the page.
- CalculatorApp.Calculator.GoToPage: a click on a page button left over after a search with no matches (main.js:143, 208, 221-225) sets in the source a page outside the empty list; `Valid()` and the requires of `GoToPage` and `PrevPage` exclude that state, so the model does not capture it.
- CalculatorApp.Calculator.SelectCard: takes the card as a parameter. The source builds it from the clicked element: the id from its `data-card-id` attribute, the program from the handler's argument, and the name and bank from the element's rendered text (main.js:316-327, credit-card-calculators/hotels/hotels-calculator.js:283-294). A click outside a card element, which the source logs and ignores, is not modelled.
- CalculatorApp.Calculator.FilterProgramsForSelectedCard: takes the catalog the repository returns for the category. The source asks `getConversionValue` for each program, which fetches through the cache each time.
- CalculatorApp.Calculator.ConversionRate: takes the same catalog parameter, for the same reason. Without a selected program the source fails on `selectedProgram.id` and its `catch` returns null; the model returns none directly.
- The browser copy keeps zero and negative rates (credit-card-calculators/shared/sheets-api.jsx:128-132), while the server copy stores only positive rates (wordpress-upload/functions.php:115-117).
- The WordPress glue is not modelled beyond what the AJAX handler replies on success (`SecureProxy.ServedData`): its nonce and API-key checks, its error replies (which the proxy treats like any failed reply), the five-minute transient (whose entries were computed the same way), the admin page, the shortcodes and the access checks. The same holds for credit-card-calculators/access-control.js, which inspects the browser and has no domain logic.
