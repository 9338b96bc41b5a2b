# Elite agent data: a verified model of the CSV aggregation

`process_data.py` reads a CSV export of closed real-estate transactions and
builds one statistics record per agent and one per brokerage office. It then
writes the records out as JSON, sorted by activity, together with a small
market summary. This project models the computational core of that script in
Dafny and proves properties of the model:

- **Field normalisation** (module `Normalise`): `clean_price` keeps the digit
  characters of a price and reads them as one integer. `parse_dom` keeps days
  on market only when Python's `int()` accepts the text and the value is
  positive. `int()` is modelled on a `str` argument in base 10. It skips
  the whitespace CPython skips around a number, which is not quite the set
  `str.strip()` removes: the separators U+001C..U+001F count as whitespace
  for `strip()` but not for `int()`. It then takes an optional sign and
  digits with single underscores between them, at most 4300 digits (the
  default `int_max_str_digits`). Every other input is an error.
- **The row fold** (module `Aggregate`): every dated row credits its listing
  role and then its selling role. Each role credits the agent entry keyed by
  the lower-cased email and the office entry keyed by the lower-cased office
  name. Both dictionaries are `defaultdict`s, so they create entries on first
  use and keep insertion order. The pure specification of one step is
  `ApplyRow`, and `Fold` applies it to all rows. The class `Aggregator` is the
  loop itself: it updates its dictionary fields in place, and each method is
  proved to compute exactly what `ApplyRow` specifies. The counters
  `rows_processed` and `rows_skipped_no_date` are fields of the same class.
- **The formatters** (module `Format`): `format_agents_for_js` and
  `format_companies_for_js` walk a dictionary in insertion order. They skip
  entries with no transactions and build one record per remaining entry,
  with rounded-down averages, the ten most frequent cities and zips, and the
  distinct close dates in ascending order. Then they sort the list stably by
  transactions, then total volume, both descending.
- **Orderings** (module `Ordering`): Python's stable `list.sort` and `sorted`
  with a descending key, and `sorted(set(xs))` on strings, each specified by
  its defining properties.
- **Market summary** (module `Market`): the integer part of
  `calculate_market_stats`.

The close date of a row is given to the model already parsed (`parse_date`
is not modelled). The MD5 token generator is a function parameter.

`clean_price` deletes every non-digit character, the decimal point
included, so `"$2,945,774.02"` is read as 294577402: the cents become two
more digits (`Normalise.CleanPriceKeepsCents`).

## Model

| member | source | states |
|---|---|---|
| Text.IsDigit | process_data.py:22 | no contract of its own: the `\d` class, ASCII digits only (admitted under "## Left out"); `Digits` keeps exactly these characters and `DigitsOfNonDigits` drops the rest |
| Text.IsSpace | process_data.py:97-98 | no contract of its own: the characters `str.isspace()` holds for, which `str.strip()` removes; `Normalise.SeparatorSpace` states where it differs from `IsIntSpace` |
| Text.IsIntSpace | process_data.py:43 | no contract of its own: the whitespace `int()` skips, `IsSpace` without U+001C..U+001F; stated by `Normalise.SeparatorSpace` and `Normalise.IntStripKeepsDigits` |
| Text.StripBy | process_data.py:97-105 | no contract of its own: stripping by a given whitespace set; stated by `StripByEnds`, `StripByNone` and `StripWindow` |
| Text.Strip | process_data.py:97-105 | no contract of its own: `str.strip()` is `StripBy` with `IsSpace`; stated by `StripByEnds`, `StripByNone` and `StripWindow` |
| Text.StripByEnds | process_data.py:97-98 | `str.strip()` (and the strip `int()` applies): the result is never longer than the input and begins and ends with a character that is not whitespace |
| Text.StripByNone | process_data.py:97-98 | text without whitespace is not changed by stripping |
| Text.StripWindow | process_data.py:102-105 | the stripped text is one contiguous window of the input, and everything before and after that window is whitespace |
| Text.LowerChar | process_data.py:104 | no contract of its own: `str.lower()` on one character, ASCII letters only; `Lower` applies it to every character |
| Text.Lower | process_data.py:104 | `lower()` keeps the length and maps each character independently (ASCII letters to lower case) |
| Text.Digits | process_data.py:22 | `re.sub(r'[^\d]', '', s)`: the result holds only digits and is no longer than the input |
| Text.DigitsOfAllDigits | process_data.py:22 | text made only of digits is its own digits |
| Text.DigitsOfNonDigits | process_data.py:22 | text without a digit has no digits |
| Text.DigitsConcat | process_data.py:22 | deleting non-digits distributes over concatenation |
| Text.Value | process_data.py:22 | the number a run of digits spells is below 10 to the number of digits; its relation to `str(n)` is `ValueOfDecimal`, to concatenation `ValueConcat` |
| Text.ValueOfDecimal | process_data.py:22 | reading the decimal spelling of `n` gives back `n` |
| Text.LexLess | process_data.py:184 | no contract of its own: Python's `<` on `str`; stated to be a strict total order by `LexLessTransitive`, `LexLessTotal` and `LexLessAsymmetric` |
| Text.LexLessTransitive | process_data.py:184 | Python's string `<` is transitive |
| Text.LexLessTotal | process_data.py:184 | of two different strings, one is below the other |
| Text.LexLessAsymmetric | process_data.py:184 | no two strings are each below the other |
| Normalise.CleanPrice | process_data.py:18-22 | the price is 0 when the text has no digit, and is below 10 to the number of digits kept |
| Normalise.CleanPriceIgnoresNonDigit | process_data.py:22 | removing any non-digit character from the text does not change the price |
| Normalise.CleanPriceReadsDigits | process_data.py:22 | when the digits of the text spell `n`, the price is `n` |
| Normalise.CleanPriceOfDecimal | process_data.py:18-22 | round trip: the price of the decimal spelling of `n` is `n` |
| Normalise.CleanPriceConcat | process_data.py:22 | the price of `a + b` is the price of `a` shifted by the number of digits of `b`, plus the price of `b` |
| Normalise.CleanPriceOfZero | process_data.py:96 | the default `'0'` of a missing `sold_price` column gives the same price as an empty one, 0 |
| Normalise.CleanPriceLeadingZero | process_data.py:22 | a leading zero does not change the price |
| Normalise.CleanPriceKeepsCents | process_data.py:22 | a decimal point is dropped like any separator, so the cent digits are appended to the whole part instead of being cut off |
| Normalise.IsDigitGroup | process_data.py:43 | no contract of its own: digits with single underscores between them; `ParseDigits` succeeds only on these, and `ParseIntOfUnderscores` shows one read |
| Normalise.ParseDigits | process_data.py:43 | the unsigned part of `int()` succeeds exactly when the text is a digit group with at most 4300 digits |
| Normalise.ParseDigitsOfDigits | process_data.py:43 | a run of plain digits is read as the number it spells, and refused when longer than 4300 digits |
| Normalise.ParseDigitsDropsUnderscore | process_data.py:43 | removing an underscore between digits changes nothing `int()` reads: not the acceptance, the value or the digit limit |
| Normalise.IntStrip | process_data.py:43 | no contract of its own: `StripBy` with `IsIntSpace`; stated by `IntStripKeepsDigits`, `ParseIntKeepsSeparators` and the `Text.StripBy` lemmas |
| Normalise.ParseSigned | process_data.py:43 | only non-empty stripped text can succeed, and a lone `+` or `-` is refused; what each sign does is stated by `ParseIntOfPlus` and `ParseIntOfMinus` |
| Normalise.ParseInt | process_data.py:43 | `int()` succeeds only on text that is not all whitespace |
| Normalise.ParseIntOfDecimal | process_data.py:43 | round trip: `int()` of the decimal spelling of `n` is `n` when it has at most 4300 digits, and fails otherwise |
| Normalise.ParseIntOfDigits | process_data.py:43 | `int()` of a digit group it accepts (underscores allowed) is the value its digits spell |
| Normalise.ParseIntOfDigitsRefused | process_data.py:43 | a digit group the digit limit refuses makes `int()` fail |
| Normalise.ParseIntOfMinus | process_data.py:43 | a minus sign in front of an accepted digit group (underscores allowed) negates its value |
| Normalise.ParseIntOfSignRefused | process_data.py:43 | a `+` or `-` sign in front of a digit group with more than 4300 digits is refused |
| Normalise.ParseIntOfPlus | process_data.py:43 | a plus sign in front of an accepted digit group (underscores allowed) gives its value unchanged |
| Normalise.ParseIntOfNegative | process_data.py:43 | `int()` of a minus sign followed by the spelling of `n` is `-n` when it has at most 4300 digits, and fails otherwise |
| Normalise.ParseIntOfPositive | process_data.py:43 | `int()` of a plus sign followed by the spelling of `n` is `n` when it has at most 4300 digits, and fails otherwise |
| Normalise.ParseIntOfUnderscores | process_data.py:43 | `int("-1_000")` is -1000: an underscore between digits is accepted and ignored |
| Normalise.ParseIntRejectsNonNumeric | process_data.py:42-48 | a character that is not `int()` whitespace, a digit, a sign or `_` makes `int()` fail; this includes the separators U+001C..U+001F |
| Normalise.IntStripKeepsDigits | process_data.py:43 | the whitespace `int()` skips holds no digit, so stripping keeps every digit |
| Normalise.ParseIntRejectsLong | process_data.py:43 | text with more than 4300 digits makes `int()` fail, whatever surrounds them |
| Normalise.SeparatorSpace | process_data.py:43 | the separators U+001C..U+001F are whitespace to `str.strip()` but not to `int()` |
| Normalise.ParseIntKeepsSeparators | process_data.py:43 | a field of digits behind a separator strips to its digits, yet `int()` refuses it |
| Normalise.ParseDom | process_data.py:38-48 | the result is present exactly when `int()` succeeds with a value above zero, and is then that value |
| Normalise.ParseDomOfDecimal | process_data.py:38-45 | a positive number written in decimal is kept as itself, unless it has more than 4300 digits |
| Normalise.ParseDomRejectsNonPositive | process_data.py:44-46 | zero and every negative number give no value |
| Normalise.ParseDomOfPlus | process_data.py:38-48 | a plus sign in front of a decimal number changes nothing: `parse_dom("+45")` is 45 |
| Normalise.ParseDomRejectsNonNumeric | process_data.py:47-48 | text `int()` rejects gives no value instead of an error |
| Ordering.SortDesc | process_data.py:210 | stable sort on a descending key: same length, a permutation of the input, ordered by rank, and elements of equal rank keep their input order |
| Ordering.SortDescMembers | process_data.py:210 | sorting neither adds nor loses an element |
| Ordering.SortedPrefix | process_data.py:185 | a cut of a sorted list (`[:10]`) is still sorted |
| Ordering.PrefixDominates | process_data.py:185 | every element a cut of a sorted list keeps ranks at least as high as every element it drops |
| Ordering.WithRankPrefix | process_data.py:185 | among equal ranks, a cut keeps the first ones, in order |
| Ordering.SortedSet | process_data.py:184 | `sorted(set(xs))`: strictly ascending, with exactly the elements of `xs` |
| Ordering.AscendingUnique | process_data.py:184 | a strictly ascending list is determined by its elements, so `sorted(set(xs))` has only one possible result |
| Aggregate.Normalised | process_data.py:102-105 | no contract of its own: a role's four columns stripped and its email lower-cased, as lines 102-105 and 135-138 do; the key it yields is stated by `RoleUpdate` and `OfficeUpdate` |
| Aggregate.DealOf | process_data.py:96-99 | no contract of its own: the row's price, stripped city and zip and days on market; `DealOfOk` states that a dated row gives a deal with a date and a positive days on market when known |
| Aggregate.HasDate | process_data.py:89-92 | no contract of its own: whether `parse_date` gave a close date; stated by `SkippedRowChangesOnlyCounter` and `FoldCounts` |
| Aggregate.Credited | process_data.py:107 | no contract of its own: the gate `if listing_agent and listing_email` (and at line 140 for the selling role); `RoleUpdate` states that a role failing it changes nothing |
| Aggregate.Bump | process_data.py:121 | `counter[key] += 1` raises the total of all counts by one |
| Aggregate.BumpCounts | process_data.py:120-123 | the count under the key rises by one, no other count changes, and a new key is added after all existing keys |
| Aggregate.BumpKeepsCounterOk | process_data.py:120-123 | a counter keeps each key once and every count positive |
| Aggregate.Sum | process_data.py:179-182 | no contract of its own: `sum(...)` over a list of prices or days-on-market values; `CreditAgentTotals` ties the prices' sum to the total volume and `Format.Mean` divides it |
| Aggregate.CreditAgent | process_data.py:109-125 | no contract of its own: one role credited to an agent entry, starting from the `defaultdict` default of lines 56-72 for a new email; stated by `RoleUpdate`, `RoleAccumulates` and the `CreditAgent*` lemmas |
| Aggregate.CreditCompany | process_data.py:128-132 | no contract of its own: one role credited to an office entry, starting from the default of lines 74-81; stated by `OfficeUpdate` and `CreditCompanyOk` |
| Aggregate.CreditAgentEntry | process_data.py:107-125 | no contract of its own: get-or-insert the agent under the email and credit it; stated by `RoleAgentEntry`, `RoleUpdate` and `CreditAgentEntryWellFormed` |
| Aggregate.CreditOfficeEntry | process_data.py:127-132 | no contract of its own: get-or-insert the office under its lower-cased name and credit it; stated by `OfficeUpdate`, `EmptyOfficeTouchesNoCompany` and `CreditOfficeEntryWellFormed` |
| Aggregate.ApplyRole | process_data.py:101-132 | no contract of its own: one role, gated on name and email; stated by `RoleUpdate`, `RoleAccumulates`, `OfficeUpdate`, `RoleOrder` and `ApplyRoleWellFormed` |
| Aggregate.ApplyDeal | process_data.py:101-165 | no contract of its own: the listing role, then the selling role; stated by `SameAgentBothRoles` and `RowOrder` |
| Aggregate.ApplyRow | process_data.py:89-165 | no contract of its own: one loop iteration; stated by `ApplyRowWellFormed`, `SkippedRowChangesOnlyCounter` and `RowOrder` |
| Aggregate.Fold | process_data.py:88-165 | no contract of its own: the loop over the rows in file order; stated by `FoldWellFormed`, `FoldCounts` and `FoldOrder` |
| Aggregate.CreditAgentTotals | process_data.py:113-117 | after a credit, transactions are listings plus sales, total volume is list plus sale volume, and the prices list holds one price per transaction and sums to the total volume |
| Aggregate.CreditAgentLists | process_data.py:117-125 | after a credit there is one close date per transaction and at most one positive days-on-market value per transaction |
| Aggregate.CreditAgentCounters | process_data.py:120-123 | after a credit the city and zip counters stay well formed and count at most one per transaction |
| Aggregate.CreditAgentOk | process_data.py:109-125 | crediting one role keeps an agent entry (or a fresh default entry) within the agent invariant |
| Aggregate.CreditCompanyOk | process_data.py:127-132 | crediting one role keeps an office entry within the office invariant: its key is its lower-cased name, and it has between one agent and one agent per transaction |
| Aggregate.CreditAgentEntryWellFormed | process_data.py:107-125 | the agent get-or-insert and update keeps both dictionaries well formed and leaves the email among the agent keys |
| Aggregate.CreditOfficeEntryWellFormed | process_data.py:127-132 | the office get-or-insert and update keeps both dictionaries well formed |
| Aggregate.ApplyRoleWellFormed | process_data.py:101-132 | one role of a dated row keeps both dictionaries well formed |
| Aggregate.ApplyRowWellFormed | process_data.py:88-165 | one row keeps both dictionaries well formed |
| Aggregate.FoldWellFormed | process_data.py:88-165 | after any sequence of rows: insertion order matches the keys, every agent's counters add up, and every office's agents are agent keys |
| Aggregate.FoldCounts | process_data.py:83-94 | `rows_processed` counts the dated rows, and it plus `rows_skipped_no_date` is the number of rows |
| Aggregate.SkippedRowChangesOnlyCounter | process_data.py:89-92 | a row without a close date changes nothing but the skip counter |
| Aggregate.RoleAgentEntry | process_data.py:107-125 | a credited role puts the credited statistics under its email, starting from the existing entry or the default one |
| Aggregate.RoleUpdate | process_data.py:107-114 | a role with an empty name or email changes nothing; otherwise only the entry under its email changes, an email seen for the first time is appended to the agent insertion order, and the entry takes the role's name, first name and office and gains one transaction on the role's side |
| Aggregate.RoleAccumulates | process_data.py:115-125 | a credited role adds the price to its side's volume and to the total volume, appends the price, the days on market when known and the close date when non-empty, and counts the city and the zip code once more when non-empty |
| Aggregate.OfficeUpdate | process_data.py:127-132 | a credited role with an office changes only the entry under the lower-cased office: it takes the office as its name, gains the agent's email, one transaction on the role's side and the price in its total volume; a new key is appended to the office order |
| Aggregate.EmptyOfficeTouchesNoCompany | process_data.py:127 | a role with an empty office leaves the office dictionary and its order unchanged |
| Aggregate.SameAgentBothRoles | process_data.py:101-158 | when both roles name the same email, that agent gains two transactions, one listing and one sale |
| Aggregate.FirstSeenDistinct | process_data.py:175 | the reference order `FirstSeen` holds every key once and exactly the keys given |
| Aggregate.RoleOrder | process_data.py:107-132 | one role appends its email to the agent order and its lower-cased office to the office order, each only when credited and new |
| Aggregate.RowOrder | process_data.py:88-165 | one row appends the keys its listing role and then its selling role name, skipping keys already present; an undated row appends nothing |
| Aggregate.FoldOrder | process_data.py:88-165 | after any rows, the agents are in the order their emails first appear (row by row, listing role before selling role) and the offices in the order their lower-cased names first appear: the insertion order `agents.items()` and `companies.items()` iterate in, which decides the output order of ties |
| Aggregate.Aggregator.constructor | process_data.py:56-84 | the loop starts from empty dictionaries and zero counters, which are well formed |
| Aggregate.Aggregator.CreditAgentEntryInPlace | process_data.py:108-125 | the in-place agent update yields exactly the specified dictionaries and leaves the counters alone |
| Aggregate.Aggregator.CreditOfficeEntryInPlace | process_data.py:127-132 | the in-place office update yields exactly the specified dictionaries and leaves the counters alone |
| Aggregate.Aggregator.CreditRole | process_data.py:101-132 | one role, gated on name and email, yields the specified dictionaries and keeps them well formed |
| Aggregate.Aggregator.AddRow | process_data.py:89-165 | one loop iteration yields exactly the state `ApplyRow` specifies and keeps the dictionaries well formed |
| Aggregate.ProcessCsv | process_data.py:54-170 | the loop over all rows yields `Fold(rows)`, with well-formed dictionaries and every row counted exactly once, as processed or as skipped |
| Format.IntDiv | process_data.py:179-182 | `int(a / n)` on non-negative values is the quotient rounded down: `q * n <= a < (q + 1) * n` |
| Format.Mean | process_data.py:179-182 | `int(sum(xs) / len(xs)) if xs else 0`: 0 for an empty list, otherwise `m` with `m * len(xs) <= sum(xs) < (m + 1) * len(xs)` |
| Format.MeanOfPositive | process_data.py:180-182 | the rounded-down mean of positive values is at least one |
| Format.CountRank | process_data.py:185-186 | no contract of its own: the sort key `-x[1]` of a counter entry, its count descending; stated through `TopCountsKept`, `TopCountsDominate` and `TopCountsTies` |
| Format.TopCounts | process_data.py:185-186 | no contract of its own: the ten largest counts, stable on ties; stated by `TopCountsKept`, `TopCountsDominate` and `TopCountsTies` |
| Format.TopCountsKept | process_data.py:185-186 | the top list has `min(len, 10)` entries, all taken from the counter, largest count first |
| Format.TopCountsDominate | process_data.py:185-186 | every entry kept counts at least as much as every entry dropped |
| Format.TopCountsTies | process_data.py:185-186 | among equal counts, the first-seen entries are kept, in first-seen order |
| Format.Emitted | process_data.py:175-208 | no contract of its own: the records of the active entries in insertion order; stated by `EmittedMembers` and `EmittedAll` |
| Format.EmittedMembers | process_data.py:175-177 | the loop emits a record exactly for the entries that have transactions |
| Format.EmittedAll | process_data.py:175-209 | when no entry is skipped, the loop emits one record per key, in insertion order |
| Format.FormatAgent | process_data.py:179-207 | no contract of its own: one agent record; stated by `FormatAgentOk` and `TopCountsKept`, `TopCountsDominate`, `TopCountsTies` |
| Format.FormatAgentOk | process_data.py:179-207 | a well-formed agent entry gives a record with transactions equal to listings plus sales, the average price equal to total volume over transactions rounded down, average days on market zero exactly when no value was recorded, at most ten cities and zips, and exactly its distinct close dates in ascending order |
| Format.FormatAgentAverages | process_data.py:179-202 | `ap` is the rounded-down mean of the prices, `ad` the rounded-down mean of the recorded days-on-market values, and `dc` their number, each by `Mean`'s contract |
| Format.AgentActive | process_data.py:176-177 | no contract of its own: the entries `if data['transactions'] == 0: continue` lets through; stated by `EmittedMembers` and `FoldedAgentsActive` |
| Format.AgentRank | process_data.py:210 | no contract of its own: the key `(-x['t'], -x['tv'])`, transactions then total volume, both descending; stated by `FormatAgents` through `Ordering.SortDesc` |
| Format.EmittedAgentOk | process_data.py:188-209 | every record the agent loop emits from a well-formed dictionary satisfies the record invariant |
| Format.FormatAgents | process_data.py:172-211 | the result is the stable descending sort of the records of the active entries in insertion order: sorted, and a permutation of them |
| Format.FormatCompany | process_data.py:220-227 | no contract of its own: one office record; stated by `FormatCompanyOk` |
| Format.FormatCompanyOk | process_data.py:220-227 | a well-formed office entry gives a record with transactions equal to listings plus sales and between one agent and one agent per transaction, named by the office whose lower case is its key |
| Format.CompanyActive | process_data.py:217-218 | no contract of its own: the office entries with transactions; stated by `EmittedMembers` and `FormattedCompaniesOfFold` |
| Format.CompanyRank | process_data.py:230 | no contract of its own: the same key as `AgentRank` on office records; stated by `FormatCompanies` through `Ordering.SortDesc` |
| Format.FormatCompanies | process_data.py:213-231 | the result is the stable descending sort of the records of the active entries in insertion order: sorted, and a permutation of them |
| Format.FoldedAgentsActive | process_data.py:176-177 | after the row fold no agent entry is skipped for having no transactions |
| Format.FormattedAgentsOfFold | process_data.py:172-211 | after the row fold the agent list has one record per agent key, each satisfying the record invariant |
| Format.FormattedCompaniesOfFold | process_data.py:213-231 | after the row fold the office list has one record per office key, each satisfying the record invariant |
| Market.Total | process_data.py:239-241 | no contract of its own: `sum(a[field] for a in agents_js)`; stated by `TotalConcat`, `TotalPermutation` and `TotalsBounds` |
| Market.DomAgents | process_data.py:243 | the filter keeps exactly the records with `dc > 0` |
| Market.MarketStatsOf | process_data.py:233-251 | `total` is the number of records, an empty list gives all zeros, `avg_vol` is total volume over total rounded down, and no more records have days on market than there are records |
| Market.TotalConcat | process_data.py:239-241 | a sum over a concatenation is the sum of the sums |
| Market.TotalPermutation | process_data.py:239-241 | a sum over the list does not depend on its order |
| Market.DomAgentsTotals | process_data.py:243-244 | the filtered list's length and days-on-market sum count only records with `dc > 0` |
| Market.MarketStatsPermutation | process_data.py:210 | the summary of the sorted list equals the summary of the list before sorting |
| Market.DomFilterLosesNothing | process_data.py:243-244 | when every record with `dc == 0` has `ad == 0`, the filter keeps the whole days-on-market sum |
| Market.TotalsBounds | process_data.py:239-241 | when every record has a transaction and no more listings than transactions, the totals obey the same bounds |
| Market.MarketStatsOfRecords | process_data.py:239-244 | on valid records, listings never exceed transactions, there are at least as many transactions as records, and the filter keeps the whole days-on-market sum |
| Market.MarketStatsOfFold | process_data.py:233-244 | on the agent list of a folded CSV: one record per agent key, and the bounds of `MarketStatsOfRecords` |

## Left out

- File and JSON I/O, `print`, `os`, the timestamps and `main` are not modelled. `ProcessCsv` takes the rows already read.
- `parse_date` is not modelled. A row's close date arrives as the result of `parse_date`: `None` or the formatted date.
- `generate_token` is a function parameter, because MD5 is outside the model.
- Market.MarketStatsOf: does not compute `round(total_trans / total, 1)`, `round(total_listings / total, 1)` or `round(avg_dom, 0)`, because they are floating point. It keeps their exact numerators and denominators instead.
- Format.IntDiv: is exact floor division, so it does not model the rounding of the float division in `int(sum / len)` for sums above 2^53.
- Format.Mean: divides exactly through `IntDiv`, so it shares that gap: the float rounding of `sum / len` for sums above 2^53 is not modelled.
- Text.IsDigit: is ASCII only. Python's `\d` and `int()` also accept other Unicode decimal digits.
- Normalise.CleanPrice: reads any number of digits. CPython's `int()` raises `ValueError` on more than 4300 digits, and `clean_price` does not catch it, so such a price aborts the whole `process_csv` run; the model has no aborted run.
- Normalise.ParseInt: fixes the digit limit at CPython's default of 4300. A limit changed through `PYTHONINTMAXSTRDIGITS` or `sys.set_int_max_str_digits`, or a Python version without the limit, is not modelled.
- Text.Lower: lower-cases ASCII letters only, not the rest of Unicode.
- A short CSV row, for which `csv.DictReader` gives `None` and `.strip()` raises, is not modelled. A missing column is an empty string.
- `list.sort` is modelled as a pure stable sort whose result is assigned back. The array is not sorted in place.
- The agent and office entries are values in a map that the methods replace. Python mutates shared dictionary objects, and the model does not capture that aliasing.
