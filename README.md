# Analytics console: a Dafny model of its client-side logic

This project models the logic inside the React components of an analytics and
token-moderation console. The network calls and the markup are left out.
Fetched data is an input, and each component's React state becomes the fields
of a class whose methods are the component's handlers. The modelled parts are:

- **The four token and user tables** (spam mechanism, spam tokens, active tokens, waitlist).
  Each runs the same pipeline: an optional categorical or range filter, then a
  multi-term, case-insensitive search, then a page slice. The tables add:
  - score buckets (spam mechanism);
  - an "automated" filter (spam tokens);
  - a selection set and the bulk-save payload (active tokens);
  - a CSV export (waitlist).
- **The holding-export job poller.** It requests a job and then polls its status.
- **The session-expiry interceptor of the API client.**
- **The shared search box.**
- **The dashboard helpers:**
  - chain-name maps and address truncation;
  - the e-mail pattern and the date-order guard;
  - the per-chain metric cards (which lines a card shows, and how the Solana row is augmented);
  - the dashboard form's query-key entries, query enablement and earn-count lookup.

Modules:

| module | file | models |
|---|---|---|
| `Common` | common.dfy | absent values (`null`/`undefined`), `Number(...)` results, the error normalisation every table's `catch` applies |
| `Text` | text.dfy | `trim`, `\s`, `toLowerCase`, `split`, `join`, `includes`, `padStart`, decimal rendering and `parseInt` |
| `Listing` | listing.dfy | `Array.prototype.filter`, `slice`, page windows, the multi-term search |
| `ChainLabels` | chain_labels.dfy | the `replace("-mainnet","").split("-")…join(" ")` chain label |
| `SpamMechanism`, `SpamTokens`, `ActiveTokens`, `WhitelistTable` | spam_mechanism.dfy, spam_tokens.dfy, active_tokens.dfy, whitelist_table.dfy | the four tables |
| `ExportHolding` | export_holding.dfy | the export job and its status poll |
| `ApiClient` | api_client.dfy | default headers, the response interceptor, the query key |
| `CustomSearch` | custom_search.dfy | the search box |
| `AnalyticsHolding` | analytics_holding.dfy | the holding tab's formatters, e-mail and date validation, and form state |
| `TokenModal` | token_modal.dfy | the per-user token modal |
| `MetricCards` | metric_cards.dfy | the card-line selection and card grid shared by the two analytics tabs |
| `TransactionAnalytics`, `VolumeAnalytics` | transaction_analytics.dfy, volume_analytics.dfy | the two analytics tabs |
| `MonthlyActive` | monthly_active.dfy | the dashboard page: form, query-key entries, enablement, earn counts |

How JavaScript values are represented:

- `null` and `undefined` are both `None`.
- `Number(x)` is a `JsNumber`, which is an exact real or `NaN`.
- `\s` is the ECMAScript white-space and line-terminator set.
- `toLowerCase` and `toUpperCase` act on ASCII letters.

## Model

Source paths are relative to the repository root.

| member | source | states |
|---|---|---|
| Common.NormalizeError | src/modules/tokens/components/SpamMechanism.tsx:119-128 | The stored error follows a fixed order: a truthy response body first (a JSON error is kept as it is, a non-empty text body as text), then a non-empty `message`, then a thrown string, else the view's fallback text. |
| Common.TextBodyToasted | src/modules/tokens/components/SpamMechanism.tsx:119-132 | A non-empty text response body becomes the stored error as text and is raised as the toast. |
| Common.Toast | src/modules/tokens/components/SpamMechanism.tsx:130-132 | A toast is raised exactly when the stored error is a string, and it carries that string. |
| Common.ResponseList | src/modules/tokens/components/SpamMechanism.tsx:117 | `response \|\| []`: an absent list is the empty list; a present list is kept as it is. |
| Text.TrimIsInnerPiece | src/components/CustomSearch/CustomSearch.tsx:34 | `trim()` returns a contiguous piece of the input with only white space cut from each end; the piece is empty or starts and ends with a non-space. |
| Text.TrimIdempotent | src/components/CustomSearch/CustomSearch.tsx:64 | Trimming a trimmed text changes nothing. |
| Text.TrimEmptyIffAllSpace | src/modules/tokens/components/ActiveTokens.tsx:215 | A text trims to "" exactly when every character is white space (the "blank search" test). |
| Text.LowerTrimCommute | src/modules/tokens/components/SpamMechanism.tsx:231 | Lower-casing and trimming commute. |
| Text.SplitJoin | src/modules/tokens/components/SpamMechanism.tsx:279-284 | Joining parts that do not contain the separator and then splitting gives back the parts. |
| Text.JoinSplit | src/modules/tokens/components/SpamMechanism.tsx:279-284 | Splitting on a character and joining with the same character gives back the text. |
| Text.SplitSpacesNoSpace | src/modules/tokens/components/SpamMechanism.tsx:231 | `split(/\s+/)` yields terms with no white space in them. |
| Text.SplitSpacesContained | src/modules/tokens/components/SpamMechanism.tsx:231 | Every term of `split(/\s+/)` occurs in the split text. |
| Text.DecimalRoundTrip | src/modules/whitelist/WhitelistTable.tsx:66-71 | Reading back the decimal rendering of a number gives the number. |
| Text.DecimalNoLeadingZero | src/modules/whitelist/WhitelistTable.tsx:66-71 | A decimal rendering starts with '0' only for zero. |
| Text.PadStart | src/modules/whitelist/WhitelistTable.tsx:67-71 | `padStart` makes the text at least as wide as asked, keeps the text as its suffix and fills the front with the fill character. |
| Text.TwoDigitField | src/modules/whitelist/WhitelistTable.tsx:67-71 | For n < 100, `String(n).padStart(2, '0')` is two digits that read back as n. |
| Text.LeadingDigits | src/modules/dashboard/components/monthlyActive.tsx:197-202 | The digit run `parseInt` reads is the longest prefix of digits of the radix. |
| Text.ParseIntDecimal | src/modules/dashboard/components/monthlyActive.tsx:197-202 | `parseInt(String(n)) === n` for every non-negative integer. |
| Listing.FilterIsSubsequence | src/modules/tokens/components/SpamMechanism.tsx:203-244 | `filter` returns an order-preserving subsequence of its input. |
| Listing.FilterCounts | src/modules/tokens/components/SpamMechanism.tsx:203-244 | `filter` keeps every accepted element as often as it occurs and drops every rejected one. |
| Listing.FilterKeepsAll | src/modules/tokens/components/ActiveTokens.tsx:215 | A filter that accepts every element returns the list unchanged. |
| Listing.FilterFuse | src/modules/tokens/components/SpamMechanism.tsx:203-244 | Two filters in a row equal one filter by both tests. |
| Listing.FilterAppend | src/modules/dashboard/components/transactionAnalytics.tsx:113-124 | Filtering a concatenation filters each part. |
| Listing.ClampIndex | src/modules/tokens/components/SpamMechanism.tsx:246-250 | `slice` resolves an index into [0, length], keeping indices already in range. |
| Listing.PageWindow | src/modules/tokens/components/SpamMechanism.tsx:246-250 | A page is the window [(current-1)·pageSize, current·pageSize) of the list, cut at its end. It never holds more than pageSize rows and is empty once the start is at or past the end. |
| Listing.PagesCoverList | src/modules/tokens/components/SpamMechanism.tsx:246-250 | With a positive page size, row i appears on page i / pageSize + 1 at position i % pageSize. |
| Listing.SearchSpec | src/modules/tokens/components/SpamMechanism.tsx:230-241 | A blank search returns the list. Otherwise the search keeps, in order, exactly the records whose text contains every lowered, white-space-split term. |
| Listing.SearchAsFilter | src/modules/tokens/components/SpamMechanism.tsx:230-241 | The search stage equals a filter by any test that agrees with "blank, or every term matches". |
| Listing.TermsOfQuery | src/modules/tokens/components/SpamMechanism.tsx:231 | Every search term is white-space free and occurs in the lowered, trimmed query. |
| Listing.WholeQueryMatches | src/modules/tokens/components/SpamMechanism.tsx:231-241 | A record whose text contains the whole lowered, trimmed query survives the search. |
| ChainLabels.IndexOf | src/modules/tokens/components/SpamMechanism.tsx:280 | `indexOf` finds the first occurrence of the pattern, and None means it occurs nowhere. |
| ChainLabels.ChainTitleChars | src/modules/tokens/components/SpamMechanism.tsx:279-284 | After the first "-mainnet" is dropped, the label has the same length as the rest. Each '-' becomes a space, the first letter and each letter after a '-' is upper-cased, and every other character is kept. |
| ChainLabels.NoMainnetUnchanged | src/modules/dashboard/components/volumeAnalytics.tsx:38-43 | An identifier without "-mainnet" keeps its characters before the split. |
| ChainLabels.MainnetSuffixDropped | src/modules/dashboard/components/volumeAnalytics.tsx:38-43 | A name followed by its first "-mainnet" loses exactly that suffix. |
| ChainLabels.MainnetTitle | src/modules/dashboard/components/transactionAnalytics.tsx:38-43 | A single-word name followed by "-mainnet" is labelled by the name with its first letter upper-cased. |
| SpamMechanism.MechanismParamsSpec | src/modules/tokens/components/SpamMechanism.tsx:94-107 | `chain`, `order_by` and `order_by_date` are each sent exactly when their state is non-empty, carrying that state. No parameter is sent exactly when all three are empty. |
| SpamMechanism.MechanismParamsOrder | src/modules/tokens/components/SpamMechanism.tsx:94-107 | The parameters appear in the order they are appended: `chain`, then `order_by`, then `order_by_date`, with no name twice. |
| SpamMechanism.MechanismUrlSpec | src/modules/tokens/components/SpamMechanism.tsx:109-112 | The URL carries '?' and the query string exactly when some parameter is set, and is the bare path otherwise. |
| SpamMechanism.ScoreBucketBounds | src/modules/tokens/components/SpamMechanism.tsx:207-227 | "below-50" keeps scores below 50. "50-60" to "80-90" are half-open ranges of width 10. "90-100" is closed. An unknown range keeps everything. NaN fails every comparison. |
| SpamMechanism.ScoreBucketsPartition | src/modules/tokens/components/SpamMechanism.tsx:207-227 | Any score up to 100 lies in one bucket and no score lies in two. A score above 100, or NaN, lies in none. |
| SpamMechanism.EmptyRangeKeepsAll | src/modules/tokens/components/SpamMechanism.tsx:206 | With no range chosen every score is kept. |
| SpamMechanism.FilteredIsOneFilter | src/modules/tokens/components/SpamMechanism.tsx:203-244 | The score filter followed by the search equals one filter by "in range and matches". |
| SpamMechanism.FilteredTokensSpec | src/modules/tokens/components/SpamMechanism.tsx:203-244 | `filteredTokens` is an order-preserving subsequence of `tokens` and holds exactly the tokens in range that match. With no range and a blank search it is `tokens` itself. |
| SpamMechanism.PaginatedTokensSpec | src/modules/tokens/components/SpamMechanism.tsx:246-250 | A page holds at most pageSize rows, all of them kept tokens, and is empty past the end of the filtered list. |
| SpamMechanism.SpamMechanismView.Rows | src/modules/tokens/components/SpamMechanism.tsx:246-250 | The rows on screen number at most pageSize and are all tokens that survive the filters. |
| SpamMechanism.SpamMechanismView.constructor | src/modules/tokens/components/SpamMechanism.tsx:52-77 | Initial state: empty list and filters, no error or dialog, page 1 of size 15, total 0. |
| SpamMechanism.SpamMechanismView.BeginFetch | src/modules/tokens/components/SpamMechanism.tsx:87-88 | A fetch shows the spinner and clears the error. |
| SpamMechanism.SpamMechanismView.FetchSucceeded | src/modules/tokens/components/SpamMechanism.tsx:117-134 | The list becomes the response (or empty), the total its length, and the spinner stops. |
| SpamMechanism.SpamMechanismView.FetchFailed | src/modules/tokens/components/SpamMechanism.tsx:119-134 | The error is normalised with "Failed to fetch spam tokens", the list is emptied, and a string error is toasted. |
| SpamMechanism.SpamMechanismView.BeginMove | src/modules/tokens/components/SpamMechanism.tsx:144-147 | The row's `${address}-${chain}` key is marked busy and the error cleared; both row buttons are then disabled. |
| SpamMechanism.SpamMechanismView.EndMove | src/modules/tokens/components/SpamMechanism.tsx:163-181 | The row key is released whether or not the move failed. Success toasts "Token moved successfully" and asks for the list to be fetched again. A failure stores the error, normalised with "Failed to move token", toasts it when it is text, and fetches nothing. |
| SpamMechanism.SpamMechanismView.ShowMoveConfirm | src/modules/tokens/components/SpamMechanism.tsx:185-188 | The move dialog opens for that row. |
| SpamMechanism.SpamMechanismView.MoveConfirm | src/modules/tokens/components/SpamMechanism.tsx:190-196 | The dialog closes. The selected row's address and chain are moved, and nothing is moved when no row was selected. |
| SpamMechanism.SpamMechanismView.MoveCancel | src/modules/tokens/components/SpamMechanism.tsx:198-201 | The dialog closes and the row is forgotten. |
| SpamMechanism.SpamMechanismView.SelectChain | src/modules/tokens/components/SpamMechanism.tsx:391-396 | Choosing a chain stores it and returns to page 1. |
| SpamMechanism.SpamMechanismView.SortScoreMenu | src/modules/tokens/components/SpamMechanism.tsx:448-463 | The "Sort Score" menu writes the date order, not the score order, and returns to page 1. |
| SpamMechanism.SpamMechanismView.SortDateMenu | src/modules/tokens/components/SpamMechanism.tsx:500-506 | The "Sort Date" menu writes the date order and returns to page 1. |
| SpamMechanism.SpamMechanismView.SelectScoreRange | src/modules/tokens/components/SpamMechanism.tsx:548 | Choosing a score range stores it and leaves the page where it is. |
| SpamMechanism.SpamMechanismView.SetSearch | src/modules/tokens/components/SpamMechanism.tsx:589-602 | Typing, searching or clearing stores the text and returns to page 1. |
| SpamMechanism.SpamMechanismView.ChangePage | src/modules/tokens/components/SpamMechanism.tsx:710-716 | The pager sets the page and the size, and a missing size falls back to 20. |
| SpamTokens.AutomatedFilterMatchesCell | src/modules/tokens/components/SpamTokens.tsx:207-301 | "true" keeps exactly the rows whose Automated cell reads "True", and "false" exactly those that read "False". The cell reads "N/A" exactly for an absent flag, which both filters drop. "all" keeps every row. |
| SpamTokens.NameCellSortKey | src/modules/tokens/components/SpamTokens.tsx:255-257 | The Name cell is never empty. It shows the sort key (name, else symbol) when there is one, and "N/A" exactly when both are missing or empty. |
| SpamTokens.FilteredIsOneFilter | src/modules/tokens/components/SpamTokens.tsx:204-230 | The automated filter followed by the search equals one filter by both tests. |
| SpamTokens.FilteredTokensSpec | src/modules/tokens/components/SpamTokens.tsx:204-230 | The filtered list is an order-preserving subsequence holding exactly the tokens that pass the automated filter and match name, symbol, address or chain. With "all" and a blank search it is the list itself. |
| SpamTokens.PaginatedTokensSpec | src/modules/tokens/components/SpamTokens.tsx:237-241 | A page holds at most pageSize rows, all kept, and is empty past the end. |
| SpamTokens.SpamTokensView.Rows | src/modules/tokens/components/SpamTokens.tsx:237-241 | The rows on screen number at most pageSize and all survive the filters. |
| SpamTokens.SpamTokensView.TotalBadge | src/modules/tokens/components/SpamTokens.tsx:447 | The "Total Spam Tokens" badge counts the filtered list, which is never longer than the list. |
| SpamTokens.SpamTokensView.constructor | src/modules/tokens/components/SpamTokens.tsx:35-57 | Initial state: filter "all", nothing busy, page 1 of size 15. |
| SpamTokens.SpamTokensView.BeginFetch | src/modules/tokens/components/SpamTokens.tsx:60-61 | A fetch shows the spinner and clears the error. |
| SpamTokens.SpamTokensView.FetchSucceeded | src/modules/tokens/components/SpamTokens.tsx:69-86 | The list becomes the response, the total its length, and the spinner stops. |
| SpamTokens.SpamTokensView.FetchFailed | src/modules/tokens/components/SpamTokens.tsx:71-87 | The error is normalised with "Failed to fetch spam tokens", the list is emptied, and a string error is toasted. |
| SpamTokens.SpamTokensView.BeginDelete | src/modules/tokens/components/SpamTokens.tsx:96-99 | The row key is marked delete-busy, so both row buttons are disabled. |
| SpamTokens.SpamTokensView.EndDelete | src/modules/tokens/components/SpamTokens.tsx:108-125 | The delete flag of the key is reset. The row stays busy only while its move flag is set. Success toasts "Token removed from spam list" and asks for the list to be fetched again. A failure stores the error, normalised with "Failed to remove token from spam list", and fetches nothing. |
| SpamTokens.SpamTokensView.BeginMove | src/modules/tokens/components/SpamTokens.tsx:128-131 | The row key is marked move-busy. |
| SpamTokens.SpamTokensView.EndMove | src/modules/tokens/components/SpamTokens.tsx:146-163 | The move flag of the key is reset. The row stays busy only while its delete flag is set. Success toasts "Token moved successfully" and asks for the list to be fetched again. A failure stores the normalised error and fetches nothing. |
| SpamTokens.SpamTokensView.ShowDeleteConfirm | src/modules/tokens/components/SpamTokens.tsx:167-170 | The delete dialog opens for that row. |
| SpamTokens.SpamTokensView.DeleteConfirm | src/modules/tokens/components/SpamTokens.tsx:172-178 | The dialog closes and the selected row, if any, is deleted. |
| SpamTokens.SpamTokensView.DeleteCancel | src/modules/tokens/components/SpamTokens.tsx:180-183 | The dialog closes and the row is forgotten. |
| SpamTokens.SpamTokensView.ShowMoveConfirm | src/modules/tokens/components/SpamTokens.tsx:186-189 | The move dialog opens for that row. |
| SpamTokens.SpamTokensView.MoveConfirm | src/modules/tokens/components/SpamTokens.tsx:191-197 | The dialog closes and the selected row, if any, is moved. |
| SpamTokens.SpamTokensView.MoveCancel | src/modules/tokens/components/SpamTokens.tsx:199-202 | The dialog closes and the row is forgotten. |
| SpamTokens.SpamTokensView.SelectAutomated | src/modules/tokens/components/SpamTokens.tsx:385-390 | Choosing an automated option stores it and returns to page 1. |
| SpamTokens.SpamTokensView.SetSearch | src/modules/tokens/components/SpamTokens.tsx:421-435 | Typing, searching or clearing stores the text and returns to page 1. |
| SpamTokens.SpamTokensView.ChangePage | src/modules/tokens/components/SpamTokens.tsx:461-468 | The pager sets page and size, and a missing size falls back to 20. |
| ActiveTokens.FilteredTokensSpec | src/modules/tokens/components/ActiveTokens.tsx:214-229 | A blank search returns the same list. Otherwise the result is the order-preserving subsequence of tokens whose name, symbol, address or chain text contains every term. |
| ActiveTokens.PaginatedTokensSpec | src/modules/tokens/components/ActiveTokens.tsx:231-235 | A page holds at most pageSize rows, all matching, and is empty past the end. |
| ActiveTokens.WithoutSpec | src/modules/tokens/components/ActiveTokens.tsx:248-249 | `Set.delete` removes exactly that address and keeps the set free of duplicates. |
| ActiveTokens.ToggledSelectionSpec | src/modules/tokens/components/ActiveTokens.tsx:243-253 | A checkbox change makes its address a member exactly when checked. Every other address keeps its membership, and the selection stays a set. |
| ActiveTokens.SavePayload | src/modules/tokens/components/ActiveTokens.tsx:119-124 | The save payload has one entry per selected address, in selection order, each tagged with the chosen chain. |
| ActiveTokens.MoveSinglePayload | src/modules/tokens/components/ActiveTokens.tsx:161-168 | Moving one row sends a one-entry list with that row's own address and chain. |
| ActiveTokens.FetchParams | src/modules/tokens/components/ActiveTokens.tsx:72-81 | No request is made when no chain is chosen. Otherwise the request carries exactly that chain. |
| ActiveTokens.ActiveTokensView.constructor | src/modules/tokens/components/ActiveTokens.tsx:50-70 | Initial state: chain "solana-mainnet", empty selection and list, page 1 of size 15. |
| ActiveTokens.ActiveTokensView.Rows | src/modules/tokens/components/ActiveTokens.tsx:231-235 | The rows on screen number at most pageSize and all match the search. |
| ActiveTokens.ActiveTokensView.BeginFetch | src/modules/tokens/components/ActiveTokens.tsx:72-76 | With no chain nothing changes. Otherwise the spinner starts, the error clears and the chain is requested. |
| ActiveTokens.ActiveTokensView.FetchSucceeded | src/modules/tokens/components/ActiveTokens.tsx:82-100 | The list becomes the response, the total its length, and the spinner stops. |
| ActiveTokens.ActiveTokensView.FetchFailed | src/modules/tokens/components/ActiveTokens.tsx:84-100 | The error is normalised with "Failed to fetch tokens", the list emptied, and a string error toasted. |
| ActiveTokens.ActiveTokensView.OnTabOrChain | src/modules/tokens/components/ActiveTokens.tsx:103-109 | On the active tab the page resets to 1 and a fetch starts; on another tab nothing changes. |
| ActiveTokens.ActiveTokensView.SelectChain | src/modules/tokens/components/ActiveTokens.tsx:345 | The chain menu stores the chain. |
| ActiveTokens.ActiveTokensView.SetSearch | src/modules/tokens/components/ActiveTokens.tsx:384-388 | Typing stores the text and returns to page 1. |
| ActiveTokens.ActiveTokensView.ChangePage | src/modules/tokens/components/ActiveTokens.tsx:438-443 | The pager sets page and size, and a missing size falls back to 20. |
| ActiveTokens.ActiveTokensView.Toggle | src/modules/tokens/components/ActiveTokens.tsx:243-253 | After a checkbox change the address is selected exactly when checked, and other addresses are unaffected. |
| ActiveTokens.ActiveTokensView.BeginSave | src/modules/tokens/components/ActiveTokens.tsx:111-124 | An empty selection warns "Please select at least one token" and sends nothing. Otherwise the save payload is sent with the spinner on. |
| ActiveTokens.ActiveTokensView.EndSave | src/modules/tokens/components/ActiveTokens.tsx:126-151 | Success toasts "Tokens moved to spam successfully", clears the selection and asks for the list to be fetched again. Failure keeps the selection, stores the error, normalised with "Failed to save tokens", and fetches nothing. The spinner stops either way. |
| ActiveTokens.ActiveTokensView.BeginMove | src/modules/tokens/components/ActiveTokens.tsx:153-168 | The row key is marked busy and the one-entry payload is sent. |
| ActiveTokens.ActiveTokensView.EndMove | src/modules/tokens/components/ActiveTokens.tsx:175-192 | The row key is released. Success toasts "Token moved to spam successfully" and asks for the list to be fetched again. A failure stores the error and fetches nothing. |
| ActiveTokens.ActiveTokensView.ShowMoveConfirm | src/modules/tokens/components/ActiveTokens.tsx:195-198 | The move dialog opens for that row. |
| ActiveTokens.ActiveTokensView.MoveConfirm | src/modules/tokens/components/ActiveTokens.tsx:200-206 | The dialog closes and the selected row, if any, is moved. |
| ActiveTokens.ActiveTokensView.MoveCancel | src/modules/tokens/components/ActiveTokens.tsx:208-211 | The dialog closes and the row is forgotten. |
| WhitelistTable.FormatDateLayout | src/modules/whitelist/WhitelistTable.tsx:63-74 | A valid date renders as `YYYY-MM-DD HH:MM:SS`: the year, then two-digit fields that read back as the 1-based month, the day, the hours, the minutes and the seconds, with '-', ' ' and ':' between them. |
| WhitelistTable.FormatDateIsOneLine | src/modules/whitelist/WhitelistTable.tsx:63-74 | A rendered date (an invalid one gives "NaN" fields) holds only digits, '-', ' ', ':', 'N' and 'a', so it contains no line break and no quote. |
| WhitelistTable.CsvRows | src/modules/whitelist/WhitelistTable.tsx:103-108 | There is one CSV row per user, in order. |
| WhitelistTable.HeaderIsOneLine | src/modules/whitelist/WhitelistTable.tsx:100-112 | The header line has no line break. |
| WhitelistTable.RowIsOneLine | src/modules/whitelist/WhitelistTable.tsx:103-113 | A user whose e-mail has no line break gives a one-line row. |
| WhitelistTable.CsvLines | src/modules/whitelist/WhitelistTable.tsx:100-114 | When no e-mail contains a line break, the CSV splits on "\n" into the header line followed by one line per user, so it has users + 1 lines. |
| WhitelistTable.FilteredUsersSpec | src/modules/whitelist/WhitelistTable.tsx:146-161 | A blank search returns the users. Otherwise it keeps, in order, exactly the users whose e-mail, id or locale dates contain every term. |
| WhitelistTable.PaginatedUsersSpec | src/modules/whitelist/WhitelistTable.tsx:163-167 | A page holds at most pageSize users, all matching, and is empty past the end. |
| WhitelistTable.FailureMessage | src/modules/whitelist/WhitelistTable.tsx:49-52 | The toast is the JSON body's non-empty `message`, else the error's `message`, else the fallback text. A text body has no `message`, so it falls through. The toast is never empty when the fallback is not. |
| WhitelistTable.WhitelistView.constructor | src/modules/whitelist/WhitelistTable.tsx:18-27 | Initial state: no users, page 1 of size 15. |
| WhitelistTable.WhitelistView.TableTotal | src/modules/whitelist/WhitelistTable.tsx:261 | The pager total is the filtered count. It never exceeds the user count and equals it for a blank search. |
| WhitelistTable.WhitelistView.BeginFetch | src/modules/whitelist/WhitelistTable.tsx:29-30 | A fetch starts the spinner. |
| WhitelistTable.WhitelistView.FetchSucceeded | src/modules/whitelist/WhitelistTable.tsx:46-57 | The users become `waitlist \|\| []` and the total becomes its length. |
| WhitelistTable.WhitelistView.FetchFailed | src/modules/whitelist/WhitelistTable.tsx:49-57 | The users are emptied and the toast uses "Failed to fetch waitlist users" as fallback. |
| WhitelistTable.WhitelistView.BeginExport | src/modules/whitelist/WhitelistTable.tsx:78-85 | With the IAM URL or key missing, no request is sent and the configuration error is toasted. |
| WhitelistTable.WhitelistView.FinishExport | src/modules/whitelist/WhitelistTable.tsx:96-137 | A success produces the CSV of the returned users and "Exported n users to CSV". A failure produces no file and its message. |
| WhitelistTable.WhitelistView.SetSearch | src/modules/whitelist/WhitelistTable.tsx:215-219 | Typing stores the text and returns to page 1. |
| WhitelistTable.WhitelistView.ChangePage | src/modules/whitelist/WhitelistTable.tsx:265-269 | The pager sets page and size, and a missing size falls back to 15. |
| ExportHolding.ExportParamsSpec | src/modules/dashboard/components/exportHolding.tsx:57-64 | `type` is always sent. `start_date` and `end_date` are sent exactly when non-empty. |
| ExportHolding.Check | src/modules/dashboard/components/exportHolding.tsx:35-51 | One status check costs one request and downloads at most one file. A download ends the poll with the spinner off. |
| ExportHolding.PendingThenReady | src/modules/dashboard/components/exportHolding.tsx:35-51 | k "pending" answers and then a ready file make exactly k + 1 status requests and one download. The spinner stops and nothing more is checked. |
| ExportHolding.CheckFailureStops | src/modules/dashboard/components/exportHolding.tsx:48-50 | A failed status request stops the poll with the spinner off, no retry and no download. |
| ExportHolding.UnknownStatusStops | src/modules/dashboard/components/exportHolding.tsx:42-47 | "complete" without a URL, or any status other than "pending", stops polling but leaves the spinner as it was. |
| ExportHolding.PollBounds | src/modules/dashboard/components/exportHolding.tsx:35-51 | Any run of answers opens the file at most once and makes at most one request per answer. |
| ExportHolding.ExportPoller.HandleExport | src/modules/dashboard/components/exportHolding.tsx:53-64 | An empty export type does nothing. Any other type starts the spinner and requests the job with those parameters. |
| ExportHolding.ExportPoller.ExportAnswered | src/modules/dashboard/components/exportHolding.tsx:65-70 | A job id starts the poll, and no job id starts nothing. A failure stops the spinner. |
| ExportHolding.ExportPoller.CheckJobStatus | src/modules/dashboard/components/exportHolding.tsx:35-51 | One check performs the step `Check` describes. |
| ExportHolding.ExportPoller.RunScheduledChecks | src/modules/dashboard/components/exportHolding.tsx:45-46 | Re-running the scheduled check until the poll ends reaches the state `Poll` describes, with one request per answer used. |
| ApiClient.HeadersCarryToken | src/hooks/useApiClient.ts:11-18 | Every request carries `Authorization: Bearer <token>`, `X-API-KEY: <token>` and `accept: application/json`. |
| ApiClient.Settle | src/hooks/useApiClient.ts:24-38 | Successes pass unchanged. A 401 or 403 becomes `Error("Session Expired")`. Other errors, and errors with no response, are rejected unchanged. |
| ApiClient.DispatchedAtMostOnce | src/hooks/useApiClient.ts:21-34 | Through one client instance (one `isSessionExpired` flag), over any run of responses `setToken("")` is dispatched at most once, and exactly once when that flag was clear and some response was 401 or 403. |
| ApiClient.DispatchesSplit | src/hooks/useApiClient.ts:21-34 | Dispatches over a run of responses are the first response's dispatches followed by the rest's, with the flag it left. |
| ApiClient.QueryKey | src/hooks/useApiClient.ts:50 | The GET query key is `[key]` when a key is given, else `[url]`. |
| ApiClient.Client.Intercept | src/hooks/useApiClient.ts:24-38 | The interceptor settles as `Settle` says, sets the flag on the first 401/403, and dispatches only while the flag was clear. |
| CustomSearch.BorderOf | src/components/CustomSearch/CustomSearch.tsx:49-55 | The border is red exactly when there is an error text, blue exactly when there is none and the box has the focus, and grey otherwise. |
| CustomSearch.InputChangeIsTrimmed | src/components/CustomSearch/CustomSearch.tsx:33-36 | Typing reports trimmed text to `onChange`. |
| CustomSearch.SearchesAreTrimmed | src/components/CustomSearch/CustomSearch.tsx:27-45 | Enter and the search button search for trimmed text. Other keys do nothing. Clear reports "" and then `onClear`. |
| CustomSearch.BlurIsTrimmed | src/components/CustomSearch/CustomSearch.tsx:62-67 | Leaving the box reports trimmed text. |
| CustomSearch.BlurReportsIffPadded | src/components/CustomSearch/CustomSearch.tsx:62-67 | Leaving the box reports something exactly when the value starts or ends with white space. |
| CustomSearch.TypedThenBlurred | src/components/CustomSearch/CustomSearch.tsx:33-67 | After typing, leaving the box reports nothing more, and searching searches for exactly the stored text. |
| CustomSearch.SearchBox.Focus | src/components/CustomSearch/CustomSearch.tsx:61 | Focus sets the focus flag. |
| CustomSearch.SearchBox.Blur | src/components/CustomSearch/CustomSearch.tsx:62-67 | Blur clears the focus flag and makes at most one `onChange` call. |
| AnalyticsHolding.FormatChainName | src/modules/dashboard/components/analyticsHolding.tsx:117-128 | base, solana and worldchain "-mainnet" map to Base, Solana and WLD; any other input is returned unchanged. |
| AnalyticsHolding.FormatAddress | src/modules/dashboard/components/analyticsHolding.tsx:397-401 | "" gives "-", and up to 6 characters are returned as they are. A longer address gives its first 3 characters, "..." and its last 3. |
| AnalyticsHolding.FormatAddressShort | src/modules/dashboard/components/analyticsHolding.tsx:397-401 | The result is at most 9 characters or the address itself, and keeps the first and last character. |
| AnalyticsHolding.FindChar | src/modules/dashboard/components/analyticsHolding.tsx:267 | Finds the first occurrence of a character, and None means it occurs nowhere. |
| AnalyticsHolding.ValidateEmailIsShape | src/modules/dashboard/components/analyticsHolding.tsx:266-269 | `/^[^\s@]+@[^\s@]+\.[^\s@]+$/` holds exactly when there is no white space, exactly one '@', a non-empty local part, and a '.' in the domain that is neither its first nor its last character. |
| AnalyticsHolding.BlankIsNotEmail | src/modules/dashboard/components/analyticsHolding.tsx:288-297 | A blank input never passes the pattern. |
| AnalyticsHolding.IsAfterStrict | src/modules/dashboard/components/analyticsHolding.tsx:310-311 | "is after" is a strict total order on calendar days. |
| AnalyticsHolding.DateChange | src/modules/dashboard/components/analyticsHolding.tsx:314-334 | A date change is rejected exactly when both dates are set and the end is not strictly after the start. An accepted change writes that one field and leaves the dates in order. |
| AnalyticsHolding.TableTotal | src/modules/dashboard/components/analyticsHolding.tsx:768-770 | The pager total is totalPages × pageSize, or 0 when totalPages is missing or 0. |
| AnalyticsHolding.HoldingView.constructor | src/modules/dashboard/components/analyticsHolding.tsx:240-250 | Initial state: empty e-mail, no dates, page 1 of size 15. |
| AnalyticsHolding.HoldingView.EnabledQueryIsMeaningful | src/modules/dashboard/components/analyticsHolding.tsx:361 | When the holding query is enabled it has a valid searched e-mail or a date. |
| AnalyticsHolding.HoldingView.EmailInputChange | src/modules/dashboard/components/analyticsHolding.tsx:271-286 | An input change stores the text and clears both errors. The searched e-mail resets to "" only for a blank text. |
| AnalyticsHolding.HoldingView.EmailSearch | src/modules/dashboard/components/analyticsHolding.tsx:288-304 | Blank input sets "Email is required" and an invalid one sets the invalid-address error; both leave the searched e-mail unchanged. A valid one sets it and clears the error. |
| AnalyticsHolding.HoldingView.HandleDateChange | src/modules/dashboard/components/analyticsHolding.tsx:314-334 | A rejected change leaves the form as it was. An accepted one applies `DateChange` and clears the error. |
| AnalyticsHolding.HoldingView.PageChange | src/modules/dashboard/components/analyticsHolding.tsx:336-342 | The pager sets page and size, and a missing size falls back to 10. |
| AnalyticsHolding.HoldingView.QueryFailed | src/modules/dashboard/components/analyticsHolding.tsx:363-375 | The error is normalised with "Failed to load holding analytics" and a string error is toasted. |
| TokenModal.ChainNamesAgree | src/modules/dashboard/components/TokenModal.tsx:37-49 | The modal's map lookup with fallback names every chain as the holding tab's switch does. |
| TokenModal.TruncateAddress | src/modules/dashboard/components/TokenModal.tsx:51-56 | "" gives "". Any other address gives its first 4 characters, "..." and its last 4, with no length guard. |
| TokenModal.ShortAddressRepeated | src/modules/dashboard/components/TokenModal.tsx:51-56 | An address of at most 4 characters is shown twice around the "...". |
| TokenModal.ChainSummaries | src/modules/dashboard/components/TokenModal.tsx:125-145 | There is one summary per chain, in entry order, and its token count is that chain's list length. |
| TokenModal.SummariesAddUp | src/modules/dashboard/components/TokenModal.tsx:120-145 | The summaries' counts add up to `totalTokenCount`. |
| TokenModal.FlattenLength | src/modules/dashboard/components/TokenModal.tsx:120-374 | The flattened list is as long as `totalTokenCount`. |
| TokenModal.FlattenIndex | src/modules/dashboard/components/TokenModal.tsx:366-374 | Token j of chain i sits after all tokens of the earlier chains and is tagged with its chain. |
| TokenModal.FlattenTokens | src/modules/dashboard/components/TokenModal.tsx:366-374 | The nested `forEach`/`push` loops build exactly the flattened, chain-tagged list, as long as `totalTokenCount`. |
| TokenModal.SpamTokensData | src/modules/dashboard/components/TokenModal.tsx:376-385 | With no spam tokens in the response the list is empty. Otherwise it is the flattened, tagged spam tokens. |
| TokenModal.SpamFetchParams | src/modules/dashboard/components/TokenModal.tsx:392-393 | `address` is always sent first. `solana` is sent exactly when the Solana address is non-empty, and carries it. |
| TokenModal.TokenModalView.BeginSpamFetch | src/modules/dashboard/components/TokenModal.tsx:388-398 | A spam fetch sets loading, clears the old result and sends those parameters. |
| TokenModal.TokenModalView.EndSpamFetch | src/modules/dashboard/components/TokenModal.tsx:399-405 | A success stores the response. A failure stores the error "Failed to fetch spam tokens". Loading stops either way. |
| TokenModal.TokenModalView.OnOpenChange | src/modules/dashboard/components/TokenModal.tsx:509-517 | Opening with an address fetches. Closing resets the spam tokens to null and loading to false. |
| MetricCards.GetFilteredFields | src/modules/dashboard/components/transactionAnalytics.tsx:104-137 | The two filters and the `push` loop build exactly the card lines `FilteredFields` describes. |
| MetricCards.StandardFields | src/modules/dashboard/components/transactionAnalytics.tsx:104-137 | For five base lines of the standard shape, a card shows the first three. It then shows the swapped line except on Worldchain and the Dapp line only when its value is shown, and on Solana it appends the chain's extra lines. |
| MetricCards.FinalData | src/modules/dashboard/components/transactionAnalytics.tsx:139-152 | Loading shows two skeletons. Otherwise the grid shows one card per row in order, or a single empty-row card when there are no rows. |
| TransactionAnalytics.AugmentedTransactionData | src/modules/dashboard/components/transactionAnalytics.tsx:82-102 | Rows keep their count and order, and non-Solana rows are unchanged. The Solana row's total grows by the two earn totals and gains the four earn counts; its other counts are unchanged. |
| TransactionAnalytics.CardFieldsSpec | src/modules/dashboard/components/transactionAnalytics.tsx:104-137 | Total, sent and received always appear, in that order. Swapped appears except on Worldchain. Dapp appears only when present and non-zero. Solana appends its four count lines. |
| TransactionAnalytics.BaseFieldsStandard | src/modules/dashboard/components/transactionAnalytics.tsx:105-111 | Of the base labels only the fourth mentions "Swapped" and only the fifth mentions "Dapp". |
| TransactionAnalytics.AugmentedCardsDefined | src/modules/dashboard/components/transactionAnalytics.tsx:82-137 | After augmentation every line a card lists has a value to show. |
| TransactionAnalytics.EmptyGrid | src/modules/dashboard/components/transactionAnalytics.tsx:139-152 | With no data the grid is one "N/A" card showing the total, sent, received and swapped lines, with its zero Dapp line hidden. |
| TransactionAnalytics.GridFollowsRows | src/modules/dashboard/components/transactionAnalytics.tsx:139-152 | A loaded, non-empty grid shows one augmented card per row, in order. |
| VolumeAnalytics.JsAdd | src/modules/dashboard/components/volumeAnalytics.tsx:86-89 | A sum is NaN exactly when an operand is. |
| VolumeAnalytics.AugmentedVolumeData | src/modules/dashboard/components/volumeAnalytics.tsx:82-102 | Rows keep count and order, and non-Solana rows are unchanged. The Solana row gains the four earn amounts, and its numeric total grows by the two earn totals; its other volumes are unchanged. |
| VolumeAnalytics.CardFieldsSpec | src/modules/dashboard/components/volumeAnalytics.tsx:104-144 | Total, sent and received always appear. Swapped appears except on Worldchain. Dapp appears when present and not zero, and a NaN Dapp volume is shown. Solana appends its four amount lines. |
| VolumeAnalytics.BaseFieldsStandard | src/modules/dashboard/components/volumeAnalytics.tsx:105-111 | Of the base labels only the fourth mentions "Swapped" and only the fifth mentions "Dapp". |
| VolumeAnalytics.AugmentedCardsDefined | src/modules/dashboard/components/volumeAnalytics.tsx:82-144 | After augmentation every line a card lists has a value to show. |
| VolumeAnalytics.EmptyGrid | src/modules/dashboard/components/volumeAnalytics.tsx:148-161 | With no data the grid is one "N/A" card with four lines, its zero Dapp line hidden. |
| MonthlyActive.PutSpec | src/modules/dashboard/components/monthlyActive.tsx:101-108 | `{ ...prev, [name]: value }` makes that field read back as written. Every other field reads as before, and keys stay distinct. |
| MonthlyActive.CommonParamsSpec | src/modules/dashboard/components/monthlyActive.tsx:111-117 | `commonParams` keeps the form's order. An entry is kept exactly when its value is undefined or does not trim to "". Each field reads as in the form unless its string is blank. These entries only form the react-query keys of the volume and transaction queries. |
| MonthlyActive.EnabledSpec | src/modules/dashboard/components/monthlyActive.tsx:128-173 | The earn and active-user queries never run without the volume and transaction queries. The latter run alone exactly when only a chain is set. The address field enables nothing. |
| MonthlyActive.GridsWaitForAllQueries | src/modules/dashboard/components/monthlyActive.tsx:180-223 | `loading` is the OR of the four query flags. While any query loads, both card grids show two skeletons, and only afterwards do they show rows. |
| MonthlyActive.FindIndex | src/modules/dashboard/components/monthlyActive.tsx:189-192 | `find` returns the first accepted entry, and None means no entry is accepted. |
| MonthlyActive.CountOfFirstMatch | src/modules/dashboard/components/monthlyActive.tsx:189-202 | If the first entry for a mint has count text String(n), the count is n. |
| MonthlyActive.CountWithoutMatch | src/modules/dashboard/components/monthlyActive.tsx:197-202 | With no entry for a mint the count is 0. |
| MonthlyActive.EarnCountsSpec | src/modules/dashboard/components/monthlyActive.tsx:184-202 | With no earn answer every count is 0. Deposit counts read only the deposit list (matched on `token_in`), and withdrawal counts only the withdraw list (matched on `token_out`). |
| MonthlyActive.MonthlyActiveView.constructor | src/modules/dashboard/components/monthlyActive.tsx:96-97 | The page opens with an empty form on the "active" tab, so no query is enabled. |
| MonthlyActive.MonthlyActiveView.HandleChange | src/modules/dashboard/components/monthlyActive.tsx:101-103 | A select change writes that field only. |
| MonthlyActive.MonthlyActiveView.HandleDateChange | src/modules/dashboard/components/monthlyActive.tsx:105-108 | A date change stores the formatted day, or undefined when cleared, with no check against the other date. A picked day enables every query. |
| MonthlyActive.MonthlyActiveView.ChangeTab | src/modules/dashboard/components/monthlyActive.tsx:255 | The tab bar records the chosen tab. |

## Left out

- Rendering: JSX, styling, widgets, icons, tooltips, and the shape of `message.*` toasts. A toast is modelled as the string it carries.
- Network and react-query: requests are not made. Responses and failures are method parameters, and so are the query hooks' `isLoading` flags.
- Timers: the 3000 ms poll delay is "one more scheduled check". The debounce timer of the holding search is not modelled.
- The refetch after a successful move, save or removal is the `refetch` result of the `End*` method; the fetch itself is the view's `BeginFetch` and `FetchSucceeded`/`FetchFailed` called afterwards. In the source the refetch is awaited before the `finally` releases the busy flag, so the model does not capture that the flag is still set while the list reloads.
- ApiClient.DispatchedAtMostOnce: holds for one client instance only. `useApiClient` builds a new axios instance and a new `isSessionExpired = false` on every call (src/hooks/useApiClient.ts:7-21), so every render of every view that uses the hook starts with a clear flag; across re-renders or several views `setToken("")` can be dispatched again, and the model does not bound that.
- Races between in-flight requests (a stale response overwriting newer state) are not modelled; every method runs to completion in turn.
- Floating point:
  - USD and balance sums, `toFixed`, `toLocaleString` and the `parseFloat` sorts of the holding and modal tables are not modelled.
  - The deposit and withdraw amounts and their totals in monthlyActive.tsx:195-196,199-200,203-208 are not modelled; only the counts are.
- VolumeAnalytics.AugmentedVolumeData: adds the Solana total exactly, as real numbers. It does not model `parseFloat` of the total text or floating-point rounding, or that the sum is turned back into a string.
- TransactionAnalytics.AugmentedTransactionData: takes the two earn totals as parameters. The page's `earnMetrics` does not produce those totals, so in the real page they read as undefined; that mismatch between the two files is not modelled.
- The counts `MonthlyActive` computes are not wired into `TransactionAnalytics.EarnMetrics`: the counts can be NaN (None) while the card model takes integers.
- Dates and locale:
  - `new Date`, `dayjs`, `toLocaleDateString` and `date.format("YYYY-MM-DD")` are parameters: an `Instant` with local fields, a locale-date function, a calendar date, or an already formatted string.
  - The CSV file name's date is not modelled.
- `commonParams` never reaches the server: `useGetRequest` fetches the bare URL (src/hooks/useApiClient.ts:49-53), and monthlyActive.tsx:126 and :140 put the entries only in the query key. The model states what the entries are and does not model them as request parameters.
- URL encoding: query strings are modelled for values that need no percent-encoding.
- The analytics-holding `queryParams` object, the row expansion, the selected-user modal and the clipboard copy are not modelled.
- Browser side effects: `window.location.href` navigation is modelled as an appended download URL. The Blob/anchor download is modelled as the CSV text it would contain.
- `toLowerCase` and `toUpperCase` are modelled on ASCII letters only. Other characters are left as they are.
- AnalyticsHolding.FormatChainName and TokenModal.FormatChainName: a chain named after an `Object.prototype` member (such as "constructor") is treated as unknown. The map lookup in TokenModal.tsx:46-48 would return the inherited member instead.
- The sorters (`localeCompare`, numeric column sorts) are not modelled. They only order the rows the table shows.
- CustomSearch: the clear button's visibility (`ShowsClear`) is a predicate with no separate lemma.
- ChainLabels: the three concrete labels ("Solana", "Base", "Worldchain") follow from `MainnetTitle` but are not stated as separate lemmas.
- The login check, the layout menu and the routing components are not part of this model.
