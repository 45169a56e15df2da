# Kozane portfolio ledger in Dafny

Kozane's dashboard page keeps a small portfolio ledger in component state:

- a cash `budget`;
- an ordered list of tracked `tokens`, each with a `name` (ticker), a CoinPaprika `id`, the amount `invested` and an optional `price`;
- the text fields the user types into: `input` for the budget, `newToken` for a ticker, and one amount per token in `investmentInputs`.

Four handlers change this state:
- adding to the budget;
- adding a token, resolved through a fixed five-entry ticker table;
- investing part of the budget in a token;
- storing a price once a fetch for a new token settles.

The budget page repeats the add-to-budget handler on a state of its own.

The model has five modules:

- `Wrappers`: an `Option` type. It stands for NaN, `null` and `undefined`.
- `Symbols`: the ticker table, and JavaScript's `trim()` and `toUpperCase()` as far as ticker resolution needs them.
- `Positions`: the `Token` record, and the pure updaters the handlers pass to `setTokens`. Its lemmas cover conservation of funds, name uniqueness and the bound of five tokens.
- `Dashboard`: class `DashboardPage`, whose fields are the dashboard's state. Each handler is one method and one atomic transition. The methods keep the invariant `Valid()`: names are distinct known tickers with their own ids, and no amount invested is negative.
- `Budget`: class `BudgetPage`, the budget page.

`parseFloat` is a parameter `parse: string -> Option<real>`, with None where JavaScript gives NaN. The price fetch is an input `Option<real>` to `ReceivePrice`. The `Example…` methods are client sessions proved from the methods' contracts alone.

Behaviours of the code the model keeps:
- Adding to the budget accepts zero and negative amounts, so the budget can become negative.
- The price updater writes `undefined` on `null` and does not keep an earlier value.
- A rejected amount is ignored silently. No error is reported.

## Model

| member | source | states |
|---|---|---|
| Symbols.LookupId | frontend/app/dashboard/page.tsx:6-12 | a name resolves exactly when it is one of BTC, ETH, SOL, DOGE, XRP, and then to that key's non-empty id, so `!id` rejects only absent keys. This holds for a name without lower-case letters, as every normalised name is; JavaScript's inherited keys such as `constructor` all contain lower-case letters |
| Symbols.TrimStart | frontend/app/dashboard/page.tsx:63 | the result is the longest suffix that does not start with JavaScript white space; everything dropped is white space |
| Symbols.TrimEnd | frontend/app/dashboard/page.tsx:63 | the result is the longest prefix that does not end with JavaScript white space; everything dropped is white space |
| Symbols.Trim | frontend/app/dashboard/page.tsx:63 | `trim()` returns a slice of the text with only white space cut off on either side, and the result neither starts nor ends with white space |
| Symbols.UpperChar | frontend/app/dashboard/page.tsx:63 | upper-casing maps `a`–`z` to the letter at the same place in `A`–`Z`, dotless i to `I` and long s to `S`; it leaves no lower-case ASCII letter, maps white space to white space and nothing else to it, and keeps every character other than `a`–`z`, dotless i and long s |
| Symbols.ToUpper | frontend/app/dashboard/page.tsx:63 | `toUpperCase()` keeps the length, maps each character through `UpperChar`, and leaves no lower-case ASCII letter |
| Symbols.Normalise | frontend/app/dashboard/page.tsx:63 | the normalised symbol is no longer than the text, has no lower-case ASCII letter, and has no white space at either end |
| Symbols.SliceOfSuffix | frontend/app/dashboard/page.tsx:63 | cutting white space off the front and then off the back leaves a slice of the text with only white space around it |
| Symbols.TrimPadded | frontend/app/dashboard/page.tsx:63 | `trim()` of a text padded with white space on both sides gives back the text, when it has no white space at its ends |
| Symbols.PaddingAndCaseIgnored | frontend/app/dashboard/page.tsx:63-64 | any spelling of a known ticker, in any letter case and with white space on either side, normalises to the ticker and resolves to its id |
| Symbols.CaseIgnored | frontend/app/dashboard/page.tsx:63-64 | a text that spells a ticker letter for letter, each letter in upper or lower case, upper-cases to the ticker and resolves to its id |
| Symbols.LowerCasePaddedEth | frontend/app/dashboard/page.tsx:63-64 | the text `" eth "` normalises to `ETH` and resolves to `eth-ethereum` |
| Positions.Tracked | frontend/app/dashboard/page.tsx:65 | `tokens.some(t => t.name === name)` holds exactly when the name occurs in the list at least once |
| Positions.NewEntry | frontend/app/dashboard/page.tsx:67 | the new entry carries the name and id, has nothing invested and no price, and forms a well-formed list on its own when the id is the one the name resolves to |
| Positions.Added | frontend/app/dashboard/page.tsx:63-68 | adding a token keeps the earlier entries and appends at most one entry, at the end. One is appended exactly when the normalised name resolves and is not yet tracked, and it is the new entry with the table's id |
| Positions.Credited | frontend/app/dashboard/page.tsx:79-85 | the invest updater keeps the list's length; entries with another name are unchanged; a named entry changes only in `invested`, which grows by the amount |
| Positions.Repriced | frontend/app/dashboard/page.tsx:47-50 | the price updater keeps the list's length; entries with another name are unchanged; a named entry changes only in `price`, which becomes the fetched value, or `undefined` on `null`, with no earlier value kept |
| Positions.DistinctOccurrences | frontend/app/dashboard/page.tsx:65 | in a list with distinct names, a name occurs once if `tokens.some` finds it and never otherwise |
| Positions.DistinctNamesCount | frontend/app/dashboard/page.tsx:65-68 | a list with distinct names has exactly as many names as entries, and a name is among them exactly when it is tracked |
| Positions.FiveTickers | frontend/app/dashboard/page.tsx:6-12 | the ticker table has five distinct keys |
| Positions.AtMostFiveTokens | frontend/app/dashboard/page.tsx:62-69 | a reachable token list has at most five entries, because names are distinct keys of the table |
| Positions.TotalInvestedAppend | frontend/app/dashboard/page.tsx:67-68 | appending an entry adds its `invested` to the total |
| Positions.CreditedTotal | frontend/app/dashboard/page.tsx:79-85 | crediting `v` to a name raises the total invested by `v` times the number of entries with that name |
| Positions.RepricedTotal | frontend/app/dashboard/page.tsx:47-50 | a price update leaves the total invested unchanged |
| Positions.InvestConserves | frontend/app/dashboard/page.tsx:77-86 | moving `v` from the budget into a tracked token preserves `budget + Σ invested` |
| Positions.InvestUntrackedLoses | frontend/app/dashboard/page.tsx:79-86 | for a name not in the list, the updater credits nobody, so `budget + Σ invested` drops by the amount; the page never makes this call, so conservation is stated for tracked names |
| Positions.CreditedWellFormed | frontend/app/dashboard/page.tsx:77-85 | crediting a non-negative amount keeps names distinct, ids matching the table, and every `invested` non-negative |
| Positions.RepricedWellFormed | frontend/app/dashboard/page.tsx:47-50 | a price update keeps the token list well formed |
| Positions.AddedKeeps | frontend/app/dashboard/page.tsx:62-69 | adding a token keeps the list well formed (in particular names stay distinct) and the total invested unchanged; afterwards the normalised name is tracked exactly when it resolves or was tracked before |
| Positions.AddedTwiceOnce | frontend/app/dashboard/page.tsx:65 | adding the same text a second time is a no-op, and a resolving name then occurs exactly once |
| Dashboard.DashboardPage.constructor | frontend/app/dashboard/page.tsx:22-28 | the page starts with budget 0, empty fields, no tokens and no per-token inputs, and the invariant holds |
| Dashboard.DashboardPage.EditInput | frontend/app/dashboard/page.tsx:106 | typing sets `input` and nothing else |
| Dashboard.DashboardPage.EditNewToken | frontend/app/dashboard/page.tsx:126 | typing sets `newToken` and nothing else |
| Dashboard.DashboardPage.EditInvestmentInput | frontend/app/dashboard/page.tsx:158-163 | typing sets one token's entry of `investmentInputs` and keeps the others |
| Dashboard.DashboardPage.AddBudget | frontend/app/dashboard/page.tsx:54-60 | text that parses to NaN leaves `budget` and `input` unchanged; a parsed value `v` of any sign makes `budget` the old budget plus `v` and clears `input`; nothing else changes |
| Dashboard.DashboardPage.AddToken | frontend/app/dashboard/page.tsx:62-73 | the text is trimmed and upper-cased. A known ticker that is not yet tracked gets exactly one entry appended at the end, with the table's id, nothing invested and no price. The earlier entries are kept, `newToken` is cleared, and that entry is the one whose fetch starts. Otherwise `tokens` and `newToken` are unchanged and no fetch starts. The invariant is kept |
| Dashboard.DashboardPage.Invest | frontend/app/dashboard/page.tsx:75-88 | an amount that is NaN, missing (a name with no input reads as NaN), `<= 0` or above the budget leaves `budget`, `tokens` and `investmentInputs` unchanged. Otherwise `budget` falls by `v`, only the named token's `invested` rises by `v`, and its input is cleared. For a tracked name `budget + Σ invested` is preserved, a non-negative budget stays non-negative, and the invariant is kept |
| Dashboard.DashboardPage.ReceivePrice | frontend/app/dashboard/page.tsx:45-51 | when a fetch settles, only the `price` of the entry with the token's name changes, to the fetched value or to absent for `null`; the total invested and the invariant are kept |
| Budget.BudgetPage.constructor | frontend/app/budget/page.tsx:6-7 | the budget page starts with budget 0 and an empty field |
| Budget.BudgetPage.EditInput | frontend/app/budget/page.tsx:31 | typing sets `input` and nothing else |
| Budget.BudgetPage.SetBudget | frontend/app/budget/page.tsx:9-15 | text that parses to NaN leaves `budget` and `input` unchanged. Any other value, zero and negatives included, is added to `budget`. `input` is cleared exactly when the value is accepted |

## Left out

- `fetchPaprikaPrice` (frontend/app/dashboard/page.tsx:31-42) is an HTTP call plus JSON parsing. The model does not include it. Its result, a price or `null`, is the `price` argument of `ReceivePrice`.
- React's state setters, their batching and the fire-and-forget timing of `fetchTokenPriceAndSet` are not modelled. Each handler is one atomic transition, and `AddToken` returns the entry whose fetch it starts. Any number of other transitions may happen before `ReceivePrice` is applied.
- `parseFloat` is a function parameter. Its string parsing is not modelled.
- Numbers are `real`. IEEE-754 rounding, `Infinity` (which `parseFloat` accepts) and `-0` are not modelled.
- `Symbols.ToUpper` maps only `a`–`z`, dotless i (U+0131) and long s (U+017F). Every other character is kept as it is. The other Unicode case mappings are omitted: none of them can turn a text into one of the five tickers, so resolution is unaffected.
- A missing `investmentInputs[name]` is treated as NaN directly, which is what `parseFloat(undefined)` gives.
- Rendering, `toLocaleString`/`toFixed` formatting and currency symbols are not modelled. frontend/app/components/Navbar.tsx, frontend/app/page.tsx and frontend/app/assets/page.tsx are static markup and are not part of this model.
- On the page, `fetchTokenPriceAndSet` runs only from `handleAddToken` (frontend/app/dashboard/page.tsx:72), once per name, because re-adding is rejected and tokens are never removed. Each entry therefore gets at most one price result, and until one arrives the price is absent. A fetch may also never settle, since it has no timeout; if the page unmounts first, no price is stored. `ReceivePrice` is not restricted that way: it may be applied any number of times, for any token.
