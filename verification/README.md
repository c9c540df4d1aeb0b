# Stock search palette — a Dafny model

This project models the state logic of the stock search palette of a
watch-list web application (`components/SearchCommand.tsx`). The palette is a
keyboard-invoked overlay. It keeps four pieces of state: whether it is
`open`, the query text `searchTerm`, a `loading` flag and the list of
`stocks`. From these it decides:

- whether it is in search mode or default mode;
- which entries it shows: the whole list, or the first ten;
- how it deduplicates them by the key `symbol + "-" + exchange`;
- which status or header text it renders.

The model has four modules:

- `Text` (`text.dfy`): the two string built-ins the palette calls.
  `Trim` follows ECMAScript `String.prototype.trim`, with its white-space and
  line-terminator set. `ToLower` is the part of `toLowerCase` that decides
  whether a key is "k".
- `Stocks` (`stocks.dfy`): the `Stock` record (`Stock & { isInWatchlist }`
  from `types/global.d.ts`) and the identity key. The key is built by string
  concatenation, exactly as the template string builds it.
- `Dedup` (`dedup.dfy`): the first-seen deduplication. `DedupFrom` is a fold
  with a set of keys seen so far. `UniqueDisplayStocks` is the component's loop
  with its `seen` set. `FirstOccurrences` is an independent reference
  definition.
- `Palette` (`palette.dfy`): the state record and its transitions. These are
  the Ctrl/Meta+K listener, the open and close events, typing,
  `handleSearch`, `handleSelectStock`, and the render.

`handleSearch` is asynchronous, so it is split at its `await`.
`StartSearch` is the part that runs before the lookup. `FinishSearch` is
the part that runs when the lookup answers, applied to whatever state the
palette has reached by then. `HandleSearch` composes the two for the case
where nothing happens in between. The network lookup is never called: its
outcome is an input, `Found(list)` or `Failed`.

## Behaviour worth knowing

- The key is a string, not a pair (components/SearchCommand.tsx:36).
  `KeyInjectiveWithoutDash` shows that it tells (symbol, exchange) pairs
  apart while symbols contain no dash. `KeyCollidesWithDash` and
  `CollidingKeysCollapse` show two different pairs sharing a key once a
  symbol may contain one. The rendered list's React keys (line 124) are the
  same string, and they stay unique either way (`UniqueDisplay`, `Render`).
- The dialog's `onOpenChange` stores the new open flag and nothing else
  (line 95). Closing with escape or an outside click keeps the query and the
  list; only a selection clears them (`ClosingKeepsQuery`).
- `handleSearch` keeps no request generation (lines 56-68). Whichever answer
  arrives last sets the list, and the first answer to arrive clears
  `loading` (`LateAnswerWins`, `ClearedQueryOverwritten`).

## Model

| member | source | states |
|---|---|---|
| `Text.Trim` | components/SearchCommand.tsx:28 | the result is the infix of the query left once leading and trailing ECMAScript white space is removed; neither end of it is white space; it is empty exactly when the query is all white space |
| `Text.TrimIdempotent` | components/SearchCommand.tsx:61 | trimming the already-trimmed query changes nothing |
| `Text.LowerIsK` | components/SearchCommand.tsx:47 | a key lower-cases to "k" exactly when it is "k", "K" or the Kelvin sign |
| `Stocks.Key` | components/SearchCommand.tsx:36 | the key of a stock is one character longer than its symbol and exchange together, with the dash right after the symbol |
| `Stocks.KeyLayout` | components/SearchCommand.tsx:124 | the key reads as the symbol, then the dash, then the exchange, the same string used as the React key |
| `Stocks.KeyInjectiveWithoutDash` | components/SearchCommand.tsx:36 | when neither symbol contains a dash, two stocks have equal keys exactly when their symbols and exchanges are equal |
| `Stocks.KeyCollidesWithDash` | components/SearchCommand.tsx:36 | the pairs ("BRK-B", "US") and ("BRK", "B-US") are different but share the key "BRK-B-US" |
| `Dedup.DedupFrom` | components/SearchCommand.tsx:33-41 | the fold never lengthens the list, keeps no two entries with one key, and keeps exactly the keys of the input that are not already seen |
| `Dedup.UniqueStocks` | components/SearchCommand.tsx:32-43 | the deduplicated list is no longer than the input, has pairwise distinct keys, and carries every key of the input |
| `Dedup.UniqueDisplayStocks` | components/SearchCommand.tsx:33-42 | the loop with its `seen` set returns the deduplicated list: distinct keys, and all keys of the input |
| `Dedup.UniqueStocksIsFirstOccurrences` | components/SearchCommand.tsx:35-41 | the deduplicated list is the subsequence of input entries that are the first with their key, in input order |
| `Dedup.UniqueStocksOfDistinct` | components/SearchCommand.tsx:35-41 | a list whose keys are already distinct comes back unchanged |
| `Dedup.UniqueStocksIdempotent` | components/SearchCommand.tsx:32-43 | deduplicating twice gives the same list as deduplicating once |
| `Dedup.SameSymbolOtherExchange` | components/SearchCommand.tsx:36-40 | one symbol on two exchanges keeps both entries; a literal duplicate collapses to its first copy |
| `Dedup.CollidingKeysCollapse` | components/SearchCommand.tsx:36-40 | two different (symbol, exchange) pairs with the same key collapse to the first |
| `Palette.InitialList` | components/SearchCommand.tsx:25 | a given initial list is used as it is; an absent one reads as the empty list |
| `Palette.IsSearchMode` | components/SearchCommand.tsx:28 | search mode holds exactly when the query holds a character that is not white space |
| `Palette.DisplayStocks` | components/SearchCommand.tsx:29 | search mode shows the list unchanged; default mode shows its first min(10, length) entries in order |
| `Palette.Mount` | components/SearchCommand.tsx:21-26 | the palette starts closed, idle, with the empty query (so in default mode), holding the initial list or the empty list when none is given |
| `Palette.UniqueDisplay` | components/SearchCommand.tsx:29-43 | the rendered list has distinct keys, covers the keys of the shown entries, is empty exactly when the state holds no stocks, and has at most ten entries in default mode |
| `Palette.IsToggleShortcut` | components/SearchCommand.tsx:47 | the shortcut test holds exactly when Meta or Ctrl is held and the key is "k", "K" or the Kelvin sign |
| `Palette.OnKeyDown` | components/SearchCommand.tsx:46-50 | Meta or Ctrl with "k", "K" or the Kelvin sign flips `open` and prevents the default action; every other key event leaves the state unchanged and is not prevented |
| `Palette.ShortcutTwiceRestores` | components/SearchCommand.tsx:49 | pressing the shortcut twice gives back the starting state |
| `Palette.OpenPalette` | components/SearchCommand.tsx:86-92 | the trigger opens the palette and changes nothing else |
| `Palette.DialogOpenChange` | components/SearchCommand.tsx:95 | the dialog's open flag is stored as given and nothing else changes |
| `Palette.EditQuery` | components/SearchCommand.tsx:97-99 | typing replaces the query and changes nothing else |
| `Palette.StartSearch` | components/SearchCommand.tsx:56-61 | it settles at once exactly when the query is all white space, restoring the initial list and leaving `loading` alone; otherwise it sets `loading`, changes nothing else, and asks for a non-empty query with no white space at either end |
| `Palette.FinishSearch` | components/SearchCommand.tsx:60-67 | when the lookup answers, the list becomes the answer, or empty on an error, and `loading` is cleared; query and open flag are kept |
| `Palette.HandleSearch` | components/SearchCommand.tsx:56-68 | default mode restores the initial list and leaves `loading` as it was; search mode ends with the returned list, or an empty one on failure, and `loading` false |
| `Palette.SelectStock` | components/SearchCommand.tsx:77-81 | a selection closes the palette, clears the query and restores the initial list; `loading` is kept |
| `Palette.Render` | components/SearchCommand.tsx:103-123 | the spinner and loading notice show exactly while loading; otherwise an empty notice shows exactly when no stocks are held, worded by mode; otherwise a mode title with a count equal to the number of distinct-key entries listed, at most ten in default mode |
| `Palette.PopularListsFirstTen` | components/SearchCommand.tsx:107-119 | in default mode with ten or more stocks whose first ten keys are distinct, the palette lists "Popular stocks" with count ten and those first ten entries, whatever follows them |
| `Palette.SelectThenReopenShowsInitial` | components/SearchCommand.tsx:77-81 | after a selection the palette reopens in default mode on the deduplicated first ten initial stocks |
| `Palette.SearchAnswerRendered` | components/SearchCommand.tsx:107-119 | after a search-mode lookup, an empty answer or an error shows "No results found"; any other answer is listed whole, deduplicated, under "Search results" |
| `Palette.ClosingKeepsQuery` | components/SearchCommand.tsx:95 | closing through the dialog keeps the query, the list and what it renders |
| `Palette.LateAnswerWins` | components/SearchCommand.tsx:56-68 | when the answer for an earlier query arrives after a later query's, the list shows the earlier answer under the later query; the first answer clears `loading` while the other lookup is still out |
| `Palette.ClearedQueryOverwritten` | components/SearchCommand.tsx:56-68 | clearing the query while a lookup is out restores the initial list but leaves `loading` set; the late answer then replaces the list and is shown under "Popular stocks" |

## Left out

- Debouncing (`useDebounce`, components/SearchCommand.tsx:14 and 70-75): its hook is not part of this model, and its point is timing. Which `handleSearch` calls happen, and when, is left to the caller of the model.
- The `searchStocks` server action (components/SearchCommand.tsx:61) is a network call. Its result is an input, `Lookup`.
- Registering and removing the window listener (components/SearchCommand.tsx:52-53) is event-loop lifecycle. Only the listener's effect is modelled.
- The link target `/stocks/${encodeURIComponent(symbol)}` (components/SearchCommand.tsx:128) calls a foreign encoder. The item text (line 136), JSX layout, CSS classes and the trigger's `renderAs`/`label` props are presentation.
- `Palette.Render` keeps the header as a title plus a count. It does not build the string "Popular stocks (10)" with decimal digits.
- `Text.ToLower` maps only the ASCII capitals and the Kelvin sign, so it is not general Unicode case mapping. The Unicode lower-case mappings send no other string to "k", so the shortcut test is unaffected.
- The null guards (`stocks?.`, `displayStocks || []`, `?.length ?? 0`) have nothing to guard in the model, because the state always holds a list.
- The sign-up page and the rest of `types/global.d.ts` are not part of this model.
