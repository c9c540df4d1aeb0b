/** The stock search palette: its state, the events that change it, and the
    status text and list it renders. The network lookup is an input: the
    outcome it delivered. */
module Palette {
  import opened Text
  import opened Stocks
  import opened Dedup

  /** An optional prop. */
  datatype Option<T> = None | Some(value: T)

  /** `initialStocks ?? []`: an absent list reads as the empty one. */
  function InitialList(initialStocks: Option<seq<Stock>>): (r: seq<Stock>)
    ensures initialStocks.Some? ==> r == initialStocks.value
    ensures initialStocks.None? ==> r == []
  {
    match initialStocks
    case Some(xs) => xs
    case None => []
  }

  /** How many entries default mode shows at most. */
  const PopularLimit: nat := 10

  const LoadingText := "Loading stocks..."
  const NoResultsText := "No results found"
  const NoStocksText := "No stocks available"
  const SearchTitle := "Search results"
  const PopularTitle := "Popular stocks"

  /** `!!searchTerm.trim()`: the palette is searching exactly when the query
      holds a character that is not white space. */
  predicate IsSearchMode(term: string)
    ensures IsSearchMode(term) <==> exists i :: 0 <= i < |term| && !IsWhitespace(term[i])
  {
    |Trim(term)| > 0
  }

  /** `isSearchMode ? stocks : stocks.slice(0, 10)`: search mode shows the
      whole list, default mode its first ten entries. */
  function DisplayStocks(term: string, stocks: seq<Stock>): (r: seq<Stock>)
    ensures IsSearchMode(term) ==> r == stocks
    ensures !IsSearchMode(term) ==>
      && |r| == (if |stocks| < PopularLimit then |stocks| else PopularLimit)
      && forall i :: 0 <= i < |r| ==> r[i] == stocks[i]
  {
    if IsSearchMode(term) || |stocks| <= PopularLimit then stocks
    else stocks[..PopularLimit]
  }

  /** The component's state: `open`, `searchTerm`, `loading`, `stocks`. */
  datatype State = State(open: bool, searchTerm: string, loading: bool, stocks: seq<Stock>)

  /** The state the component mounts with: closed, empty query, idle, and
      holding the initial list. */
  function Mount(initialStocks: Option<seq<Stock>>): (st: State)
    ensures !st.open && !st.loading && st.searchTerm == ""
    ensures !IsSearchMode(st.searchTerm)
    ensures st.stocks == InitialList(initialStocks)
  {
    State(false, "", false, InitialList(initialStocks))
  }

  /** The list that is rendered: the displayed entries, deduplicated. It
      has unique keys, covers every key of the displayed entries, is empty
      exactly when the state holds no stocks, and holds at most ten entries
      in default mode. */
  function UniqueDisplay(st: State): (r: seq<Stock>)
    ensures DistinctKeys(r)
    ensures KeysOf(r) == KeysOf(DisplayStocks(st.searchTerm, st.stocks))
    ensures KeysOf(r) <= KeysOf(st.stocks)
    ensures |r| == 0 <==> |st.stocks| == 0
    ensures !IsSearchMode(st.searchTerm) ==> |r| <= PopularLimit
  {
    var shown := DisplayStocks(st.searchTerm, st.stocks);
    assert |st.stocks| > 0 ==> shown[0] in shown && Key(shown[0]) in KeysOf(shown);
    UniqueStocks(shown)
  }

  // ---------------------------------------------------------------------
  // The keyboard shortcut

  datatype KeyEvent = KeyEvent(key: string, metaKey: bool, ctrlKey: bool)

  /** `(e.metaKey || e.ctrlKey) && e.key.toLowerCase() === "k"`: a modifier
      is held and the key is "k", "K" or the Kelvin sign. */
  predicate IsToggleShortcut(e: KeyEvent)
    ensures IsToggleShortcut(e) <==>
      (e.metaKey || e.ctrlKey) && (e.key == "k" || e.key == "K" || e.key == "\U{212A}")
  {
    LowerIsK(e.key);
    (e.metaKey || e.ctrlKey) && ToLower(e.key) == "k"
  }

  /** The state after a keydown, and whether its default action was
      prevented. */
  datatype KeyOutcome = KeyOutcome(state: State, defaultPrevented: bool)

  /** The window keydown listener: Meta or Ctrl with the key "k", "K" or the
      Kelvin sign flips `open` and prevents the default action; any other
      key event changes nothing. */
  function OnKeyDown(st: State, e: KeyEvent): (r: KeyOutcome)
    ensures r.defaultPrevented <==>
      (e.metaKey || e.ctrlKey) && (e.key == "k" || e.key == "K" || e.key == "\U{212A}")
    ensures r.state.open == (st.open != r.defaultPrevented)
    ensures r.state == st.(open := r.state.open)
  {
    if IsToggleShortcut(e) then KeyOutcome(st.(open := !st.open), true)
    else KeyOutcome(st, false)
  }

  /** Pressing the shortcut twice gives back the state it started from. */
  lemma ShortcutTwiceRestores(st: State, e: KeyEvent)
    ensures OnKeyDown(OnKeyDown(st, e).state, e).state == st
  {
  }

  // ---------------------------------------------------------------------
  // Opening, closing and typing

  /** The button or the text trigger sets `open` to true. */
  function OpenPalette(st: State): (r: State)
    ensures r.open
    ensures r == st.(open := r.open)
  {
    st.(open := true)
  }

  /** The dialog reports a new open flag (escape, outside click) and the
      palette stores it as it is. */
  function DialogOpenChange(st: State, open: bool): (r: State)
    ensures r.open == open
    ensures r == st.(open := r.open)
  {
    st.(open := open)
  }

  /** The input reports a new query text. */
  function EditQuery(st: State, term: string): (r: State)
    ensures r.searchTerm == term
    ensures r == st.(searchTerm := r.searchTerm)
  {
    st.(searchTerm := term)
  }

  // ---------------------------------------------------------------------
  // handleSearch

  /** What the lookup delivered: the returned list, or a thrown error. */
  datatype Lookup = Found(results: seq<Stock>) | Failed

  /** handleSearch up to its await: either it settles at once, or it is
      awaiting the lookup for `query`. */
  datatype SearchStart = Settled(state: State) | Awaiting(state: State, query: string)

  /** The synchronous part of handleSearch. Outside search mode it restores
      the initial list and leaves `loading` alone; in search mode it sets
      `loading` and asks for the trimmed query, which is non-empty and
      neither starts nor ends with white space. */
  function StartSearch(st: State, initialStocks: Option<seq<Stock>>): (r: SearchStart)
    ensures r.Settled? <==> AllWhitespace(st.searchTerm)
    ensures r.Settled? ==> r.state == st.(stocks := InitialList(initialStocks))
    ensures r.Awaiting? ==> r.state == st.(loading := true)
    ensures r.Awaiting? ==>
      && r.query == Trim(st.searchTerm)
      && |r.query| > 0
      && !IsWhitespace(r.query[0]) && !IsWhitespace(r.query[|r.query| - 1])
  {
    if !IsSearchMode(st.searchTerm) then Settled(st.(stocks := InitialList(initialStocks)))
    else Awaiting(st.(loading := true), Trim(st.searchTerm))
  }

  /** The part of handleSearch after the await, applied to whatever state
      the palette is in when the lookup answers: the list becomes the
      answer, or empty on an error, and `loading` is cleared. */
  function FinishSearch(st: State, outcome: Lookup): (r: State)
    ensures !r.loading
    ensures r == st.(loading := false, stocks := r.stocks)
    ensures outcome.Found? ==> r.stocks == outcome.results
    ensures outcome.Failed? ==> r.stocks == []
  {
    match outcome
    case Found(results) => st.(stocks := results, loading := false)
    case Failed => st.(stocks := [], loading := false)
  }

  /** handleSearch when nothing happens while the lookup is out. */
  function HandleSearch(st: State, initialStocks: Option<seq<Stock>>, outcome: Lookup): (r: State)
    ensures !IsSearchMode(st.searchTerm) ==> r == st.(stocks := InitialList(initialStocks))
    ensures IsSearchMode(st.searchTerm) && outcome.Found? ==>
      r == st.(stocks := outcome.results, loading := false)
    ensures IsSearchMode(st.searchTerm) && outcome.Failed? ==>
      r == st.(stocks := [], loading := false)
  {
    match StartSearch(st, initialStocks)
    case Settled(s) => s
    case Awaiting(s, _) => FinishSearch(s, outcome)
  }

  // ---------------------------------------------------------------------
  // handleSelectStock

  /** Choosing an entry closes the palette, clears the query and restores
      the initial list; `loading` is left as it was. */
  function SelectStock(st: State, initialStocks: Option<seq<Stock>>): (r: State)
    ensures !r.open && r.searchTerm == "" && r.stocks == InitialList(initialStocks)
    ensures r.loading == st.loading
  {
    State(false, "", st.loading, InitialList(initialStocks))
  }

  // ---------------------------------------------------------------------
  // What is rendered

  /** The list area: the loading notice, an empty-list notice, or a titled
      count followed by the entries. */
  datatype Body =
    | LoadingNotice(text: string)
    | EmptyNotice(text: string)
    | Listing(title: string, count: nat, items: seq<Stock>)

  /** The dialog's open flag, whether the spinner beside the input shows,
      and the list area. */
  datatype View = View(open: bool, spinner: bool, body: Body)

  /** The render: the loading notice exactly while loading; otherwise an
      empty notice exactly when the state holds no stocks, worded by mode;
      otherwise a title by mode, a count equal to the number of entries
      listed, and the deduplicated displayed list. */
  function Render(st: State): (v: View)
    ensures v.open == st.open && v.spinner == st.loading
    ensures v.body.LoadingNotice? <==> st.loading
    ensures v.body.LoadingNotice? ==> v.body.text == LoadingText
    ensures v.body.EmptyNotice? <==> !st.loading && |st.stocks| == 0
    ensures v.body.EmptyNotice? ==>
      v.body.text == (if IsSearchMode(st.searchTerm) then NoResultsText else NoStocksText)
    ensures v.body.Listing? ==>
      && v.body.title == (if IsSearchMode(st.searchTerm) then SearchTitle else PopularTitle)
      && v.body.count == |v.body.items| > 0
      && v.body.items == UniqueDisplay(st)
      && DistinctKeys(v.body.items)
      && (!IsSearchMode(st.searchTerm) ==> v.body.count <= PopularLimit)
  {
    var unique := UniqueDisplay(st);
    var searching := IsSearchMode(st.searchTerm);
    var body :=
      if st.loading then LoadingNotice(LoadingText)
      else if |unique| == 0 then EmptyNotice(if searching then NoResultsText else NoStocksText)
      else Listing(if searching then SearchTitle else PopularTitle, |unique|, unique);
    View(st.open, st.loading, body)
  }

  // ---------------------------------------------------------------------
  // Properties relating the operations

  /** In default mode with at least ten stocks whose first ten keys are
      distinct, the palette lists "Popular stocks" with a count of ten: the
      first ten, whatever follows them. */
  lemma PopularListsFirstTen(st: State)
    requires !st.loading && !IsSearchMode(st.searchTerm)
    requires |st.stocks| >= PopularLimit && DistinctKeys(st.stocks[..PopularLimit])
    ensures Render(st).body == Listing(PopularTitle, PopularLimit, st.stocks[..PopularLimit])
  {
    var first := st.stocks[..PopularLimit];
    assert DisplayStocks(st.searchTerm, st.stocks) == first;
    UniqueStocksOfDistinct(first);
  }

  /** After a selection, the palette reopens in default mode on the first
      ten initial stocks, deduplicated, whatever was shown before. */
  lemma SelectThenReopenShowsInitial(st: State, initialStocks: Option<seq<Stock>>)
    ensures var reopened := OpenPalette(SelectStock(st, initialStocks));
      var initial := InitialList(initialStocks);
      && reopened.open && !IsSearchMode(reopened.searchTerm)
      && UniqueDisplay(reopened)
         == UniqueStocks(if |initial| <= PopularLimit then initial else initial[..PopularLimit])
  {
  }

  /** The render that follows a lookup answered in search mode: "No results
      found" when the answer (or the error) left no stocks, otherwise
      "Search results" with the answer deduplicated, in full. */
  lemma SearchAnswerRendered(st: State, initialStocks: Option<seq<Stock>>, outcome: Lookup)
    requires IsSearchMode(st.searchTerm)
    ensures var answer := if outcome.Found? then outcome.results else [];
      var body := Render(HandleSearch(st, initialStocks, outcome)).body;
      && (|answer| == 0 ==> body == EmptyNotice(NoResultsText))
      && (|answer| > 0 ==>
           body == Listing(SearchTitle, |UniqueStocks(answer)|, UniqueStocks(answer)))
  {
  }

  /** Closing through the dialog keeps the query and the list: only a
      selection clears them. */
  lemma ClosingKeepsQuery(st: State)
    ensures var closed := DialogOpenChange(st, false);
      && !closed.open
      && closed.searchTerm == st.searchTerm
      && closed.stocks == st.stocks
      && UniqueDisplay(closed) == UniqueDisplay(st)
  {
  }

  /** Nothing ties an answer to the query that asked for it: when a lookup
      for `x` answers after a later lookup for `y`, the list shows `x`'s
      answer under the query `y`; and the first answer already cleared
      `loading` while the other lookup was still out. */
  lemma LateAnswerWins(st: State, initialStocks: Option<seq<Stock>>, x: string, y: string,
                       forX: seq<Stock>, forY: seq<Stock>)
    requires !AllWhitespace(x) && !AllWhitespace(y)
    ensures var askedX := StartSearch(EditQuery(st, x), initialStocks).state;
      var askedY := StartSearch(EditQuery(askedX, y), initialStocks).state;
      var answeredY := FinishSearch(askedY, Found(forY));
      var answeredX := FinishSearch(answeredY, Found(forX));
      && askedY.loading && !answeredY.loading
      && answeredX.searchTerm == y && answeredX.stocks == forX
  {
  }

  /** Clearing the query while a lookup is out: the cleared query restores
      the initial list at once but leaves `loading` set, and the late answer
      then replaces the list, so default mode shows search results under
      the "Popular stocks" title. */
  lemma ClearedQueryOverwritten(st: State, initialStocks: Option<seq<Stock>>, results: seq<Stock>)
    requires IsSearchMode(st.searchTerm) && |results| > 0
    ensures var pending := StartSearch(st, initialStocks).state;
      var cleared := HandleSearch(EditQuery(pending, ""), initialStocks, Failed);
      var answered := FinishSearch(cleared, Found(results));
      && cleared.loading && cleared.stocks == InitialList(initialStocks)
      && answered.searchTerm == "" && answered.stocks == results
      && Render(answered).body.Listing?
      && Render(answered).body.title == PopularTitle
  {
  }
}
