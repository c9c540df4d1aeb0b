/** The first-seen deduplication the palette applies before rendering, so
    that the list's keys are unique. */
module Dedup {
  import opened Stocks

  /** The forEach over the list as a fold: an entry is kept when its key is
      not yet in `seen`, and its key joins `seen` when it is kept. */
  function DedupFrom(xs: seq<Stock>, seen: set<string>): (r: seq<Stock>)
    ensures |r| <= |xs|
    ensures DistinctKeys(r)
    ensures KeysOf(r) == KeysOf(xs) - seen
    decreases |xs|
  {
    if |xs| == 0 then []
    else
      var x := xs[0];
      KeysOfCons(x, xs[1..]);
      assert xs == [x] + xs[1..];
      if Key(x) in seen then DedupFrom(xs[1..], seen)
      else
        var rest := DedupFrom(xs[1..], seen + {Key(x)});
        KeysOfCons(x, rest);
        assert forall j :: 0 <= j < |rest| ==> rest[j] in rest;
        [x] + rest
  }

  /** The deduplicated list: no repeated key, no key lost, never longer. */
  function UniqueStocks(xs: seq<Stock>): (r: seq<Stock>)
    ensures |r| <= |xs|
    ensures DistinctKeys(r)
    ensures KeysOf(r) == KeysOf(xs)
  {
    DedupFrom(xs, {})
  }

  /** The TypeScript component's loop, with its `seen` set and its `result` list. */
  method UniqueDisplayStocks(display: seq<Stock>) returns (result: seq<Stock>)
    ensures result == UniqueStocks(display)
    ensures DistinctKeys(result) && KeysOf(result) == KeysOf(display)
  {
    var seen: set<string> := {};
    result := [];
    for i := 0 to |display|
      invariant result + DedupFrom(display[i..], seen) == UniqueStocks(display)
    {
      var s := display[i];
      assert display[i..] == [s] + display[i + 1..];
      var id := Key(s);
      if id !in seen {
        seen := seen + {id};
        result := result + [s];
      }
    }
    assert display[|display|..] == [];
  }

  /** One step of the fold. */
  lemma DedupFromCons(x: Stock, rest: seq<Stock>, seen: set<string>)
    ensures DedupFrom([x] + rest, seen)
      == if Key(x) in seen then DedupFrom(rest, seen)
         else [x] + DedupFrom(rest, seen + {Key(x)})
  {
  }

  /** Entry `i` is the first of `xs` to carry its key. */
  ghost predicate IsFirstOccurrence(xs: seq<Stock>, i: nat)
    requires i < |xs|
  {
    forall j :: 0 <= j < i ==> Key(xs[j]) != Key(xs[i])
  }

  /** Reference definition: the entries of `xs` from index `i` on that are
      first occurrences of their key, in input order. */
  ghost function FirstOccurrences(xs: seq<Stock>, i: nat): seq<Stock>
    requires i <= |xs|
    decreases |xs| - i
  {
    if i == |xs| then []
    else (if IsFirstOccurrence(xs, i) then [xs[i]] else []) + FirstOccurrences(xs, i + 1)
  }

  lemma KeysOfPrefix(xs: seq<Stock>, i: nat)
    requires i < |xs|
    ensures KeysOf(xs[..i + 1]) == KeysOf(xs[..i]) + {Key(xs[i])}
    ensures Key(xs[i]) in KeysOf(xs[..i]) <==> !IsFirstOccurrence(xs, i)
  {
  }

  /** One step of the fold, read against the prefix already seen. */
  lemma DedupFromStep(xs: seq<Stock>, i: nat)
    requires i < |xs|
    ensures DedupFrom(xs[i..], KeysOf(xs[..i]))
      == (if IsFirstOccurrence(xs, i) then [xs[i]] else [])
         + DedupFrom(xs[i + 1..], KeysOf(xs[..i + 1]))
  {
    var x, rest, seen := xs[i], xs[i + 1..], KeysOf(xs[..i]);
    assert xs[i..] == [x] + rest;
    DedupFromCons(x, rest, seen);
    KeysOfPrefix(xs, i);
    if Key(x) in seen {
      assert seen + {Key(x)} == seen;
    }
  }

  lemma {:induction false} DedupFromSuffix(xs: seq<Stock>, i: nat)
    requires i <= |xs|
    ensures DedupFrom(xs[i..], KeysOf(xs[..i])) == FirstOccurrences(xs, i)
    decreases |xs| - i
  {
    if i < |xs| {
      DedupFromStep(xs, i);
      DedupFromSuffix(xs, i + 1);
    }
  }

  /** The deduplicated list is exactly the subsequence of first
      occurrences, in input order. */
  lemma UniqueStocksIsFirstOccurrences(xs: seq<Stock>)
    ensures UniqueStocks(xs) == FirstOccurrences(xs, 0)
  {
    assert xs[..0] == [];
    assert KeysOf([]) == {};
    assert xs[0..] == xs;
    DedupFromSuffix(xs, 0);
  }

  lemma {:induction false} DedupFromKeepsDistinct(xs: seq<Stock>, seen: set<string>)
    requires DistinctKeys(xs) && KeysOf(xs) !! seen
    ensures DedupFrom(xs, seen) == xs
    decreases |xs|
  {
    if |xs| > 0 {
      var x := xs[0];
      assert xs == [x] + xs[1..];
      KeysOfCons(x, xs[1..]);
      assert Key(x) !in KeysOf(xs[1..]);
      DedupFromKeepsDistinct(xs[1..], seen + {Key(x)});
    }
  }

  /** A list whose keys are already distinct is left as it is. */
  lemma UniqueStocksOfDistinct(xs: seq<Stock>)
    requires DistinctKeys(xs)
    ensures UniqueStocks(xs) == xs
  {
    DedupFromKeepsDistinct(xs, {});
  }

  /** Deduplicating twice gives the same list as deduplicating once. */
  lemma UniqueStocksIdempotent(xs: seq<Stock>)
    ensures UniqueStocks(UniqueStocks(xs)) == UniqueStocks(xs)
  {
    UniqueStocksOfDistinct(UniqueStocks(xs));
  }

  /** Deduplication keeps the same symbol listed on two exchanges, and
      collapses a literal duplicate to its first copy. */
  lemma SameSymbolOtherExchange()
    ensures var nyse := Stock("AAA", "Triple A", "NYSE", "Common Stock", false);
      var lse := Stock("AAA", "Triple A", "LSE", "Common Stock", true);
      && UniqueStocks([nyse, lse]) == [nyse, lse]
      && UniqueStocks([nyse, nyse.(isInWatchlist := true)]) == [nyse]
  {
    var nyse := Stock("AAA", "Triple A", "NYSE", "Common Stock", false);
    var lse := Stock("AAA", "Triple A", "LSE", "Common Stock", true);
    var nyse' := nyse.(isInWatchlist := true);
    assert Key(nyse)[4] != Key(lse)[4];
    DedupFromCons(nyse, [lse], {});
    DedupFromCons(lse, [], {Key(nyse)});
    DedupFromCons(nyse, [nyse'], {});
    DedupFromCons(nyse', [], {Key(nyse)});
  }

  /** Deduplication compares keys, not pairs: of two different
      (symbol, exchange) pairs whose keys coincide, only the first survives. */
  lemma CollidingKeysCollapse()
    ensures var a := Stock("BRK-B", "Berkshire Hathaway B", "US", "Common Stock", false);
      var b := Stock("BRK", "Berkshire Hathaway", "B-US", "Common Stock", false);
      && (a.symbol, a.exchange) != (b.symbol, b.exchange)
      && UniqueStocks([a, b]) == [a]
  {
    KeyCollidesWithDash();
  }
}
