/** The stock records the palette lists, and the string the palette uses to
    tell two of them apart. */
module Stocks {

  /** A search result with its watch-list flag. The TypeScript component's `type`
      field is called `kind` here, because `type` is a Dafny keyword. */
  datatype Stock = Stock(
    symbol: string,
    name: string,
    exchange: string,
    kind: string,
    isInWatchlist: bool)

  /** The identity key: the template string `${symbol}-${exchange}`, built
      by concatenation, not kept as a pair. */
  function Key(s: Stock): (r: string)
    ensures |r| == |s.symbol| + 1 + |s.exchange| && r[|s.symbol|] == '-'
  {
    s.symbol + "-" + s.exchange
  }

  /** The key reads as the symbol, the dash, then the exchange. */
  lemma KeyLayout(s: Stock)
    ensures Key(s)[..|s.symbol|] == s.symbol
    ensures Key(s)[|s.symbol| + 1..] == s.exchange
  {
  }

  function KeysOf(xs: seq<Stock>): set<string> {
    set s | s in xs :: Key(s)
  }

  /** No two entries of `xs` share a key. */
  predicate DistinctKeys(xs: seq<Stock>) {
    forall i, j :: 0 <= i < j < |xs| ==> Key(xs[i]) != Key(xs[j])
  }

  lemma KeysOfCons(x: Stock, xs: seq<Stock>)
    ensures KeysOf([x] + xs) == {Key(x)} + KeysOf(xs)
  {
  }

  /** Without a dash in the symbol, the first dash of the key is the
      separator that follows the symbol. */
  lemma FirstDashEndsSymbol(x: Stock)
    requires '-' !in x.symbol
    ensures |x.symbol| < |Key(x)| && Key(x)[|x.symbol|] == '-'
    ensures forall i :: 0 <= i < |Key(x)| && Key(x)[i] == '-' ==> |x.symbol| <= i
  {
  }

  /** While neither symbol contains a dash, the key tells (symbol, exchange)
      pairs apart exactly: equal keys mean equal symbols and exchanges. */
  lemma {:induction false} KeyInjectiveWithoutDash(a: Stock, b: Stock)
    requires '-' !in a.symbol && '-' !in b.symbol
    ensures Key(a) == Key(b) <==> a.symbol == b.symbol && a.exchange == b.exchange
  {
    if Key(a) == Key(b) {
      var n, m := |a.symbol|, |b.symbol|;
      FirstDashEndsSymbol(a);
      FirstDashEndsSymbol(b);
      assert n == m;
      assert a.symbol == Key(a)[..n] == Key(b)[..n] == b.symbol;
      assert a.exchange == Key(a)[n + 1..] == Key(b)[n + 1..] == b.exchange;
    }
  }

  /** Once a symbol may contain a dash, two different (symbol, exchange)
      pairs can share a key: "BRK-B" on "US" and "BRK" on "B-US" both give
      "BRK-B-US". */
  lemma KeyCollidesWithDash()
    ensures var a := Stock("BRK-B", "Berkshire Hathaway B", "US", "Common Stock", false);
      var b := Stock("BRK", "Berkshire Hathaway", "B-US", "Common Stock", false);
      && (a.symbol, a.exchange) != (b.symbol, b.exchange)
      && Key(a) == Key(b) == "BRK-B-US"
  {
  }
}
