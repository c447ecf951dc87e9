/** The capped, most-recent-first scan history kept by App.tsx: the entry a
    successful analysis creates, the prepend-and-truncate update, and the
    two read paths (the home screen's recent list and selecting an entry). */
module History {
  import opened Util
  import opened Types

  /** At most this many entries are kept. */
  const HistoryLimit := 10

  /** The home screen lists at most this many entries. */
  const HomeListed := 3

  /** The entry saveAnalysisResult records: the id as `barcode`, name and
      brand taken from the analysis, the analysis itself, and the save time.
      The lookup's image and ingredients text are not recorded. */
  function NewEntry(id: string, analysis: ProductAnalysis, now: nat): Product {
    Product(id, analysis.name, analysis.brand, None, None, Some(analysis), now)
  }

  /** `[entry, ...history.slice(0, 9)]`: the new entry first, then the
      newest of the old entries, dropping the oldest beyond the limit. */
  function Push(entry: Product, history: seq<Product>): (h: seq<Product>)
    ensures |h| == Min(|history| + 1, HistoryLimit)
    ensures h[0] == entry
    ensures h[1..] == history[..|h| - 1]
  {
    [entry] + history[..Min(|history|, HistoryLimit - 1)]
  }

  /** Several saves in a row, first entry first. */
  function PushAll(history: seq<Product>, entries: seq<Product>): seq<Product>
    decreases |entries|
  {
    if entries == [] then history
    else PushAll(Push(entries[0], history), entries[1..])
  }

  function Reverse<T>(s: seq<T>): (r: seq<T>)
    ensures |r| == |s|
  {
    if s == [] then [] else Reverse(s[1..]) + [s[0]]
  }

  /** Keeping the first `n` of a list whose front is `r`: when `n` covers `r`,
      truncating the rest first to `m` changes nothing. */
  lemma PrefixOfTruncated(r: seq<Product>, x: seq<Product>, m: nat, n: nat)
    requires m <= |x| && n <= |r| + m
    ensures (r + x[..m])[..n] == (r + x)[..n]
  {
    assert forall k :: 0 <= k < n ==> (r + x[..m])[k] == (r + x)[k] by {
      forall k | 0 <= k < n ensures (r + x[..m])[k] == (r + x)[k] {
        if k >= |r| {
          assert (r + x[..m])[k] == x[..m][k - |r|];
        }
      }
    }
  }

  /** One save, stated as a prefix of the extended list. */
  lemma PushIsPrefix(e: Product, history: seq<Product>)
    ensures Push(e, history) == ([e] + history)[..Min(|history| + 1, HistoryLimit)]
  {
    var h := Push(e, history);
    var x := ([e] + history)[..Min(|history| + 1, HistoryLimit)];
    assert |h| == |x|;
    forall k | 0 <= k < |h| ensures h[k] == x[k] {
      if k > 0 {
        assert h[k] == h[1..][k - 1];
      }
    }
  }

  /** After any non-empty run of saves the history holds the new entries,
      newest first, followed by the newest old entries, cut to the limit:
      entries leave the list oldest first. */
  lemma {:induction false} PushAllKeepsNewest(history: seq<Product>, entries: seq<Product>)
    requires entries != []
    ensures PushAll(history, entries) ==
      (Reverse(entries) + history)[..Min(|entries| + |history|, HistoryLimit)]
    decreases |entries|
  {
    var e, rest := entries[0], entries[1..];
    var pushed := Push(e, history);
    PushIsPrefix(e, history);
    assert PushAll(history, entries) == PushAll(pushed, rest);
    if rest == [] {
      assert Reverse(entries) == [e];
    } else {
      PushAllKeepsNewest(pushed, rest);
      var r := Reverse(rest);
      assert Reverse(entries) == r + [e];
      var m := Min(|history| + 1, HistoryLimit);
      var n := Min(|rest| + m, HistoryLimit);
      assert n == Min(|entries| + |history|, HistoryLimit);
      PrefixOfTruncated(r, [e] + history, m, n);
      assert r + ([e] + history) == Reverse(entries) + history;
    }
  }

  /** `recentProducts.slice(0, 3)`: the newest entries, at most three. */
  function HomeRecent(history: seq<Product>): (r: seq<Product>)
    ensures |r| == Min(|history|, HomeListed)
    ensures r == history[..|r|]
  {
    history[..Min(|history|, HomeListed)]
  }

  /** Clicking an entry shows `p.analysis`, exactly as it was stored. */
  function SelectEntry(p: Product): Option<ProductAnalysis> {
    p.analysis
  }

  /** Selecting a recorded entry, any number of times, yields the recorded
      analysis unchanged, and the entry records the analysis's name and brand. */
  lemma SelectRecorded(id: string, analysis: ProductAnalysis, now: nat)
    ensures SelectEntry(NewEntry(id, analysis, now)) == Some(analysis)
    ensures NewEntry(id, analysis, now).barcode == id
    ensures NewEntry(id, analysis, now).name == analysis.name
    ensures NewEntry(id, analysis, now).brand == analysis.brand
  {
  }

  /** After a save the new entry heads both the history and the home list. */
  lemma SavedEntryListedFirst(entry: Product, history: seq<Product>)
    ensures HomeRecent(Push(entry, history))[0] == entry
    ensures |HomeRecent(Push(entry, history))| == Min(|history| + 1, HomeListed)
  {
  }
}
