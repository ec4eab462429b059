/** Predictive search over the fixed service catalog (main.py:117-134). */
module Search {
  import opened Seqs
  import opened Text
  import opened Schemas

  /** The number of results is capped at this. */
  const MaxResults: nat := 8

  /** `SEARCH_ITEMS`, in its fixed order. */
  const Catalog: seq<SearchItem> := [
    SearchItem("aadhaar", "Apply for Aadhaar", "Identity", "/guide/aadhaar", ["uidai", "uid", "identity", "proof"]),
    SearchItem("pan", "Apply for PAN", "Tax", "/guide/pan", ["income tax", "form 49a", "epan"]),
    SearchItem("dl", "Apply for Driving Licence", "Transport", "/guide/driving-licence", ["sarathi", "rto", "learner", "dl"]),
    SearchItem("voter", "Register Voter ID", "Elections", "/guide/voter", ["epic", "eci", "form 6"]),
    SearchItem("passport", "Apply for Passport", "Travel", "/guide/passport", ["psk", "tatkaal", "seva"])
  ]

  /** The query as compared: lower-cased, then stripped of surrounding whitespace. */
  function Normalize(q: string): string {
    Strip(Lower(q))
  }

  /** The text searched for substrings: label, category and keywords joined by
      single spaces and lower-cased. Neither the key nor the url is part of it. */
  function Haystack(item: SearchItem): string {
    Lower(Join(" ", [item.labelText, item.category] + item.keywords))
  }

  /** The strings the query may be a prefix of: the key, then each keyword, as stored. */
  function PrefixTargets(item: SearchItem): seq<string> {
    [item.key] + item.keywords
  }

  /** The inclusion rule for an item, given the normalised query `ql`. */
  predicate Matches(item: SearchItem, ql: string) {
    IsSubstring(ql, Haystack(item)) || exists k :: k in PrefixTargets(item) && IsPrefix(ql, k)
  }

  /** The items of `items` that match `ql`, in their order. */
  function Filter(items: seq<SearchItem>, ql: string): (r: seq<SearchItem>)
    ensures |r| <= |items|
  {
    if items == [] then []
    else
      var last := items[|items| - 1];
      Filter(items[..|items| - 1], ql) + if Matches(last, ql) then [last] else []
  }

  /** What the search returns for query `q`. */
  function SearchResults(q: string): seq<SearchItem> {
    Take(Filter(Catalog, Normalize(q)), MaxResults)
  }

  /** `predictive_search`: normalise the query, collect every matching catalog
      item, then keep the first eight. */
  method PredictiveSearch(q: string) returns (results: seq<SearchItem>)
    ensures results == SearchResults(q)
    ensures |results| <= MaxResults
    ensures forall x :: x in results <==> x in Catalog && Matches(x, Normalize(q))
    ensures IsSubsequence(results, Catalog) && Distinct(results)
  {
    var ql := Normalize(q);
    var found := CollectMatches(Catalog, ql);
    results := Take(found, MaxResults);
    SearchResultsProperties(q);
  }

  /** The loop of `predictive_search`: appends each item whose haystack contains
      `ql` or whose key or a keyword starts with `ql`. */
  method CollectMatches(items: seq<SearchItem>, ql: string) returns (found: seq<SearchItem>)
    ensures found == Filter(items, ql)
  {
    found := [];
    for i := 0 to |items|
      invariant found == Filter(items[..i], ql)
    {
      var item := items[i];
      assert items[..i + 1][..i] == items[..i];
      if Matches(item, ql) {
        found := found + [item];
      }
    }
    assert items[..|items|] == items;
  }

  lemma {:induction false} FilterMembers(items: seq<SearchItem>, ql: string)
    ensures forall x :: x in Filter(items, ql) <==> x in items && Matches(x, ql)
  {
    if items != [] {
      var init := items[..|items| - 1];
      FilterMembers(init, ql);
      assert items == init + [items[|items| - 1]];
    }
  }

  lemma {:induction false} FilterSubsequence(items: seq<SearchItem>, ql: string)
    ensures IsSubsequence(Filter(items, ql), items)
  {
    if items != [] {
      var init := items[..|items| - 1];
      var last := items[|items| - 1];
      FilterSubsequence(init, ql);
      var r := Filter(items, ql);
      if Matches(last, ql) {
        assert r[..|r| - 1] == Filter(init, ql);
      } else {
        assert r == Filter(init, ql);
        SubsequenceExtend(r, init, last);
        assert init + [last] == items;
      }
    }
  }

  /** When every item matches, the filter keeps them all. */
  lemma {:induction false} FilterAll(items: seq<SearchItem>, ql: string)
    requires forall i :: 0 <= i < |items| ==> Matches(items[i], ql)
    ensures Filter(items, ql) == items
  {
    if items != [] {
      FilterAll(items[..|items| - 1], ql);
    }
  }

  /** When no item matches, the filter keeps none. */
  lemma {:induction false} FilterNone(items: seq<SearchItem>, ql: string)
    requires forall i :: 0 <= i < |items| ==> !Matches(items[i], ql)
    ensures Filter(items, ql) == []
  {
    if items != [] {
      FilterNone(items[..|items| - 1], ql);
    }
  }

  lemma CatalogDistinct()
    ensures Distinct(Catalog)
  {
    forall i, j | 0 <= i < j < |Catalog| ensures Catalog[i] != Catalog[j] {
      assert Catalog[i].key != Catalog[j].key;
    }
  }

  /** The search returns matching catalog items only, each at most once, in
      catalog order, at most eight of them; since the catalog has five items,
      every matching item is returned. */
  lemma SearchResultsProperties(q: string)
    ensures |SearchResults(q)| <= MaxResults
    ensures forall x :: x in SearchResults(q) <==> x in Catalog && Matches(x, Normalize(q))
    ensures IsSubsequence(SearchResults(q), Catalog)
    ensures Distinct(SearchResults(q))
  {
    var f := Filter(Catalog, Normalize(q));
    FilterMembers(Catalog, Normalize(q));
    FilterSubsequence(Catalog, Normalize(q));
    assert SearchResults(q) == f[..|f|];
    assert f[..|f|] == f;
    CatalogDistinct();
    SubsequenceDistinct(f, Catalog);
  }

  /** An empty or all-whitespace query returns the whole catalog, in order. */
  lemma BlankQueryMatchesAll(q: string)
    requires forall i :: 0 <= i < |q| ==> IsSpace(q[i])
    ensures SearchResults(q) == Catalog
  {
    var lq := Lower(q);
    assert forall i :: 0 <= i < |lq| ==> lq[i] == q[i];
    assert Normalize(q) == "";
    forall i | 0 <= i < |Catalog| ensures Matches(Catalog[i], "") {
      assert Catalog[i].key in PrefixTargets(Catalog[i]);
      assert IsPrefix("", Catalog[i].key);
    }
    FilterAll(Catalog, "");
  }

  /** A query that matches no item returns nothing. */
  lemma NoMatchIsEmpty(q: string)
    requires forall i :: 0 <= i < |Catalog| ==> !Matches(Catalog[i], Normalize(q))
    ensures SearchResults(q) == []
  {
    FilterNone(Catalog, Normalize(q));
  }

  /** Upper-case letters in the query make no difference. */
  lemma CaseInsensitive(q: string)
    ensures SearchResults(Lower(q)) == SearchResults(q)
  {
    LowerIdempotent(q);
  }

  /** Whitespace around the query makes no difference. */
  lemma PaddingIgnored(q: string, c: char)
    requires IsSpace(c)
    ensures SearchResults([c] + q) == SearchResults(q)
    ensures SearchResults(q + [c]) == SearchResults(q)
  {
    LowerConcat([c], q);
    LowerConcat(q, [c]);
    assert Lower([c]) == [c];
    StripPrependSpace(c, Lower(q));
    StripAppendSpace(Lower(q), c);
  }

  /** A query of lower-case letters is compared as it is. */
  lemma NormalizePlain(q: string)
    requires q != [] && forall i :: 0 <= i < |q| ==> 'a' <= q[i] <= 'z'
    ensures Normalize(q) == q
  {
    NormalizeUnchanged(q);
  }

  /** A query whose normalised form starts an item's key finds that item. */
  lemma KeyPrefixFinds(q: string, item: SearchItem)
    requires item in Catalog && IsPrefix(Normalize(q), item.key)
    ensures item in SearchResults(q)
  {
    assert item.key in PrefixTargets(item);
    SearchResultsProperties(q);
  }

  /** `search("aad")`, and any query that normalises to it such as `" AAD "`,
      returns the Aadhaar item, through the prefix rule on its key. */
  lemma SearchAad(q: string)
    requires Normalize(q) == "aad"
    ensures Catalog[0] in SearchResults(q)
  {
    AadPrefixesAadhaar();
    KeyPrefixFinds(q, Catalog[0]);
  }

  /** `aad` starts the key of the first catalog item. */
  lemma AadPrefixesAadhaar()
    ensures IsPrefix("aad", Catalog[0].key)
  {
    assert Catalog[0].key == "aadhaar";
  }

  /** `s` contains neither `z` nor `Z`. */
  predicate NoZ(s: string) {
    forall i :: 0 <= i < |s| ==> s[i] != 'z' && s[i] != 'Z'
  }

  /** No text of `item` that the search looks at contains a `z` or a `Z`. */
  predicate ItemAvoidsZ(item: SearchItem) {
    NoZ(item.key) && NoZ(item.labelText) && NoZ(item.category) &&
    forall j :: 0 <= j < |item.keywords| ==> NoZ(item.keywords[j])
  }

  /** No catalog text contains a `z` or a `Z`; checked item by item, each
      item's strings being long enough to cost a lemma of their own. */
  lemma CatalogAvoidsZ()
    ensures forall i :: 0 <= i < |Catalog| ==> ItemAvoidsZ(Catalog[i])
  {
    AadhaarAvoidsZ();
    PanAvoidsZ();
    LicenceAvoidsZ();
    VoterAvoidsZ();
    PassportAvoidsZ();
  }

  lemma AadhaarAvoidsZ() ensures ItemAvoidsZ(Catalog[0]) {}
  lemma PanAvoidsZ() ensures ItemAvoidsZ(Catalog[1]) {}
  lemma LicenceAvoidsZ() ensures ItemAvoidsZ(Catalog[2]) {}
  lemma VoterAvoidsZ() ensures ItemAvoidsZ(Catalog[3]) {}
  lemma PassportAvoidsZ() ensures ItemAvoidsZ(Catalog[4]) {}

  /** A query starting with `z` matches no item whose texts avoid `z` and `Z`. */
  lemma ZQueryMisses(item: SearchItem, ql: string)
    requires ItemAvoidsZ(item) && ql != [] && ql[0] == 'z'
    ensures !Matches(item, ql)
  {
    var parts := [item.labelText, item.category] + item.keywords;
    forall j | 0 <= j < |parts| ensures Avoids(parts[j], 'z') && Avoids(parts[j], 'Z') {
      if j >= 2 {
        assert parts[j] == item.keywords[j - 2];
      }
    }
    JoinAvoids(" ", parts, 'z');
    JoinAvoids(" ", parts, 'Z');
    LowerAvoidsZ(Join(" ", parts));
    NotSubstringOfAvoiding(ql, Haystack(item));
    forall k | k in PrefixTargets(item) ensures !IsPrefix(ql, k) {
      if |ql| <= |k| {
        assert k[..|ql|][0] == k[0];
      }
    }
  }

  /** The query `zzz-nomatch` is compared as it is. */
  lemma NormalizeNoMatchQuery()
    ensures Normalize("zzz-nomatch") == "zzz-nomatch"
  {
    var q := "zzz-nomatch";
    assert q[0] == 'z' && q[|q| - 1] == 'h';
    NormalizeUnchanged(q);
  }

  /** A query without upper-case letters or surrounding whitespace is compared as it is. */
  lemma NormalizeUnchanged(q: string)
    requires q != [] && !IsSpace(q[0]) && !IsSpace(q[|q| - 1])
    requires forall i :: 0 <= i < |q| ==> !IsAsciiUpper(q[i])
    ensures Normalize(q) == q
  {
    LowerNoUpper(q);
    StripNoEdgeSpace(q);
  }

  /** `search("zzz-nomatch")` returns no results: the filter does exclude items. */
  lemma SearchNoMatch()
    ensures SearchResults("zzz-nomatch") == []
  {
    var q := "zzz-nomatch";
    NormalizeNoMatchQuery();
    CatalogAvoidsZ();
    forall i | 0 <= i < |Catalog| ensures !Matches(Catalog[i], Normalize(q)) {
      ZQueryMisses(Catalog[i], Normalize(q));
    }
    NoMatchIsEmpty(q);
  }
}
