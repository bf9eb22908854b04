/** Web retrieval helpers: reading a page through the reader endpoint, the two
    search providers, and the builders that turn search results into the JSON
    context handed to the completion service. Every HTTP exchange, the anchor
    regular expression, HTML unescaping, redirect decoding, the Han character
    class and JSON encoding are supplied by a `Net` value. */
module Web {
  import opened Base
  import opened Text

  datatype SearchResult = SearchResult(title: string, url: string, snippet: string)

  /** The two capture groups of one match of the result-anchor expression:
      the raw `href` value and the raw inner HTML. */
  datatype Anchor = Anchor(href: string, inner: string)

  datatype GoogleItem = GoogleItem(title: string, link: string, snippet: string)

  /** The query parameters of one Custom Search request (`key`, `cx`, `q`,
      `num`, and whether the Chinese language hints are added). */
  datatype GoogleRequest = GoogleRequest(key: string, cx: string, q: string, num: int, chinese: bool)

  /** One entry of a built search context. The DuckDuckGo builder has no snippet
      field; its entries carry "" there, which JSON with `omitempty` renders the same. */
  datatype ContextItem = ContextItem(title: string, url: string, snippet: string, content: string)

  datatype Net = Net(
    // GET of a reader URL: the body, or the transport / non-2xx error
    get: string -> Result<string>,
    // GET of the DuckDuckGo HTML page for a trimmed query, then every anchor match in page order
    duckduckgo: string -> Result<seq<Anchor>>,
    // GET of the Custom Search API and decoding of its JSON body
    google: GoogleRequest -> Result<seq<GoogleItem>>,
    // html.UnescapeString
    unescape: string -> string,
    // url.Parse, Query().Get("uddg") and QueryUnescape; None when a step fails or the value is empty
    uddg: string -> Option<string>,
    // membership in the \p{Han} class
    isHan: char -> bool,
    // json.Marshal of the context entries
    marshal: seq<ContextItem> -> string)

  const ReaderPrefix: string := "https://r.jina.ai/"

  predicate IsHttpUrl(s: string) {
    HasPrefix(s, "http://") || HasPrefix(s, "https://")
  }

  /** The reader-endpoint URL for a trimmed, non-empty address: a scheme-less
      address is read over https. */
  function ReaderUrl(cleaned: string): (r: string)
    ensures HasPrefix(r, ReaderPrefix)
    ensures IsHttpUrl(r[|ReaderPrefix|..])
    ensures IsHttpUrl(cleaned) ==> r[|ReaderPrefix|..] == cleaned
    ensures !IsHttpUrl(cleaned) ==> r[|ReaderPrefix|..] == "https://" + cleaned
  {
    if IsHttpUrl(cleaned) then ReaderPrefix + cleaned
    else ReaderPrefix + "https://" + cleaned
  }

  /** `FetchURLAsPlainText`: a blank address fails before any request; any
      other is fetched through the reader endpoint. */
  function FetchUrlAsPlainText(rawUrl: string, net: Net): (r: Result<string>)
    ensures IsBlank(rawUrl) ==> r == Err("empty url")
    ensures !IsBlank(rawUrl) ==> r == net.get(ReaderUrl(TrimSpace(rawUrl)))
  {
    var cleaned := TrimSpace(rawUrl);
    if cleaned == "" then Err("empty url") else net.get(ReaderUrl(cleaned))
  }

  /** `trimTo`: at most the first `n` elements when `n` is positive. */
  function TrimTo<T>(s: seq<T>, n: int): (r: seq<T>)
    ensures |r| <= |s| && r == s[..|r|]
    ensures n <= 0 || |s| <= n ==> r == s
    ensures n > 0 && |s| > n ==> |r| == n
  {
    if n <= 0 || |s| <= n then s else s[..n]
  }

  /** The first index at or after `from` that holds `c`. */
  function IndexOf(s: string, c: char, from: nat): (j: nat)
    requires from <= |s| && c in s[from..]
    ensures from <= j < |s| && s[j] == c
    ensures forall k :: from <= k < j ==> s[k] != c
    decreases |s| - from
  {
    if s[from] == c then from else IndexOf(s, c, from + 1)
  }

  /** `stripTags`: removes, left to right, every match of `<[^>]+>`, that is a
      `<`, at least one character other than `>`, and the first `>` after it. */
  function StripTags(s: string): (r: string)
    ensures |r| <= |s|
    ensures '<' !in s ==> r == s
    decreases |s|
  {
    if s == [] then []
    else if s[0] == '<' && |s| >= 2 && s[1] != '>' && '>' in s[1..] then
      StripTags(s[IndexOf(s, '>', 1) + 1..])
    else
      assert '<' !in s ==> '<' !in s[1..];
      [s[0]] + StripTags(s[1..])
  }

  /** The first `k` elements that `keep` accepts, in their input order. */
  function Select<T>(xs: seq<T>, keep: T -> bool, k: nat): (r: seq<T>)
    ensures |r| <= k && |r| <= |xs|
  {
    if k == 0 || xs == [] then []
    else if keep(xs[0]) then [xs[0]] + Select(xs[1..], keep, k - 1)
    else Select(xs[1..], keep, k)
  }

  /** All elements that `keep` accepts, in order: the reference for `Select`. */
  function Filter<T>(xs: seq<T>, keep: T -> bool): seq<T> {
    if xs == [] then []
    else if keep(xs[0]) then [xs[0]] + Filter(xs[1..], keep)
    else Filter(xs[1..], keep)
  }

  /** Selecting the first `k` accepted elements is taking a prefix of the
      filtered sequence; in particular nothing is selected iff nothing is accepted. */
  lemma {:induction false} SelectIsFilterPrefix<T>(xs: seq<T>, keep: T -> bool, k: nat)
    ensures var f := Filter(xs, keep);
      Select(xs, keep, k) == f[..if k < |f| then k else |f|]
  {
    if k != 0 && xs != [] {
      SelectIsFilterPrefix(xs[1..], keep, if keep(xs[0]) then k - 1 else k);
    }
  }

  /** Every selected element is accepted and comes from the input. */
  lemma {:induction false} SelectAccepted<T>(xs: seq<T>, keep: T -> bool, k: nat)
    ensures forall i :: 0 <= i < |Select(xs, keep, k)| ==> keep(Select(xs, keep, k)[i]) && Select(xs, keep, k)[i] in xs
  {
    if k != 0 && xs != [] {
      SelectAccepted(xs[1..], keep, if keep(xs[0]) then k - 1 else k);
    }
  }

  function Map<A, B>(xs: seq<A>, f: A -> B): (r: seq<B>)
    ensures |r| == |xs|
    ensures forall i :: 0 <= i < |xs| ==> r[i] == f(xs[i])
  {
    seq(|xs|, i requires 0 <= i < |xs| => f(xs[i]))
  }

  /** The scanning loop shared by both providers: each raw entry is converted,
      entries that `keep` rejects are skipped, and the scan stops once `k`
      are kept. */
  method ScanKeep<A, B>(raw: seq<A>, convert: A -> B, keep: B -> bool, k: nat) returns (kept: seq<B>)
    ensures kept == Select(Map(raw, convert), keep, k)
  {
    ghost var all := Map(raw, convert);
    kept := [];
    var i := 0;
    while i < |raw| && |kept| < k
      invariant 0 <= i <= |raw|
      invariant |kept| <= k
      invariant kept + Select(all[i..], keep, k - |kept|) == Select(all, keep, k)
    {
      var x := convert(raw[i]);
      assert all[i..][0] == x && all[i..][1..] == all[i + 1..];
      if keep(x) {
        kept := kept + [x];
      }
      i := i + 1;
    }
    assert Select(all[i..], keep, k - |kept|) == [];
  }

  /** A DuckDuckGo anchor turned into a result: unescaped link (decoded when
      it is a `/l/?uddg=` redirect) and unescaped, tag-free title. */
  function AnchorResult(net: Net, a: Anchor): SearchResult {
    var link := net.unescape(a.href);
    var title := net.unescape(StripTags(a.inner));
    var decoded := net.uddg(link);
    if HasPrefix(link, "/l/?uddg=") && decoded.Some? then SearchResult(title, decoded.value, "")
    else SearchResult(title, link, "")
  }

  /** A result link worth reading: an http(s) address outside duckduckgo.com. */
  predicate IsOutsideLink(r: SearchResult) {
    IsHttpUrl(r.url) && !Contains(r.url, "duckduckgo.com")
  }

  /** The number of results asked for when the caller gives none. */
  function TopKOrDefault(topK: GoInt): (k: GoInt)
    ensures k >= 1
    ensures topK > 0 ==> k == topK
    ensures topK <= 0 ==> k == 3
  {
    if topK <= 0 then 3 else topK
  }

  /** What `WebSearch` returns. */
  function WebSearchSpec(query: string, topK: GoInt, net: Net): Result<seq<SearchResult>> {
    var q := TrimSpace(query);
    if q == "" then Err("empty query")
    else match net.duckduckgo(q)
      case Err(e) => Err(e)
      case Ok(matches) =>
        var results := Select(Map(matches, a => AnchorResult(net, a)), IsOutsideLink, TopKOrDefault(topK));
        if results == [] then Err("no results") else Ok(results)
  }

  /** Every successful search returns between one and `topK` outside links
      for a non-blank query. */
  lemma WebSearchResults(query: string, topK: GoInt, net: Net)
    requires WebSearchSpec(query, topK, net).Ok?
    ensures var rs := WebSearchSpec(query, topK, net).value;
      && 1 <= |rs| <= TopKOrDefault(topK)
      && (forall i :: 0 <= i < |rs| ==> IsHttpUrl(rs[i].url) && !Contains(rs[i].url, "duckduckgo.com"))
      && !IsBlank(query)
  {
    var matches := net.duckduckgo(TrimSpace(query)).value;
    SelectAccepted(Map(matches, a => AnchorResult(net, a)), IsOutsideLink, TopKOrDefault(topK));
  }

  /** `WebSearch`: the DuckDuckGo provider. */
  method WebSearch(query: string, topK: GoInt, net: Net) returns (r: Result<seq<SearchResult>>)
    ensures r == WebSearchSpec(query, topK, net)
  {
    var q := TrimSpace(query);
    if q == "" {
      return Err("empty query");
    }
    var k := TopKOrDefault(topK);
    var page := net.duckduckgo(q);
    if page.Err? {
      return Err(page.msg);
    }
    var results := ScanKeep(page.value, a => AnchorResult(net, a), IsOutsideLink, k);
    if |results| == 0 {
      return Err("no results");
    }
    return Ok(results);
  }

  /** The `num` parameter of a Custom Search request for a positive `topK`:
      three candidates per wanted result, at most 10. `topK * 3` is computed
      in Go's `int`; the `want < topK` test catches its wrap-around. */
  function GoogleNum(topK: GoInt): (want: GoInt)
    requires topK > 0
    ensures 1 <= want <= 10
    ensures want == if 3 * topK <= 10 then 3 * topK else 10
  {
    var product := Wrap64(topK * 3);
    var want := if product < topK then topK else product;
    WrappedTripleLemma(topK);
    if want > 10 then 10 else want
  }

  /** Where `topK * 3` overflows, the wrapped product is below `topK`. */
  lemma WrappedTripleLemma(topK: GoInt)
    requires topK > 0
    ensures 3 * topK <= MaxInt64 ==> Wrap64(topK * 3) == 3 * topK
    ensures 3 * topK > MaxInt64 ==> Wrap64(topK * 3) < topK
  {
    var x := topK * 3;
    var m := 0x1_0000_0000_0000_0000;
    if x > MaxInt64 {
      if x < m {
        assert x % m == x;
      } else {
        assert x - m < m;
        assert x % m == x - m;
      }
    }
  }

  /** `containsChinese`. */
  predicate ContainsChinese(s: string, net: Net) {
    exists i :: 0 <= i < |s| && net.isHan(s[i])
  }

  function ItemResult(it: GoogleItem): SearchResult {
    SearchResult(it.title, it.link, it.snippet)
  }

  predicate HasUrl(r: SearchResult) {
    r.url != ""
  }

  /** What `GoogleSearch` returns. */
  function GoogleSearchSpec(query: string, apiKey: string, cseId: string, topK: GoInt, net: Net): Result<seq<SearchResult>> {
    if IsBlank(query) then Err("empty query")
    else if apiKey == "" || cseId == "" then Err("google api key or cse id missing")
    else
      var k := TopKOrDefault(topK);
      var req := GoogleRequest(apiKey, cseId, query, GoogleNum(k), ContainsChinese(query, net));
      match net.google(req)
      case Err(e) => Err(e)
      case Ok(items) =>
        var kept := Select(Map(items, ItemResult), HasUrl, k);
        if kept == [] then Err("no results") else Ok(kept)
  }

  /** A successful Custom Search returns between one and `topK` results, each
      with a link, for a non-blank query and configured credentials. */
  lemma GoogleSearchResults(query: string, apiKey: string, cseId: string, topK: GoInt, net: Net)
    requires GoogleSearchSpec(query, apiKey, cseId, topK, net).Ok?
    ensures var rs := GoogleSearchSpec(query, apiKey, cseId, topK, net).value;
      && 1 <= |rs| <= TopKOrDefault(topK)
      && (forall i :: 0 <= i < |rs| ==> rs[i].url != "")
      && apiKey != "" && cseId != "" && !IsBlank(query)
  {
    var k := TopKOrDefault(topK);
    var req := GoogleRequest(apiKey, cseId, query, GoogleNum(k), ContainsChinese(query, net));
    SelectAccepted(Map(net.google(req).value, ItemResult), HasUrl, k);
  }

  /** `GoogleSearch`: the Custom Search provider. */
  method GoogleSearch(query: string, apiKey: string, cseId: string, topK: GoInt, net: Net)
    returns (r: Result<seq<SearchResult>>)
    ensures r == GoogleSearchSpec(query, apiKey, cseId, topK, net)
  {
    if TrimSpace(query) == "" {
      return Err("empty query");
    }
    if apiKey == "" || cseId == "" {
      return Err("google api key or cse id missing");
    }
    var k := TopKOrDefault(topK);
    var want := GoogleNum(k);
    var response := net.google(GoogleRequest(apiKey, cseId, query, want, ContainsChinese(query, net)));
    if response.Err? {
      return Err(response.msg);
    }
    var out := ScanKeep(response.value, ItemResult, HasUrl, k);
    if |out| == 0 {
      return Err("no results");
    }
    return Ok(out);
  }

  /** The values of the `Some` entries, in order. */
  function Somes<T>(xs: seq<Option<T>>): (r: seq<T>)
    ensures |r| <= |xs|
  {
    if xs == [] then []
    else
      var init := Somes(xs[..|xs| - 1]);
      match xs[|xs| - 1]
      case None => init
      case Some(x) => init + [x]
  }

  /** Nothing is kept exactly when every entry is `None`. */
  lemma {:induction false} SomesEmpty<T>(xs: seq<Option<T>>)
    ensures Somes(xs) == [] <==> forall i :: 0 <= i < |xs| ==> xs[i].None?
  {
    if xs != [] {
      var init := xs[..|xs| - 1];
      SomesEmpty(init);
      assert forall i :: 0 <= i < |init| ==> init[i] == xs[i];
    }
  }

  /** Every kept value is the value of some entry. */
  lemma {:induction false} SomesFrom<T>(xs: seq<Option<T>>, P: T -> bool)
    requires forall i :: 0 <= i < |xs| && xs[i].Some? ==> P(xs[i].value)
    ensures forall j :: 0 <= j < |Somes(xs)| ==> P(Somes(xs)[j])
  {
    if xs != [] {
      SomesFrom(xs[..|xs| - 1], P);
    }
  }

  /** Keeping is done entry by entry, so kept values follow entry order. */
  lemma {:induction false} SomesAppend<T>(a: seq<Option<T>>, b: seq<Option<T>>)
    ensures Somes(a + b) == Somes(a) + Somes(b)
  {
    if b != [] {
      SomesAppend(a, b[..|b| - 1]);
      assert (a + b)[..|a + b| - 1] == a + b[..|b| - 1];
    } else {
      assert a + b == a;
    }
  }

  /** The entry a builder makes for one result, or None when its page cannot
      be read; the Custom Search builder keeps the snippet and cuts the
      content to its first 4000 elements. */
  function ReadResult(net: Net, google: bool, r: SearchResult): (item: Option<ContextItem>)
    ensures item.None? <==> FetchUrlAsPlainText(r.url, net).Err?
    ensures item.Some? ==> item.value.url == r.url && item.value.title == r.title
    ensures item.Some? && google ==> |item.value.content| <= 4000
    ensures item.Some? ==>
              item.value.content ==
                (if google then TrimTo(FetchUrlAsPlainText(r.url, net).value, 4000)
                 else FetchUrlAsPlainText(r.url, net).value)
    ensures item.Some? ==> item.value.snippet == (if google then r.snippet else "")
  {
    match FetchUrlAsPlainText(r.url, net)
    case Err(_) => None
    case Ok(content) =>
      if google then Some(ContextItem(r.title, r.url, r.snippet, TrimTo(content, 4000)))
      else Some(ContextItem(r.title, r.url, "", content))
  }

  /** The entries a builder keeps: one per readable result, in result order. */
  function FetchedItems(results: seq<SearchResult>, net: Net, google: bool): (items: seq<ContextItem>)
    ensures |items| <= |results|
  {
    Somes(Map(results, r => ReadResult(net, google, r)))
  }

  /** A builder finds nothing exactly when every page fetch failed, and the
      Custom Search builder never hands on more than 4000 elements of a page. */
  lemma FetchedItemsProperties(results: seq<SearchResult>, net: Net, google: bool)
    ensures FetchedItems(results, net, google) == [] <==>
      forall i :: 0 <= i < |results| ==> FetchUrlAsPlainText(results[i].url, net).Err?
    ensures google ==> forall j :: 0 <= j < |FetchedItems(results, net, google)| ==>
      |FetchedItems(results, net, google)[j].content| <= 4000
  {
    var xs := Map(results, r => ReadResult(net, google, r));
    SomesEmpty(xs);
    if google {
      SomesFrom(xs, (it: ContextItem) => |it.content| <= 4000);
    }
  }

  /** The entries of consecutive stretches of results follow one another, and a
      single result gives its own entry when its page can be read and nothing
      otherwise: the entries are the readable results, in result order. */
  lemma FetchedItemsInOrder(a: seq<SearchResult>, b: seq<SearchResult>, net: Net, google: bool)
    ensures FetchedItems(a + b, net, google) == FetchedItems(a, net, google) + FetchedItems(b, net, google)
    ensures |a| == 1 ==>
              FetchedItems(a, net, google) ==
                (if FetchUrlAsPlainText(a[0].url, net).Ok? then [ReadResult(net, google, a[0]).value] else [])
  {
    var f := r => ReadResult(net, google, r);
    assert Map(a + b, f) == Map(a, f) + Map(b, f);
    SomesAppend(Map(a, f), Map(b, f));
    if |a| == 1 {
      assert Map(a, f)[..0] == [];
    }
  }

  /** Reads every result, skipping the ones whose fetch fails. */
  method CollectItems(results: seq<SearchResult>, net: Net, google: bool) returns (items: seq<ContextItem>)
    ensures items == FetchedItems(results, net, google)
  {
    ghost var xs := Map(results, r => ReadResult(net, google, r));
    items := [];
    for i := 0 to |results|
      invariant items == Somes(xs[..i])
    {
      assert xs[..i + 1][..i] == xs[..i];
      var item := ReadResult(net, google, results[i]);
      if item.Some? {
        items := items + [item.value];
      }
    }
    assert xs[..|results|] == xs;
  }

  /** What `BuildSearchContext` returns. */
  function SearchContextSpec(query: string, topK: GoInt, net: Net): Result<string> {
    match WebSearchSpec(query, topK, net)
    case Err(e) => Err(e)
    case Ok(results) =>
      var items := FetchedItems(results, net, false);
      if items == [] then Err("no accessible results") else Ok(net.marshal(items))
  }

  /** What `BuildGoogleSearchContext` returns. */
  function GoogleContextSpec(query: string, apiKey: string, cseId: string, topK: GoInt, net: Net): Result<string> {
    match GoogleSearchSpec(query, apiKey, cseId, topK, net)
    case Err(e) => Err(e)
    case Ok(results) =>
      var items := FetchedItems(results, net, true);
      if items == [] then Err("no accessible results") else Ok(net.marshal(items))
  }

  /** `BuildSearchContext`. */
  method BuildSearchContext(query: string, topK: GoInt, net: Net) returns (r: Result<string>)
    ensures r == SearchContextSpec(query, topK, net)
  {
    var results := WebSearch(query, topK, net);
    if results.Err? {
      return Err(results.msg);
    }
    var items := CollectItems(results.value, net, false);
    if |items| == 0 {
      return Err("no accessible results");
    }
    return Ok(net.marshal(items));
  }

  /** `BuildGoogleSearchContext`. */
  method BuildGoogleSearchContext(query: string, apiKey: string, cseId: string, topK: GoInt, net: Net)
    returns (r: Result<string>)
    ensures r == GoogleContextSpec(query, apiKey, cseId, topK, net)
  {
    var results := GoogleSearch(query, apiKey, cseId, topK, net);
    if results.Err? {
      return Err(results.msg);
    }
    var items := CollectItems(results.value, net, true);
    if |items| == 0 {
      return Err("no accessible results");
    }
    return Ok(net.marshal(items));
  }
}
