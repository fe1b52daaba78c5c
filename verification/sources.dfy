/**
  Candidate discovery: each search result is normalised into a `Candidate`
  tagged with the searched site, a site whose search fails in any way
  contributes nothing, and the per-site lists are concatenated in site order
  and then shuffled.
 */
module Sources {
  import opened Coupons

  /** The fixed, ordered list of coupon sites queried every cycle. */
  const Sites: seq<string> := ["cuponomia.com", "meliuz.com.br", "pelando.com.br"]

  /** One entry of a result's `pagemap.cse_image` list. */
  datatype ImageEntry = ImageEntry(src: Option<string>)

  /** A result's `pagemap`; `cseImage` is `None` when the key is missing. */
  datatype PageMap = PageMap(cseImage: Option<seq<ImageEntry>>)

  /** One item of the search response; every field may be missing. */
  datatype SearchItem = SearchItem(
    title: Option<string>,
    snippet: Option<string>,
    link: Option<string>,
    pagemap: Option<PageMap>
  )

  /** What one site query yields: the request, status check or JSON decoding
      raised, or a decoded body whose `items` key may be missing. */
  datatype SearchOutcome = RequestFailed | Response(items: Option<seq<SearchItem>>)

  /** The thumbnail lookup `item.get("pagemap", {}).get("cse_image", [{}])[0].get("src")`:
      a missing `pagemap` or `cse_image` defaults to one empty entry, and an
      empty `cse_image` list raises on `[0]`. */
  function ImageOf(item: SearchItem): (r: Result<Option<string>>)
    ensures r.Raised? <==> item.pagemap.Some? && item.pagemap.value.cseImage == Some([])
    ensures r.Ok? ==> r.value == if item.pagemap.Some? && item.pagemap.value.cseImage.Some?
                                 then item.pagemap.value.cseImage.value[0].src
                                 else None
  {
    match item.pagemap
    case None => Ok(None)
    case Some(pm) =>
      match pm.cseImage
      case None => Ok(None)
      case Some(entries) => if |entries| == 0 then Raised else Ok(entries[0].src)
  }

  /** Maps one search item to a candidate; a missing `title`, `snippet` or
      `link`, or an empty `cse_image` list, raises. */
  function NormaliseItem(item: SearchItem, site: string): (r: Result<Candidate>)
    ensures r.Ok? <==> item.title.Some? && item.snippet.Some? && item.link.Some? && ImageOf(item).Ok?
    ensures r.Ok? ==> r.value == Candidate(item.title.value, item.snippet.value, item.link.value,
                                           ImageOf(item).value, site)
  {
    if item.title.None? || item.snippet.None? || item.link.None? then Raised
    else match ImageOf(item)
      case Raised => Raised
      case Ok(img) => Ok(Candidate(item.title.value, item.snippet.value, item.link.value, img, site))
  }

  /** The list comprehension over the items: it raises as soon as one item does. */
  function NormaliseAll(items: seq<SearchItem>, site: string): (r: Result<seq<Candidate>>)
    ensures r.Ok? <==> forall i :: 0 <= i < |items| ==> NormaliseItem(items[i], site).Ok?
    ensures r.Ok? ==> |r.value| == |items|
    ensures r.Ok? ==> forall i :: 0 <= i < |items| ==> r.value[i] == NormaliseItem(items[i], site).value
  {
    if |items| == 0 then Ok([])
    else
      match NormaliseItem(items[0], site)
      case Raised => Raised
      case Ok(c) =>
        match NormaliseAll(items[1..], site)
        case Raised => Raised
        case Ok(cs) => Ok([c] + cs)
  }

  /** Searches one site (`buscar_cupons_google`): every failure yields `[]`. */
  function SearchSite(site: string, outcome: SearchOutcome): (r: seq<Candidate>)
    ensures outcome.RequestFailed? ==> r == []
    ensures outcome.Response? && outcome.items.None? ==> r == []
    ensures outcome.Response? && outcome.items.Some? ==>
              var items := outcome.items.value;
              if forall i :: 0 <= i < |items| ==> NormaliseItem(items[i], site).Ok? then
                |r| == |items| && forall i :: 0 <= i < |items| ==> r[i] == NormaliseItem(items[i], site).value
              else r == []
    ensures forall k :: 0 <= k < |r| ==> r[k].source == site
  {
    match outcome
    case RequestFailed => []
    case Response(items) =>
      match items
      case None => []
      case Some(its) =>
        match NormaliseAll(its, site)
        case Raised => []
        case Ok(cs) => cs
  }

  /** The candidates of every site in `sites`, concatenated in site order. */
  function Gather(sites: seq<string>, query: string -> SearchOutcome): (r: seq<Candidate>)
    ensures forall k :: 0 <= k < |r| ==> r[k].source in sites
  {
    if |sites| == 0 then []
    else
      var first := SearchSite(sites[0], query(sites[0]));
      var rest := Gather(sites[1..], query);
      first + rest
  }

  /** Over the fixed site list, gathering is exactly the three searches
      concatenated in list order. */
  lemma GatherSites(query: string -> SearchOutcome)
    ensures Gather(Sites, query) ==
              SearchSite(Sites[0], query(Sites[0])) +
              SearchSite(Sites[1], query(Sites[1])) +
              SearchSite(Sites[2], query(Sites[2]))
  {
  }

  /** Swapping two positions keeps the elements of a sequence. */
  lemma SwapKeepsElements<T>(s: seq<T>, i: nat, j: nat)
    requires i < |s| && j < |s|
    ensures multiset(s[i := s[j]][j := s[i]]) == multiset(s)
  {
  }

  /** `random.shuffle`: for `i` from the last index down to 1, swap position
      `i` with a position `j` in `[0, i]`. The random draws are an oracle:
      `draw(i)` reduced into `[0, i]`. */
  method Shuffle<T>(s: seq<T>, draw: nat -> nat) returns (r: seq<T>)
    ensures |r| == |s|
    ensures multiset(r) == multiset(s)
  {
    r := s;
    var i := |r|;
    while i > 1
      invariant 0 <= i <= |r| == |s|
      invariant multiset(r) == multiset(s)
    {
      i := i - 1;
      var j := draw(i) % (i + 1);
      SwapKeepsElements(r, i, j);
      r := r[i := r[j]][j := r[i]];
    }
  }

  /** `get_cupons`: the three site searches concatenated, then shuffled. */
  method GetCupons(query: string -> SearchOutcome, draw: nat -> nat) returns (r: seq<Candidate>)
    ensures multiset(r) == multiset(SearchSite(Sites[0], query(Sites[0])) +
                                    SearchSite(Sites[1], query(Sites[1])) +
                                    SearchSite(Sites[2], query(Sites[2])))
    ensures |r| == |SearchSite(Sites[0], query(Sites[0]))| +
                   |SearchSite(Sites[1], query(Sites[1]))| +
                   |SearchSite(Sites[2], query(Sites[2]))|
    ensures forall k :: 0 <= k < |r| ==> r[k].source in Sites
  {
    var all := Gather(Sites, query);
    GatherSites(query);
    r := Shuffle(all, draw);
    forall k | 0 <= k < |r| ensures r[k].source in Sites {
      assert r[k] in multiset(all);
      var m :| 0 <= m < |all| && all[m] == r[k];
    }
  }
}
