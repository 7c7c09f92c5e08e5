// scrape_utilities.py: the helpers that build and clean the per-canton source lists.
// The HTTP requests, the JSON decoding, the HTML parsing and the CSV files become
// parameters and results: rows go in and rows come out.
module SourceLists {
  import opened Python

  /** A CSV row. */
  type Row = seq<string>

  /** Every element of `s` occurs in it once. */
  predicate Distinct<T(==)>(s: seq<T>)
  {
    forall i, j :: 0 <= i < j < |s| ==> s[i] != s[j]
  }

  // ---------------------------------------------------------------- remove_identical_lines

  /** remove_identical_lines (scrape_utilities.py:37-49): the rows go into a set,
      then the set is written out. Which order a Python set yields is not fixed,
      so any order of the distinct rows is a possible output. */
  method RemoveIdenticalLines(rows: seq<Row>) returns (out: seq<Row>)
    ensures forall r :: r in out <==> r in rows
    ensures Distinct(out)
  {
    var unique: set<Row> := {};
    var k := 0;
    while k < |rows|
      invariant 0 <= k <= |rows|
      invariant forall r :: r in unique <==> r in rows[..k]
    {
      assert rows[..k + 1] == rows[..k] + [rows[k]];
      unique := unique + {rows[k]};
      k := k + 1;
    }
    assert rows[..k] == rows;
    out := [];
    var pending := unique;
    while pending != {}
      invariant pending <= unique
      invariant forall r :: r in out <==> r in unique && r !in pending
      invariant Distinct(out)
      decreases |pending|
    {
      var line :| line in pending;
      out := out + [line];
      pending := pending - {line};
    }
  }

  // ---------------------------------------------------------------- get_ogc_services_for_canton

  /** A resource of a CKAN package: its format and its URL. */
  datatype Resource = Resource(format: string, url: string)

  /** A package of the package_search result; `notes` may be missing or null. */
  datatype Package = Package(title: string, notes: Attr<string>, resources: seq<Resource>)

  /** The answer of the CKAN API: the status, the body text, and the packages of
      data['result']['results']. */
  datatype Response = Response(status: int, text: string, packages: seq<Package>)

  /** An entry of ogc_services. */
  datatype Entry = Entry(title: string, url: string, format: string, description: Option<string>)

  /** The file get_ogc_services_for_canton writes, or the exception it raises first. */
  datatype Listing = StatusError(message: string) | Listed(rows: seq<Row>)

  const Header: Row := ["Canton", "URL"]

  /** `resource['format'].lower() in ['wms', 'wfs', 'wmts']`. */
  predicate IsOgcFormat(format: string)
  {
    Lower(format) in ["wms", "wfs", "wmts"]
  }

  /** `result.get('notes', '')`. */
  function Notes(p: Package): Option<string>
  {
    match p.notes
    case Absent => Some("")
    case Null => None
    case Val(v) => Some(v)
  }

  function EntryOf(p: Package, res: Resource): Entry
  {
    Entry(p.title, res.url, res.format, Notes(p))
  }

  /** The entries one package contributes, in resource order. */
  function KeptOf(p: Package, rs: seq<Resource>): (r: seq<Entry>)
    decreases |rs|
  {
    if rs == [] then []
    else
      var last := rs[|rs| - 1];
      KeptOf(p, rs[..|rs| - 1]) + (if IsOgcFormat(last.format) then [EntryOf(p, last)] else [])
  }

  /** ogc_services: results first, then resources within each result. */
  function Kept(ps: seq<Package>): (r: seq<Entry>)
    decreases |ps|
  {
    if ps == [] then [] else Kept(ps[..|ps| - 1]) + KeptOf(ps[|ps| - 1], ps[|ps| - 1].resources)
  }

  /** The file: the header, then one row per entry. */
  function Rows(canton: string, urls: seq<string>): (r: seq<Row>)
    ensures |r| == |urls| + 1 && r[0] == Header
    ensures forall i :: 0 <= i < |urls| ==> r[i + 1] == [canton, urls[i]]
  {
    [Header] + Lines(canton, urls)
  }

  function Lines(canton: string, urls: seq<string>): (r: seq<Row>)
    ensures |r| == |urls|
    ensures forall i :: 0 <= i < |urls| ==> r[i] == [canton, urls[i]]
  {
    if urls == [] then [] else [[canton, urls[0]]] + Lines(canton, urls[1..])
  }

  function Urls(es: seq<Entry>): (r: seq<string>)
    ensures |r| == |es|
    ensures forall i :: 0 <= i < |es| ==> r[i] == es[i].url
  {
    if es == [] then [] else [es[0].url] + Urls(es[1..])
  }

  /** get_ogc_services_for_canton (scrape_utilities.py:84-107), after the
      request: a status other than 200 raises before the file is opened; otherwise
      the nested loops keep the OGC resources and the file lists their URLs. */
  method GetOgcServicesForCanton(response: Response, cantonShort: string) returns (r: Listing)
    ensures response.status != 200 ==> r == StatusError("Error " + Decimal(response.status) + ": " + response.text)
    ensures response.status == 200 ==> r == Listed(Rows(cantonShort, Urls(Kept(response.packages))))
  {
    if response.status != 200 {
      return StatusError("Error " + Decimal(response.status) + ": " + response.text);
    }
    var ps := response.packages;
    var services: seq<Entry> := [];
    var i := 0;
    while i < |ps|
      invariant 0 <= i <= |ps|
      invariant services == Kept(ps[..i])
    {
      var rs := ps[i].resources;
      var j := 0;
      while j < |rs|
        invariant 0 <= j <= |rs|
        invariant services == Kept(ps[..i]) + KeptOf(ps[i], rs[..j])
      {
        if IsOgcFormat(rs[j].format) {
          services := services + [EntryOf(ps[i], rs[j])];
        }
        assert rs[..j + 1][..j] == rs[..j];
        j := j + 1;
      }
      assert rs[..j] == rs;
      assert ps[..i + 1][..i] == ps[..i];
      i := i + 1;
    }
    assert ps[..i] == ps;
    var urls: seq<string> := [];
    var k := 0;
    while k < |services|
      invariant 0 <= k <= |services|
      invariant urls == Urls(services[..k])
    {
      UrlsSnoc(services[..k], services[k]);
      assert services[..k + 1] == services[..k] + [services[k]];
      urls := urls + [services[k].url];
      k := k + 1;
    }
    assert services[..k] == services;
    return Listed(Rows(cantonShort, urls));
  }

  lemma UrlsSnoc(es: seq<Entry>, e: Entry)
    ensures Urls(es + [e]) == Urls(es) + [e.url]
  {
  }

  predicate OgcAt(ps: seq<Package>, i: nat, j: nat)
    requires i < |ps| && j < |ps[i].resources|
  {
    IsOgcFormat(ps[i].resources[j].format)
  }

  /** An entry is kept exactly when its resource, in some result, has an OGC format. */
  lemma {:induction false} KeptExactly(ps: seq<Package>, e: Entry)
    ensures e in Kept(ps) <==>
      exists i, j :: 0 <= i < |ps| && 0 <= j < |ps[i].resources| && OgcAt(ps, i, j) && e == EntryOf(ps[i], ps[i].resources[j])
    decreases |ps|
  {
    if ps != [] {
      var n := |ps| - 1;
      var front := ps[..n];
      assert Kept(ps) == Kept(front) + KeptOf(ps[n], ps[n].resources);
      if e in Kept(ps) {
        if e in Kept(front) {
          KeptExactly(front, e);
          var i, j :| 0 <= i < |front| && 0 <= j < |front[i].resources| && OgcAt(front, i, j) && e == EntryOf(front[i], front[i].resources[j]);
          assert front[i] == ps[i];
          assert OgcAt(ps, i, j) && e == EntryOf(ps[i], ps[i].resources[j]);
        } else {
          KeptOfExactly(ps[n], ps[n].resources, e);
          var j :| 0 <= j < |ps[n].resources| && IsOgcFormat(ps[n].resources[j].format) && e == EntryOf(ps[n], ps[n].resources[j]);
          assert OgcAt(ps, n, j);
        }
      }
      if exists i, j :: 0 <= i < |ps| && 0 <= j < |ps[i].resources| && OgcAt(ps, i, j) && e == EntryOf(ps[i], ps[i].resources[j]) {
        var i, j :| 0 <= i < |ps| && 0 <= j < |ps[i].resources| && OgcAt(ps, i, j) && e == EntryOf(ps[i], ps[i].resources[j]);
        if i < n {
          assert front[i] == ps[i];
          assert OgcAt(front, i, j);
          KeptExactly(front, e);
        } else {
          KeptOfExactly(ps[n], ps[n].resources, e);
        }
      }
    }
  }

  lemma {:induction false} KeptOfExactly(p: Package, rs: seq<Resource>, e: Entry)
    ensures e in KeptOf(p, rs) <==> exists j :: 0 <= j < |rs| && IsOgcFormat(rs[j].format) && e == EntryOf(p, rs[j])
    decreases |rs|
  {
    if rs != [] {
      var n := |rs| - 1;
      KeptOfExactly(p, rs[..n], e);
      assert forall j :: 0 <= j < n ==> rs[..n][j] == rs[j];
    }
  }

  /** The format test ignores case: a format and its lower-cased form agree. */
  lemma FormatCaseBlind(format: string)
    ensures IsOgcFormat(format) <==> IsOgcFormat(Lower(format))
  {
    LowerTwice(format);
  }

  lemma {:induction false} LowerTwice(s: string)
    ensures Lower(Lower(s)) == Lower(s)
  {
    assert forall k :: 0 <= k < |s| ==> LowerChar(LowerChar(s[k])) == LowerChar(s[k]);
  }

  // ---------------------------------------------------------------- extract_urls_with_getcapabilities

  /** `a` is `b` with some elements left out, the rest in their order. */
  predicate Subsequence<T(==)>(a: seq<T>, b: seq<T>)
    decreases |b|
  {
    a == [] || (b != [] && ((a[0] == b[0] && Subsequence(a[1..], b[1..])) || Subsequence(a, b[1..])))
  }

  /** The comprehension of scrape_utilities.py:136: the href values, in document
      order, that contain "GetCapabilities" exactly as written. */
  function CapabilitiesLinks(hrefs: seq<string>): (r: seq<string>)
    ensures forall u :: u in r <==> u in hrefs && Contains(u, "GetCapabilities")
    ensures forall u :: u in hrefs && Contains(u, "GetCapabilities") ==> multiset(r)[u] == multiset(hrefs)[u]
    ensures Subsequence(r, hrefs)
  {
    if hrefs == [] then []
    else
      var rest := CapabilitiesLinks(hrefs[1..]);
      assert hrefs == [hrefs[0]] + hrefs[1..];
      if Contains(hrefs[0], "GetCapabilities") then [hrefs[0]] + rest
      else rest
  }

  /** extract_urls_with_getcapabilities (scrape_utilities.py:136-143), after the
      page is fetched and parsed: the header, then one row per kept link. */
  function CapabilitiesListing(canton: string, hrefs: seq<string>): (r: seq<Row>)
    ensures |r| == |CapabilitiesLinks(hrefs)| + 1 && r[0] == Header
    ensures forall i :: 1 <= i < |r| ==> exists u :: u in hrefs && Contains(u, "GetCapabilities") && r[i] == [canton, u]
  {
    Rows(canton, CapabilitiesLinks(hrefs))
  }
}
