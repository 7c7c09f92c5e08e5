// The parsed capabilities document of one OGC service, as the scrapers see it,
// and the arguments every scraper receives.
module Capabilities {
  import opened Python

  /** One row of the source collection: the owner and its GetCapabilities URL. */
  datatype Source = Source(description: string, url: string)

  /** A style; `legend` is None when the style has no 'legend' entry. */
  datatype Style = Style(name: string, legend: Option<string>)

  /** One metadataUrls entry; `url` is None when the entry has no 'url' key. */
  datatype MetadataLink = MetadataLink(url: Option<string>)

  /** One element of a bounding box: a number, a text such as a CRS name,
      or a box object whose `extent` is a tuple of numbers. */
  datatype BoxItem = Ordinate(x: real) | Label(text: string) | Envelope(extent: seq<real>)

  datatype ParentLayer = ParentLayer(name: Option<string>, abstractText: Option<string>)

  /** One entry of `service.contents`, keyed by `id`. */
  datatype Layer = Layer(
    id: string,
    title: Option<string>,
    name: Attr<string>,
    abstractText: Option<string>,
    keywords: Option<seq<Option<string>>>,
    parent: Attr<ParentLayer>,
    styles: Attr<seq<Style>>,
    children: Attr<seq<Layer>>,
    sublayers: Attr<seq<Layer>>,
    metadataUrls: Attr<seq<MetadataLink>>,
    wgs84: Attr<seq<BoxItem>>,
    bbox: Attr<seq<BoxItem>>)

  datatype Identification = Identification(
    title: Option<string>,
    abstractText: Option<string>,
    accessConstraints: Option<string>,
    keywords: Option<seq<Option<string>>>,
    version: Option<string>,
    kind: Option<string>)

  datatype Contact = Contact(name: Attr<string>, email: Attr<string>)

  datatype Provider = Provider(name: Attr<string>, url: Option<string>, contact: Attr<Contact>)

  datatype Service = Service(
    url: Attr<string>,
    request: Attr<string>,
    identification: Identification,
    provider: Attr<Provider>,
    metadataUrl: Attr<string>,
    contents: seq<Layer>)

  /** The `group` argument: 0 for a top-level layer, else the parent layer id. */
  datatype Group = Root | Under(parent: string)

  /** Library behaviour the model does not reimplement: str(float), str(list),
      str() of a bounding-box object, float(text), the URL regular expression,
      and str(exception). */
  datatype Host = Host(
    showReal: real -> string,
    showList: seq<Option<string>> -> string,
    showEnvelope: seq<real> -> string,
    parseFloat: string -> Option<real>,
    findUrls: string -> seq<string>,
    stripUrls: string -> string,
    describe: Fault -> string)

  /** The arguments of `scrape(source, service, i, layertree, group, layer_data, prefix)`
      other than layer_data. */
  datatype Call = Call(
    source: Source,
    service: Service,
    layerId: string,
    tree: string,
    group: Group,
    prefix: string,
    host: Host)

  /** The keys of `service.contents`, in order. */
  function Ids(contents: seq<Layer>): (r: seq<string>)
    ensures |r| == |contents|
    ensures forall k :: 0 <= k < |contents| ==> r[k] == contents[k].id
  {
    if contents == [] then [] else [contents[0].id] + Ids(contents[1..])
  }

  /** `service.contents[i]`: the first layer with that id. */
  function Lookup(contents: seq<Layer>, id: string): (r: Option<Layer>)
    ensures r.None? <==> id !in Ids(contents)
    ensures r.Some? ==> r.value in contents && r.value.id == id
  {
    if contents == [] then None
    else if contents[0].id == id then Some(contents[0])
    else Lookup(contents[1..], id)
  }

  /** The layer a call is about; a missing key raises KeyError. */
  function LayerOf(c: Call): (r: Result<Layer>)
    ensures r.Ok? <==> c.layerId in Ids(c.service.contents)
    ensures r.Ok? ==> r.value.id == c.layerId
  {
    match Lookup(c.service.contents, c.layerId)
    case None => Err(KeyError(c.layerId))
    case Some(l) => Ok(l)
  }

  /** `str(t)` for a tuple of floats. */
  function TupleText(xs: seq<real>, h: Host): string
  {
    "(" + Join(", ", ShowAll(xs, h)) + (if |xs| == 1 then ",)" else ")")
  }

  function ShowAll(xs: seq<real>, h: Host): (r: seq<string>)
    ensures |r| == |xs|
    ensures forall k :: 0 <= k < |xs| ==> r[k] == h.showReal(xs[k])
  {
    if xs == [] then [] else [h.showReal(xs[0])] + ShowAll(xs[1..], h)
  }
}
