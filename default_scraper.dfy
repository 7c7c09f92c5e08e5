// scraper/default.py: the strategy used for every owner without a module of its own.
module DefaultScraper {
  import opened Python
  import opened Capabilities
  import opened Cleaning
  import opened Record
  import opened Script
  import opened Links

  /** The statements every branch runs first, default.py:67-196, in three groups:
      the layer's identity, its description and service links, and its position. */
  function Identity(): Stmts
  {
    Cons(Store(OWNER, Of(Just(Owner))),
    Cons(Store(TITLE, Of(Just(Title))),
    Cons(Store(NAME, NameOrId),
    Cons(Store(TREE, Of(Just(Tree))),
    Cons(Store(GROUP, ParentOrGroup),
    Cons(Store(ABSTRACT, Of(Cleaned(TagsAndControlsCleaner, Just(Abstract)))),
    Nil))))))
  }

  function Description(): Stmts
  {
    Cons(Store(KEYWORDS, PresentKeywords),
    Cons(Store(LEGEND, LegendChain),
    Cons(Store(CONTACT, ContactChain),
    Cons(Store(SERVICELINK, ServiceLinkChain),
    Cons(Store(METADATA, MetadataFallbacks()),
    Cons(Store(UPDATE, Of(Just(Lit("")))),
    Nil))))))
  }

  /** default.py:148-161, one nested `try` at a time: the layer's single metadata URL,
      the service's metadata URL, the first sub-layer's, and an abstract search that
      names `regex`, which this module does not define. */
  function MetadataFallbacks(): Expr
  {
    Attempt(SoleMetadataUrl, ServiceMetadataFallback())
  }

  function ServiceMetadataFallback(): Expr
  {
    Attempt(Of(Just(ServiceMetadataUrl)), SubLayerFallback())
  }

  function SubLayerFallback(): Expr
  {
    Attempt(SubLayerMetadataUrl, AbstractUrlFallback())
  }

  function AbstractUrlFallback(): Expr
  {
    Attempt(Unbound("regex"), Of(Just(Lit(""))))
  }

  function Position(): Stmts
  {
    Cons(Store(MAX_ZOOM, Int(7)),
    Cons(Store(CENTER_LAT, CentreOr(true)),
    Cons(Store(CENTER_LON, CentreOr(false)),
    Cons(Store(BBOX, BoxOrDefault),
    Nil))))
  }

  /** The statements of each branch, default.py:202-236. */
  function WmsTail(): Stmts
  {
    Cons(Store(SERVICETYPE, Of(Just(Lit("WMS")))), Cons(Store(MAPGEO, Of(Cat(WmsLink(Title)))), Nil))
  }

  function BundWmsTail(): Stmts
  {
    Cons(Store(SERVICETYPE, Of(Just(Lit("WMS")))), Cons(Store(MAPGEO, Of(Cat(BundWmsLink()))), Nil))
  }

  function WmtsTail(): Stmts
  {
    Cons(Store(SERVICETYPE, Of(Just(Lit("WMTS")))), Cons(Store(MAPGEO, Of(Cat(WmtsLink(Id)))), Nil))
  }

  function BundWmtsTail(): Stmts
  {
    Cons(Store(SERVICETYPE, Of(Just(Lit("WMTS")))), Cons(Store(MAPGEO, Of(Cat(BundWmtsLink()))), Nil))
  }

  function WfsTail(): Stmts
  {
    Cons(Store(SERVICETYPE, Of(Just(Lit("WFS")))), Nil)
  }

  /** The protocol branch, chosen by substrings of source['URL'], WMS first. */
  function BranchOf(t: string): Branch
  {
    if Contains(t, "WMS") || Contains(t, "wms") then WmsBranch
    else if Contains(t, "WMTS") || Contains(t, "wmts") then WmtsBranch
    else if Contains(t, "WFS") || Contains(t, "wfs") then WfsBranch
    else if Contains(t, "STAC") then StacBranch
    else NoBranch
  }

  /** The owner whose links point at the provider's URL. */
  predicate IsBund(c: Call)
  {
    c.source.description == "Bund"
  }

  function Tail(c: Call): Stmts
  {
    match BranchOf(c.source.url)
    case WmsBranch => if IsBund(c) then BundWmsTail() else WmsTail()
    case WmtsBranch => if IsBund(c) then BundWmtsTail() else WmtsTail()
    case WfsBranch => WfsTail()
    case _ => Nil
  }

  /** The statement groups of a branch: the shared ones, then the branch's own. */
  function Body(tail: Stmts): Groups
  {
    Group(Identity(), Group(Description(), Group(Position(), Group(tail, Last))))
  }

  /** default.py:35-240: the shared statements, the branch's own, and its return;
      the STAC branch falls off the end of the function. */
  function Plan(c: Call): Script
  {
    Script(Flatten(Body(Tail(c))),
      match BranchOf(c.source.url)
      case StacBranch => GiveNone
      case NoBranch => GiveFalse
      case _ => GiveDict)
  }

  /** The record after `scrape` ran. */
  function Final(c: Call, m: map<Key, Value>): (r: map<Key, Value>)
    requires Complete(m)
    ensures Complete(r)
  {
    Run(Plan(c), c, m).values
  }

  /** `scrape` returned `layer_data`. */
  predicate Returns(c: Call, m: map<Key, Value>)
    requires Complete(m)
  {
    Run(Plan(c), c, m).returned == Dict
  }
}
