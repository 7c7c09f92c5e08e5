// scraper/KT_BE.py: the scraper of the canton of Bern.
module KtBe {
  import opened Python
  import opened Capabilities
  import opened Cleaning
  import opened Record
  import opened Script
  import opened Links

  /** KT_BE.py:5-7, 31-36: `service.identification.type` compared for equality. */
  function Dispatch(c: Call): Result<Branch>
  {
    var t := c.service.identification.kind;
    Ok(if t == Some("WMS") then WmsBranch
       else if t == Some("WMTS") then WmtsBranch
       else if t == Some("STAC") then StacBranch
       else NoBranch)
  }

  /** The statements of each branch in four groups: identity, description, position, link. */
  function Part(b: Branch, i: nat): Stmts
  {
    match b
    case WmsBranch => if i == 0 then WmsIdentity() else if i == 1 then WmsDescription() else if i == 2 then WmsPosition() else WmsMap()
    case _ => Nil
  }

  /** KT_BE.py:8-14. */
  function WmsIdentity(): Stmts
  {
    Cons(Store(OWNER, Of(Just(Owner))),
    Cons(Store(TITLE, Of(Just(Title))),
    Cons(Store(NAME, Of(Just(Name))),
    Cons(Store(TREE, Of(Just(Tree))),
    Cons(Store(GROUP, GroupOrBlank),
    Cons(Store(ABSTRACT, Of(Replaced(Cat(Plus(Abstract, Plus(Lit(" "), Plus(ParentAbstract, Done)))), Newline))), Nil))))))
  }

  /** KT_BE.py:15-21. */
  function WmsDescription(): Stmts
  {
    Cons(Store(KEYWORDS, LayerKeywords),
    Cons(Store(LEGEND, LegendIfDefault),
    Cons(Store(CONTACT, Of(Just(ContactEmail))),
    Cons(Store(SERVICELINK, Of(Just(Request))),
    Cons(Store(METADATA, MetadataUrlIfZero),
    Cons(Store(UPDATE, Of(Just(Lit("")))), Nil))))))
  }

  /** KT_BE.py:22-25: no BBOX. */
  function WmsPosition(): Stmts
  {
    Cons(Store(SERVICETYPE, Of(Just(ServiceKind))),
    Cons(Store(MAX_ZOOM, Int(7)),
    Cons(Store(CENTER_LAT, Mid(Wgs84, 1, 3)),
    Cons(Store(CENTER_LON, Mid(Wgs84, 0, 2)), Nil))))
  }

  /** KT_BE.py:26-29. */
  function WmsMap(): Stmts
  {
    Cons(Store(MAPGEO, Of(Cat(TypedWmsLink()))), Nil)
  }
}
