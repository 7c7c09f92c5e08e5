// scraper/KT_BL.py: the scraper of the canton of Basel-Landschaft.
module KtBl {
  import opened Python
  import opened Capabilities
  import opened Cleaning
  import opened Record
  import opened Script
  import opened Links

  /** KT_BL.py:12-14, 38, 61 and 80: substrings of source['URL']. */
  const Marks: Markers := Markers("WMS", Some("WMTS"), "WFS", false)

  function Dispatch(c: Call): Result<Branch>
  {
    Ok(ChooseBranch(c.source.url, Marks))
  }

  /** The statements of each branch in four groups: identity, description, position, link. */
  function Part(b: Branch, i: nat): Stmts
  {
    match b
    case WmsBranch => if i == 0 then WmsIdentity() else if i == 1 then WmsDescription() else if i == 2 then WmsPosition() else WmsMap()
    case WmtsBranch => if i == 0 then WmtsIdentity() else if i == 1 then WmtsDescription() else if i == 2 then WmtsPosition() else WmtsMap()
    case WfsBranch => if i == 0 then WfsIdentity() else if i == 1 then WfsDescription() else if i == 2 then WfsPosition() else Nil
    case _ => Nil
  }

  function WmsIdentity(): Stmts
  {
    Cons(Store(OWNER, Of(Just(Owner))),
    Cons(Store(TITLE, Of(Just(Title))),
    Cons(Store(NAME, Of(Just(Name))),
    Cons(Store(TREE, Of(Just(Tree))),
    Cons(Store(GROUP, ParentNameOrBlank),
    Cons(Store(ABSTRACT, Of(Cleaned(CrlfOnlyCleaner, Just(Abstract)))), Nil))))))
  }

  function WmsDescription(): Stmts
  {
    Cons(Store(KEYWORDS, JoinedKeywords),
    Cons(Store(LEGEND, LegendIfDefault),
    Cons(Store(CONTACT, Of(Just(ContactEmail))),
    Cons(Store(SERVICELINK, Of(Just(Request))),
    Cons(Store(METADATA, MetadataUrlIfZero),
    Cons(Store(UPDATE, Of(Just(Lit("")))), Nil))))))
  }

  function WmsPosition(): Stmts
  {
    Cons(Store(SERVICETYPE, Of(Just(Lit("WMS")))),
    Cons(Store(MAX_ZOOM, Int(7)),
    Cons(Store(CENTER_LAT, Mid(Wgs84, 1, 3)),
    Cons(Store(CENTER_LON, Mid(Wgs84, 0, 2)),
    Cons(Store(BBOX, Joined(Native)), Nil)))))
  }

  function WmsMap(): Stmts
  {
    Cons(Store(MAPGEO, Of(Cat(WmsLink(Title)))), Nil)
  }

  function WmtsIdentity(): Stmts
  {
    Cons(Store(OWNER, Of(Just(Owner))),
    Cons(Store(TITLE, Of(Just(Title))),
    Cons(Store(NAME, Of(Just(Name))),
    Cons(Store(TREE, Of(Just(Tree))),
    Cons(Store(GROUP, GroupOrBlank),
    Cons(Store(ABSTRACT, Of(Just(Lit("")))), Nil))))))
  }

  function WmtsDescription(): Stmts
  {
    Cons(Store(KEYWORDS, JoinedKeywords),
    Cons(Store(LEGEND, LegendIfLegendKey),
    Cons(Store(CONTACT, Of(Just(ContactEmail))),
    Cons(Store(SERVICELINK, Of(Just(Url))),
    Cons(Store(METADATA, Of(Just(ServiceMetadataUrl))),
    Cons(Store(UPDATE, Of(Just(Lit("")))), Nil))))))
  }

  function WmtsPosition(): Stmts
  {
    Cons(Store(SERVICETYPE, Of(Just(Lit("WMTS")))),
    Cons(Store(MAX_ZOOM, Int(7)),
    Cons(Store(CENTER_LAT, Of(Just(Lit(Lat)))),
    Cons(Store(CENTER_LON, Of(Just(Lit(Lon)))),
    Cons(Store(BBOX, Of(Just(Lit(Extent)))), Nil)))))
  }

  function WmtsMap(): Stmts
  {
    Cons(Store(MAPGEO, Of(Cat(WmtsLink(Title)))), Nil)
  }

  function WfsIdentity(): Stmts
  {
    Cons(Store(OWNER, Of(Just(Owner))),
    Cons(Store(TITLE, Of(Just(Title))),
    Cons(Store(NAME, Of(Just(Id))),
    Cons(Store(TREE, Of(Just(Tree))),
    Cons(Store(GROUP, GroupOrBlank),
    Cons(Store(ABSTRACT, Of(Cleaned(CrlfOnlyCleaner, Just(Abstract)))), Nil))))))
  }

  function WfsDescription(): Stmts
  {
    Cons(Store(KEYWORDS, JoinedKeywords),
    Cons(Store(LEGEND, Of(Just(Lit("")))),
    Cons(Store(CONTACT, Of(Just(ContactEmail))),
    Cons(Store(SERVICELINK, Of(Just(Url))),
    Cons(Store(METADATA, MetadataUrlIfZero),
    Cons(Store(UPDATE, Of(Just(Lit("")))), Nil))))))
  }

  function WfsPosition(): Stmts
  {
    Cons(Store(SERVICETYPE, Of(Just(ServiceKind))),
    Cons(Store(MAX_ZOOM, Of(Just(Lit("")))),
    Cons(Store(CENTER_LAT, Mid(Wgs84, 1, 3)),
    Cons(Store(CENTER_LON, Mid(Wgs84, 0, 2)),
    Cons(Store(BBOX, Joined(Wgs84)), Nil)))))
  }

  /** The fixed centre and extent of the WMTS branch, KT_BL.py:53-55. */
  const Lat: string := "47.4675"
  const Lon: string := "7.671"
  const Extent: string := "2590000.0 1240000.0 2645000.0 1275000.0 EPSG:2056"
}
