// scraper/KT_SO.py: the scraper of the canton of Solothurn.
module KtSo {
  import opened Python
  import opened Capabilities
  import opened Cleaning
  import opened Record
  import opened Script
  import opened Links

  /** KT_SO.py:8-9, 33, 56 and 76: lower-case substrings of source['URL']. */
  const Marks: Markers := Markers("wms", Some("wmts"), "wfs", false)

  function Dispatch(c: Call): Result<Branch>
  {
    Ok(ChooseBranch(c.source.url, Marks))
  }

  /** The statements of each branch in four groups: identity, description, position, link. */
  function Part(b: Branch, i: nat): Stmts
  {
    match b
    case WmsBranch => if i == 0 then WmsIdentity() else if i == 1 then WmsDescription() else if i == 2 then WmsPosition() else WmsMap()
    case WmtsBranch => if i == 0 then WmtsIdentity() else if i == 1 then WmtsDescription() else if i == 2 then WmtsPosition() else WmtsMap()
    case WfsBranch => if i == 0 then WfsIdentity() else if i == 1 then WfsDescription() else if i == 2 then WfsPosition() else Nil
    case _ => Nil
  }

  /** KT_SO.py:10-15. */
  function WmsIdentity(): Stmts
  {
    Cons(Store(OWNER, Of(Just(Owner))),
    Cons(Store(TITLE, Of(Just(Title))),
    Cons(Store(NAME, Of(Just(Name))),
    Cons(Store(TREE, Of(Just(Tree))),
    Cons(Store(GROUP, GroupOrBlank),
    Cons(Store(ABSTRACT, Of(Just(Abstract))), Nil))))))
  }

  /** KT_SO.py:16-21. */
  function WmsDescription(): Stmts
  {
    Cons(Store(KEYWORDS, JoinedKeywords),
    Cons(Store(LEGEND, LegendIfDefault),
    Cons(Store(CONTACT, Of(Just(ProviderName))),
    Cons(Store(SERVICELINK, Of(Just(Request))),
    Cons(Store(METADATA, MetadataUrlIfZero),
    Cons(Store(UPDATE, Of(Just(Lit("")))), Nil))))))
  }

  /** KT_SO.py:22-26. */
  function WmsPosition(): Stmts
  {
    Cons(Store(SERVICETYPE, Of(Just(ServiceKind))),
    Cons(Store(MAX_ZOOM, Int(7)),
    Cons(Store(CENTER_LAT, Mid(Wgs84, 1, 3)),
    Cons(Store(CENTER_LON, Mid(Wgs84, 0, 2)),
    Cons(Store(BBOX, Joined(Native)), Nil)))))
  }

  /** KT_SO.py:27-30. */
  function WmsMap(): Stmts
  {
    Cons(Store(MAPGEO, Of(Cat(WmsLink(Title)))), Nil)
  }

  /** KT_SO.py:35-40. */
  function WmtsIdentity(): Stmts
  {
    Cons(Store(OWNER, Of(Just(Owner))),
    Cons(Store(TITLE, Of(Just(Title))),
    Cons(Store(NAME, Of(Just(Name))),
    Cons(Store(TREE, Of(Just(Tree))),
    Cons(Store(GROUP, GroupOrBlank),
    Cons(Store(ABSTRACT, Of(Just(ServiceAbstract))), Nil))))))
  }

  /** KT_SO.py:41-46. */
  function WmtsDescription(): Stmts
  {
    Cons(Store(KEYWORDS, JoinedKeywords),
    Cons(Store(LEGEND, LegendIfLegendKey),
    Cons(Store(CONTACT, Of(Just(ProviderName))),
    Cons(Store(SERVICELINK, Of(Just(Url))),
    Cons(Store(METADATA, Of(Just(ServiceMetadataUrl))),
    Cons(Store(UPDATE, Of(Just(Lit("")))), Nil))))))
  }

  /** KT_SO.py:47-51. */
  function WmtsPosition(): Stmts
  {
    Cons(Store(SERVICETYPE, Of(Just(ServiceKind))),
    Cons(Store(MAX_ZOOM, Int(7)),
    Cons(Store(CENTER_LAT, Of(Just(Lit(Lat)))),
    Cons(Store(CENTER_LON, Of(Just(Lit(Lon)))),
    Cons(Store(BBOX, Of(Just(Lit(Extent)))), Nil)))))
  }

  /** KT_SO.py:52-54. */
  function WmtsMap(): Stmts
  {
    Cons(Store(MAPGEO, Of(Cat(WmtsLink(Title)))), Nil)
  }

  /** KT_SO.py:58-63. */
  function WfsIdentity(): Stmts
  {
    Cons(Store(OWNER, Of(Just(Owner))),
    Cons(Store(TITLE, Of(Just(Title))),
    Cons(Store(NAME, Of(Just(Id))),
    Cons(Store(TREE, Of(Just(Tree))),
    Cons(Store(GROUP, GroupOrBlank),
    Cons(Store(ABSTRACT, Of(Just(Abstract))), Nil))))))
  }

  /** KT_SO.py:64-69. */
  function WfsDescription(): Stmts
  {
    Cons(Store(KEYWORDS, JoinedKeywords),
    Cons(Store(LEGEND, Of(Just(Lit("")))),
    Cons(Store(CONTACT, Of(Just(ContactEmail))),
    Cons(Store(SERVICELINK, Of(Just(Url))),
    Cons(Store(METADATA, MetadataUrlIfZero),
    Cons(Store(UPDATE, Of(Just(Lit("")))), Nil))))))
  }

  /** KT_SO.py:70-74. */
  function WfsPosition(): Stmts
  {
    Cons(Store(SERVICETYPE, Of(Just(Lit("WFS")))),
    Cons(Store(MAX_ZOOM, Of(Just(Lit("")))),
    Cons(Store(CENTER_LAT, Mid(Wgs84, 1, 3)),
    Cons(Store(CENTER_LON, Mid(Wgs84, 0, 2)),
    Cons(Store(BBOX, Joined(Wgs84)), Nil)))))
  }

  /** The fixed centre and extent of the WMTS branch, KT_SO.py:49-51. */
  const Lat: string := "47.2912"
  const Lon: string := "7.684424999999999"
  const Extent: string := "783689.0 5945280.0 927163.0 6034410.0 EPSG:3857"
}
