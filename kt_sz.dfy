// scraper/KT_SZ.py: the scraper of the canton of Schwyz.
module KtSz {
  import opened Python
  import opened Capabilities
  import opened Cleaning
  import opened Record
  import opened Script
  import opened Links

  /** KT_SZ.py:7, 10, 38, 60 and 83: substrings of source['URL']. */
  const Marks: Markers := Markers("WMS", Some("WMTS"), "WFS", false)

  function Dispatch(c: Call): Result<Branch>
  {
    Ok(ChooseBranch(c.source.url, Marks))
  }

  /** The statements of each branch in four groups: identity, description, position, link. */
  function Part(b: Branch, i: nat): Stmts
  {
    match b
    case WmsBranch => if i == 0 then WmsIdentity() else if i == 1 then WmsDescription() else if i == 2 then WmsPosition() else WmsMap()
    case WmtsBranch => if i == 0 then WmtsIdentity() else if i == 1 then WmtsDescription() else if i == 2 then WmtsPosition() else WmtsMap()
    case WfsBranch => if i == 0 then WfsIdentity() else if i == 1 then WfsDescription() else if i == 2 then WfsPosition() else Nil
    case _ => Nil
  }

  /** KT_SZ.py:11-16. */
  function WmsIdentity(): Stmts
  {
    Cons(Store(OWNER, Of(Just(Owner))),
    Cons(Store(TITLE, Of(Just(Title))),
    Cons(Store(NAME, Of(Just(Name))),
    Cons(Store(TREE, Of(Just(Tree))),
    Cons(Store(GROUP, GroupOrBlank),
    Cons(Store(ABSTRACT, Of(Just(ParentAbstract))), Nil))))))
  }

  /** KT_SZ.py:17-26: the metadata is the one URL in the abstract. */
  function WmsDescription(): Stmts
  {
    Cons(Store(KEYWORDS, JoinedKeywords),
    Cons(Store(LEGEND, LegendIfDefault),
    Cons(Store(CONTACT, Of(Just(Lit(Contact)))),
    Cons(Store(SERVICELINK, Of(Just(Request))),
    Cons(Store(METADATA, Of(IfSome(Abstract, SoleUrlIn(Just(Abstract)), Just(Lit(""))))),
    Cons(Store(UPDATE, Of(Just(Lit("")))), Nil))))))
  }

  /** KT_SZ.py:27-31. */
  function WmsPosition(): Stmts
  {
    Cons(Store(SERVICETYPE, Of(Just(ServiceKind))),
    Cons(Store(MAX_ZOOM, Int(7)),
    Cons(Store(CENTER_LAT, Mid(Wgs84, 1, 3)),
    Cons(Store(CENTER_LON, Mid(Wgs84, 0, 2)),
    Cons(Store(BBOX, Joined(Native)), Nil)))))
  }

  /** KT_SZ.py:32-35. */
  function WmsMap(): Stmts
  {
    Cons(Store(MAPGEO, Of(Cat(WmsLink(Title)))), Nil)
  }

  /** KT_SZ.py:39-44. */
  function WmtsIdentity(): Stmts
  {
    Cons(Store(OWNER, Of(Just(Owner))),
    Cons(Store(TITLE, Of(Just(Title))),
    Cons(Store(NAME, Of(Just(Name))),
    Cons(Store(TREE, Of(Just(Tree))),
    Cons(Store(GROUP, GroupOrBlank),
    Cons(Store(ABSTRACT, Of(Just(ServiceAbstract))), Nil))))))
  }

  /** KT_SZ.py:45-50. */
  function WmtsDescription(): Stmts
  {
    Cons(Store(KEYWORDS, JoinedKeywords),
    Cons(Store(LEGEND, LegendIfLegendKey),
    Cons(Store(CONTACT, Of(Just(ProviderName))),
    Cons(Store(SERVICELINK, Of(Just(Url))),
    Cons(Store(METADATA, Of(Just(ServiceMetadataUrl))),
    Cons(Store(UPDATE, Of(Just(Lit("")))), Nil))))))
  }

  /** KT_SZ.py:51-55. */
  function WmtsPosition(): Stmts
  {
    Cons(Store(SERVICETYPE, Of(Just(ServiceKind))),
    Cons(Store(MAX_ZOOM, Int(7)),
    Cons(Store(CENTER_LAT, Of(Just(Lit(Lat)))),
    Cons(Store(CENTER_LON, Of(Just(Lit(Lon)))),
    Cons(Store(BBOX, Of(Just(Lit(Extent)))), Nil)))))
  }

  /** KT_SZ.py:56-58. */
  function WmtsMap(): Stmts
  {
    Cons(Store(MAPGEO, Of(Cat(WmtsLink(Title)))), Nil)
  }

  /** KT_SZ.py:61-66. */
  function WfsIdentity(): Stmts
  {
    Cons(Store(OWNER, Of(Just(Owner))),
    Cons(Store(TITLE, Of(Just(Title))),
    Cons(Store(NAME, Of(Just(Id))),
    Cons(Store(TREE, Of(Just(Tree))),
    Cons(Store(GROUP, GroupOrBlank),
    Cons(Store(ABSTRACT, Of(Just(Abstract))), Nil))))))
  }

  /** KT_SZ.py:67-76. */
  function WfsDescription(): Stmts
  {
    Cons(Store(KEYWORDS, JoinedKeywords),
    Cons(Store(LEGEND, Of(Just(Lit("")))),
    Cons(Store(CONTACT, Of(Just(Lit(Contact)))),
    Cons(Store(SERVICELINK, Of(Just(Url))),
    Cons(Store(METADATA, Of(IfSome(Abstract, SoleUrlIn(Just(Abstract)), Just(Lit(""))))),
    Cons(Store(UPDATE, Of(Just(Lit("")))), Nil))))))
  }

  /** KT_SZ.py:77-81. */
  function WfsPosition(): Stmts
  {
    Cons(Store(SERVICETYPE, Of(Just(Lit("OGC:WFS")))),
    Cons(Store(MAX_ZOOM, Of(Just(Lit("")))),
    Cons(Store(CENTER_LAT, Mid(Wgs84, 1, 3)),
    Cons(Store(CENTER_LON, Mid(Wgs84, 0, 2)),
    Cons(Store(BBOX, Joined(Wgs84)), Nil)))))
  }

  /** The fixed contact, KT_SZ.py:19 and 69, and the WMTS centre and box, KT_SZ.py:53-55. */
  const Contact: string := "geoportal@sz.ch"
  const Lat: string := "47.0561"
  const Lon: string := "8.696785"
  const Extent: string := " "
}
