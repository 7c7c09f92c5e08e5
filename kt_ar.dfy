// scraper/KT_AR.py: the scraper of the canton of Appenzell Ausserrhoden.
module KtAr {
  import opened Python
  import opened Capabilities
  import opened Cleaning
  import opened Record
  import opened Script
  import opened Links

  /** KT_AR.py:6-8, 43, 65 and 94: substrings of source['URL']. */
  const Marks: Markers := Markers("WMS", Some("WMTS"), "WFS", false)

  function Dispatch(c: Call): Result<Branch>
  {
    Ok(ChooseBranch(c.source.url, Marks))
  }

  /** The statements of each branch in four groups: identity, description, position, link. */
  function Part(b: Branch, i: nat): Stmts
  {
    match b
    case WmsBranch => if i == 0 then WmsIdentity() else if i == 1 then WmsDescription() else if i == 2 then WmsPosition() else WmsMap()
    case WmtsBranch => if i == 0 then WmtsIdentity() else if i == 1 then WmtsDescription() else if i == 2 then WmtsPosition() else WmtsMap()
    case WfsBranch => if i == 0 then WfsIdentity() else if i == 1 then WfsDescription() else if i == 2 then WfsPosition() else Nil
    case _ => Nil
  }

  /** KT_AR.py:9-19. */
  function WmsIdentity(): Stmts
  {
    Cons(Store(OWNER, Of(Just(Owner))),
    Cons(Store(TITLE, Of(Just(Title))),
    Cons(Store(NAME, Of(Just(Name))),
    Cons(Store(TREE, Of(Just(Tree))),
    Cons(Store(GROUP, ParentNameOrBlank),
    Cons(Store(ABSTRACT, Of(Replaced(WithParentAbstract(Just(Abstract)), Newline))), Nil))))))
  }

  /** KT_AR.py:20-30; the keyword test is KeywordsUnlessBrackets. */
  function WmsDescription(): Stmts
  {
    Cons(Store(KEYWORDS, KeywordsUnlessBrackets),
    Cons(Store(LEGEND, LegendIfDefault),
    Cons(Store(CONTACT, Of(Just(ContactName))),
    Cons(Store(SERVICELINK, Of(Just(Request))),
    Cons(Store(METADATA, SoleMetadataUrl),
    Cons(Store(UPDATE, Of(Just(Lit("")))), Nil))))))
  }

  /** KT_AR.py:31-35. */
  function WmsPosition(): Stmts
  {
    Cons(Store(SERVICETYPE, Of(Just(Lit("OGC:WMS")))),
    Cons(Store(MAX_ZOOM, Int(7)),
    Cons(Store(CENTER_LAT, Mid(Wgs84, 1, 3)),
    Cons(Store(CENTER_LON, Mid(Wgs84, 0, 2)),
    Cons(Store(BBOX, Joined(Native)), Nil)))))
  }

  /** KT_AR.py:36-39. */
  function WmsMap(): Stmts
  {
    Cons(Store(MAPGEO, Of(Cat(WmsLink(Title)))), Nil)
  }

  /** KT_AR.py:44-49: `remove_newline` is not defined in this module. */
  function WmtsIdentity(): Stmts
  {
    Cons(Store(OWNER, Of(Just(Owner))),
    Cons(Store(TITLE, Of(Just(Title))),
    Cons(Store(NAME, Of(Just(Name))),
    Cons(Store(TREE, Of(Just(Tree))),
    Cons(Store(GROUP, GroupOrBlank),
    Cons(Store(ABSTRACT, Of(Cleaned(Missing, ServiceAbstractAndConstraints()))), Nil))))))
  }

  /** KT_AR.py:50-55. */
  function WmtsDescription(): Stmts
  {
    Cons(Store(KEYWORDS, JoinedKeywords),
    Cons(Store(LEGEND, LegendIfLegendKey),
    Cons(Store(CONTACT, Of(Just(ProviderName))),
    Cons(Store(SERVICELINK, Of(Just(Url))),
    Cons(Store(METADATA, Of(Just(ServiceMetadataUrl))),
    Cons(Store(UPDATE, Of(Just(Lit("")))), Nil))))))
  }

  /** KT_AR.py:56-60. */
  function WmtsPosition(): Stmts
  {
    Cons(Store(SERVICETYPE, Of(Just(Lit("OGC:WMTS")))),
    Cons(Store(MAX_ZOOM, Int(7)),
    Cons(Store(CENTER_LAT, Mid(Wgs84, 1, 3)),
    Cons(Store(CENTER_LON, Mid(Wgs84, 0, 2)),
    Cons(Store(BBOX, Joined(Wgs84)), Nil)))))
  }

  /** KT_AR.py:61-63. */
  function WmtsMap(): Stmts
  {
    Cons(Store(MAPGEO, Of(Cat(WmtsLink(Id)))), Nil)
  }

  /** KT_AR.py:66-75. */
  function WfsIdentity(): Stmts
  {
    Cons(Store(OWNER, Of(Just(Owner))),
    Cons(Store(TITLE, Of(Just(Title))),
    Cons(Store(NAME, Of(Just(Id))),
    Cons(Store(TREE, Of(Just(Tree))),
    Cons(Store(GROUP, GroupOrBlank),
    Cons(Store(ABSTRACT, Of(Replaced(WithParentAbstract(Just(Abstract)), Newline))), Nil))))))
  }

  /** KT_AR.py:76-86. */
  function WfsDescription(): Stmts
  {
    Cons(Store(KEYWORDS, KeywordsUnlessBrackets),
    Cons(Store(LEGEND, LegendIfSingle),
    Cons(Store(CONTACT, Of(Just(ContactName))),
    Cons(Store(SERVICELINK, Of(Just(Url))),
    Cons(Store(METADATA, SoleMetadataUrl),
    Cons(Store(UPDATE, Of(Just(Lit("")))), Nil))))))
  }

  /** KT_AR.py:87-91. */
  function WfsPosition(): Stmts
  {
    Cons(Store(SERVICETYPE, Of(Just(Lit("OGC:WFS")))),
    Cons(Store(MAX_ZOOM, Of(Just(Lit("")))),
    Cons(Store(CENTER_LAT, Mid(Wgs84, 1, 3)),
    Cons(Store(CENTER_LON, Mid(Wgs84, 0, 2)),
    Cons(Store(BBOX, Joined(Wgs84)), Nil)))))
  }
}
