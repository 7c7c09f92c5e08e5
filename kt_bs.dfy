// scraper/KT_BS.py: the scraper of the canton of Basel-Stadt.
module KtBs {
  import opened Python
  import opened Capabilities
  import opened Cleaning
  import opened Record
  import opened Script
  import opened Links

  /** KT_BS.py:14-16, 53, 83 and 115: substrings of source['URL'], the WFS one in lower case. */
  const Marks: Markers := Markers("WMS", Some("WMTS"), "wfs", false)

  function Dispatch(c: Call): Result<Branch>
  {
    Ok(ChooseBranch(c.source.url, Marks))
  }

  /** The statements of each branch in four groups: identity, description, position, link. */
  function Part(b: Branch, i: nat): Stmts
  {
    match b
    case WmsBranch => if i == 0 then WmsIdentity() else if i == 1 then WmsDescription() else if i == 2 then WmsPosition() else WmsMap()
    case WmtsBranch => if i == 0 then WmtsIdentity() else if i == 1 then WmtsDescription() else if i == 2 then WmtsPosition() else WmtsMap()
    case WfsBranch => if i == 0 then WfsIdentity() else if i == 1 then WfsDescription() else if i == 2 then WfsPosition() else Nil
    case _ => Nil
  }

  /** KT_BS.py:17-23. */
  function WmsIdentity(): Stmts
  {
    Cons(Store(OWNER, Of(Just(Owner))),
    Cons(Store(TITLE, Of(Just(Title))),
    Cons(Store(NAME, Of(Just(Name))),
    Cons(Store(TREE, Of(Just(Tree))),
    Cons(Store(GROUP, ParentNameOrBlank),
    Cons(Store(ABSTRACT, Of(Cleaned(CrlfOnlyCleaner, IfSome(Abstract, Cat(Plus(Abstract, Plus(Lit(" "), Plus(AccessConstraints, Done)))), Just(AccessConstraints))))), Nil))))))
  }

  /** KT_BS.py:24-41. */
  function WmsDescription(): Stmts
  {
    Cons(Store(KEYWORDS, JoinedKeywords),
    Cons(Store(LEGEND, Attempt(ChildDefaultLegend, Attempt(OwnDefaultLegend, Of(Just(Lit("")))))),
    Cons(Store(CONTACT, Of(Just(ContactEmail))),
    Cons(Store(SERVICELINK, Of(Just(Request))),
    Cons(Store(METADATA, Attempt(FirstMetadataUrl, Attempt(SubLayerMetadataUrl, Of(Just(Lit("")))))),
    Cons(Store(UPDATE, Of(Just(Lit("")))), Nil))))))
  }

  /** KT_BS.py:42-46. */
  function WmsPosition(): Stmts
  {
    Cons(Store(SERVICETYPE, Of(Just(ServiceKind))),
    Cons(Store(MAX_ZOOM, Int(7)),
    Cons(Store(CENTER_LAT, Mid(Wgs84, 1, 3)),
    Cons(Store(CENTER_LON, Mid(Wgs84, 0, 2)),
    Cons(Store(BBOX, Joined(Native)), Nil)))))
  }

  /** KT_BS.py:47-50. */
  function WmsMap(): Stmts
  {
    Cons(Store(MAPGEO, Of(Cat(WmsLink(Title)))), Nil)
  }

  /** KT_BS.py:55-60. */
  function WmtsIdentity(): Stmts
  {
    Cons(Store(OWNER, Of(Just(Owner))),
    Cons(Store(TITLE, Of(Just(Title))),
    Cons(Store(NAME, Of(Just(Name))),
    Cons(Store(TREE, Of(Just(Tree))),
    Cons(Store(GROUP, GroupOrBlank),
    Cons(Store(ABSTRACT, Of(Cleaned(CrlfOnlyCleaner, ServiceAbstractAndConstraints()))), Nil))))))
  }

  /** KT_BS.py:61-66. */
  function WmtsDescription(): Stmts
  {
    Cons(Store(KEYWORDS, JoinedKeywords),
    Cons(Store(LEGEND, LegendIfLegendKey),
    Cons(Store(CONTACT, Of(Just(ContactEmail))),
    Cons(Store(SERVICELINK, Of(Just(Url))),
    Cons(Store(METADATA, Of(Just(ServiceMetadataUrl))),
    Cons(Store(UPDATE, Of(Just(Lit("")))), Nil))))))
  }

  /** KT_BS.py:67-77: the WGS84 box, else the native extent text. */
  function WmtsPosition(): Stmts
  {
    Cons(Store(SERVICETYPE, Of(Just(ServiceKind))),
    Cons(Store(MAX_ZOOM, Int(7)),
    Cons(ExtentFallback(), Nil)))
  }

  /** KT_BS.py:78-80. */
  function WmtsMap(): Stmts
  {
    Cons(Store(MAPGEO, Of(Cat(WmtsLink(Title)))), Nil)
  }

  /** KT_BS.py:85-90. */
  function WfsIdentity(): Stmts
  {
    Cons(Store(OWNER, Of(Just(Owner))),
    Cons(Store(TITLE, Of(Just(Title))),
    Cons(Store(NAME, Of(Just(Id))),
    Cons(Store(TREE, Of(Just(Tree))),
    Cons(Store(GROUP, GroupOrBlank),
    Cons(Store(ABSTRACT, Of(Cleaned(CrlfOnlyCleaner, IfSome(Abstract, Cat(Plus(Abstract, Plus(Lit(" "), Plus(AccessConstraints, Done)))), Just(AccessConstraints))))), Nil))))))
  }

  /** KT_BS.py:91-108. */
  function WfsDescription(): Stmts
  {
    Cons(Store(KEYWORDS, JoinedKeywords),
    Cons(Store(METADATA, Attempt(FirstMetadataUrl, Attempt(ChildMetadataUrl, Of(Just(Lit("")))))),
    Cons(Store(CONTACT, Of(Just(ContactEmail))),
    Cons(Store(SERVICELINK, Of(Just(Url))),
    Cons(Store(LEGEND, Attempt(ChildDefaultLegend, Attempt(OwnDefaultLegend, Of(Just(Lit("")))))),
    Cons(Store(UPDATE, Of(Just(Lit("")))), Nil))))))
  }

  /** KT_BS.py:109-113. */
  function WfsPosition(): Stmts
  {
    Cons(Store(SERVICETYPE, Of(Just(Lit("WFS")))),
    Cons(Store(MAX_ZOOM, Of(Just(Lit("")))),
    Cons(Store(CENTER_LAT, Mid(Wgs84, 1, 3)),
    Cons(Store(CENTER_LON, Mid(Wgs84, 0, 2)),
    Cons(Store(BBOX, Joined(Wgs84)), Nil)))))
  }

  /** KT_BS.py:69-77: the try block over the WGS84 box and its handler over the native extent. */
  function ExtentFallback(): Stmt
  {
    Try([(CENTER_LAT, Mid(Wgs84, 1, 3)), (CENTER_LON, Mid(Wgs84, 0, 2)), (BBOX, Joined(Wgs84))],
        [(CENTER_LAT, ExtentMid(1, 3)), (CENTER_LON, ExtentMid(0, 2)), (BBOX, ExtentJoined)])
  }
}
