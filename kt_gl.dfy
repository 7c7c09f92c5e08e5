// scraper/KT_GL.py: the scraper of the canton of Glarus.
module KtGl {
  import opened Python
  import opened Capabilities
  import opened Cleaning
  import opened Record
  import opened Script
  import opened Links

  /** KT_GL.py:11-13, 37, 40 and 60: substrings of `service.url`. */
  const Marks: Markers := Markers("wms", Some("WMTS"), "wfs", false)

  function Dispatch(c: Call): Result<Branch>
  {
    var t :- Read(c.service.url, "url");
    BranchOfText(t, Marks)
  }

  /** The statements of each branch in four groups: identity, description, position, link. */
  function Part(b: Branch, i: nat): Stmts
  {
    match b
    case WmsBranch => if i == 0 then WmsIdentity() else if i == 1 then WmsDescription() else if i == 2 then WmsPosition() else WmsMap()
    case WfsBranch => if i == 0 then WfsIdentity() else if i == 1 then WfsDescription() else if i == 2 then WfsPosition() else Nil
    case _ => Nil
  }

  /** KT_GL.py:14-20. */
  function WmsIdentity(): Stmts
  {
    Cons(Store(OWNER, Of(Just(Owner))),
    Cons(Store(TITLE, Of(Just(Title))),
    Cons(Store(NAME, Of(Just(Name))),
    Cons(Store(TREE, Of(Just(Tree))),
    Cons(Store(GROUP, ParentNameOrBlank),
    Cons(Store(ABSTRACT, Of(Cleaned(CrlfOnlyCleaner, Just(Abstract)))), Nil))))))
  }

  /** KT_GL.py:21-26. */
  function WmsDescription(): Stmts
  {
    Cons(Store(KEYWORDS, JoinedKeywords),
    Cons(Store(LEGEND, LegendIfDefault),
    Cons(Store(CONTACT, Of(Just(ContactEmail))),
    Cons(Store(SERVICELINK, Of(Just(Request))),
    Cons(Store(METADATA, MetadataUrlIfZero),
    Cons(Store(UPDATE, Of(Just(Lit("")))), Nil))))))
  }

  /** KT_GL.py:27-31. */
  function WmsPosition(): Stmts
  {
    Cons(Store(SERVICETYPE, Of(Just(ServiceKind))),
    Cons(Store(MAX_ZOOM, Int(7)),
    Cons(Store(CENTER_LAT, Mid(Wgs84, 1, 3)),
    Cons(Store(CENTER_LON, Mid(Wgs84, 0, 2)),
    Cons(Store(BBOX, Joined(Native)), Nil)))))
  }

  /** KT_GL.py:32-35: the layer id in the title slot. */
  function WmsMap(): Stmts
  {
    Cons(Store(MAPGEO, Of(Cat(WmsLink(Id)))), Nil)
  }

  /** KT_GL.py:42-47. */
  function WfsIdentity(): Stmts
  {
    Cons(Store(OWNER, Of(Just(Owner))),
    Cons(Store(TITLE, Of(Just(Title))),
    Cons(Store(NAME, Of(Just(Id))),
    Cons(Store(TREE, Of(Just(Tree))),
    Cons(Store(GROUP, GroupOrBlank),
    Cons(Store(ABSTRACT, Of(Cleaned(CrlfOnlyCleaner, Just(Abstract)))), Nil))))))
  }

  /** KT_GL.py:48-53. */
  function WfsDescription(): Stmts
  {
    Cons(Store(KEYWORDS, JoinedKeywords),
    Cons(Store(LEGEND, Of(Just(Lit("")))),
    Cons(Store(CONTACT, Of(Just(Lit("")))),
    Cons(Store(SERVICELINK, Of(Just(Url))),
    Cons(Store(METADATA, MetadataUrlIfZero),
    Cons(Store(UPDATE, Of(Just(Lit("")))), Nil))))))
  }

  /** KT_GL.py:54-58: the native box. */
  function WfsPosition(): Stmts
  {
    Cons(Store(SERVICETYPE, Of(Just(Lit("WFS")))),
    Cons(Store(MAX_ZOOM, Of(Just(Lit("")))),
    Cons(Store(CENTER_LAT, Mid(Native, 1, 3)),
    Cons(Store(CENTER_LON, Mid(Native, 0, 2)),
    Cons(Store(BBOX, Joined(Native)), Nil)))))
  }
}
