// scraper/Geodienste.py: the scraper of the services listed by geodienste.ch.
module Geodienste {
  import opened Python
  import opened Capabilities
  import opened Cleaning
  import opened Record
  import opened Script
  import opened Links

  /** Geodienste.py:7-10, 39 and 64: substrings of source['URL']; no WMTS branch, STAC only by equality. */
  const Marks: Markers := Markers("WMS", None, "WFS", true)

  function Dispatch(c: Call): Result<Branch>
  {
    Ok(ChooseBranch(c.source.url, Marks))
  }

  /** The statements of each branch in four groups: identity, description, position, link. */
  function Part(b: Branch, i: nat): Stmts
  {
    match b
    case WmsBranch => if i == 0 then WmsIdentity() else if i == 1 then WmsDescription() else if i == 2 then WmsPosition() else WmsMap()
    case WfsBranch => if i == 0 then WfsIdentity() else if i == 1 then WfsDescription() else if i == 2 then WfsPosition() else Nil
    case _ => Nil
  }

  /** Geodienste.py:11-20. */
  function WmsIdentity(): Stmts
  {
    Cons(Store(OWNER, Of(Just(Owner))),
    Cons(Store(TITLE, Of(Just(Title))),
    Cons(Store(NAME, Of(Just(Name))),
    Cons(Store(TREE, Of(Just(Tree))),
    Cons(Store(GROUP, GroupOrBlank),
    Cons(Store(ABSTRACT, Of(ReplacedOrBlank(WithParentAbstract(Just(Abstract)), Newline))), Nil))))))
  }

  /** Geodienste.py:21-26. */
  function WmsDescription(): Stmts
  {
    Cons(Store(KEYWORDS, JoinedKeywords),
    Cons(Store(LEGEND, LegendIfDefault),
    Cons(Store(CONTACT, Of(Just(ContactName))),
    Cons(Store(SERVICELINK, Of(Just(Request))),
    Cons(Store(METADATA, SoleMetadataUrl),
    Cons(Store(UPDATE, Of(Just(Lit("")))), Nil))))))
  }

  /** Geodienste.py:27-31. */
  function WmsPosition(): Stmts
  {
    Cons(Store(SERVICETYPE, Of(Just(Lit("WMS")))),
    Cons(Store(MAX_ZOOM, Int(7)),
    Cons(Store(CENTER_LAT, Mid(Wgs84, 1, 3)),
    Cons(Store(CENTER_LON, Mid(Wgs84, 0, 2)),
    Cons(Store(BBOX, Joined(Wgs84)), Nil)))))
  }

  /** Geodienste.py:32-35. */
  function WmsMap(): Stmts
  {
    Cons(Store(MAPGEO, Of(Cat(WmsLink(Title)))), Nil)
  }

  /** Geodienste.py:41-50. */
  function WfsIdentity(): Stmts
  {
    Cons(Store(OWNER, Of(Just(Owner))),
    Cons(Store(TITLE, Of(Just(Title))),
    Cons(Store(NAME, Of(Just(Id))),
    Cons(Store(TREE, Of(Just(Tree))),
    Cons(Store(GROUP, GroupOrBlank),
    Cons(Store(ABSTRACT, Of(ReplacedOrBlank(WithParentAbstract(Just(Abstract)), Newline))), Nil))))))
  }

  /** Geodienste.py:51-56. */
  function WfsDescription(): Stmts
  {
    Cons(Store(KEYWORDS, JoinedKeywords),
    Cons(Store(LEGEND, LegendIfDefault),
    Cons(Store(CONTACT, Of(Just(ContactName))),
    Cons(Store(SERVICELINK, Of(Just(Url))),
    Cons(Store(METADATA, SoleMetadataUrl),
    Cons(Store(UPDATE, Of(Just(Lit("")))), Nil))))))
  }

  /** Geodienste.py:57-61. */
  function WfsPosition(): Stmts
  {
    Cons(Store(SERVICETYPE, Of(Just(Lit("WFS")))),
    Cons(Store(MAX_ZOOM, Of(Just(Lit("")))),
    Cons(Store(CENTER_LAT, Mid(Wgs84, 1, 3)),
    Cons(Store(CENTER_LON, Mid(Wgs84, 0, 2)),
    Cons(Store(BBOX, Joined(Wgs84)), Nil)))))
  }
}
