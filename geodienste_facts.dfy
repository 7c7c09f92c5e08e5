// What scraper/Geodienste.py leaves in a record it returns.
module GeodiensteFacts {
  import opened Python
  import opened Capabilities
  import opened Cleaning
  import opened Record
  import opened Script
  import opened ExprFacts
  import opened Links
  import opened Owners
  import Geodienste

  // ---------------------------------------------------------------- dispatch

  /** The branch is chosen on source['URL']: "WMS", then "WFS"; there is no WMTS branch and STAC must be the whole text. */
  lemma Routes(c: Call)
    ensures Dispatch(GEODIENSTE, c) == Ok(WmsBranch) <==> Contains(c.source.url, "WMS")
    ensures Dispatch(GEODIENSTE, c) != Ok(WmtsBranch)
    ensures Dispatch(GEODIENSTE, c) == Ok(WfsBranch) <==>
      !Contains(c.source.url, "WMS") && Contains(c.source.url, "WFS")
    ensures Dispatch(GEODIENSTE, c) == Ok(StacBranch) <==>
      !Contains(c.source.url, "WMS") && !Contains(c.source.url, "WFS") && c.source.url == "STAC"
    ensures Dispatch(GEODIENSTE, c).Ok?
  {
  }

  // ---------------------------------------------------------------- placements

  /** The four groups of the WFS branch. */
  lemma WfsParts()
    ensures Part(GEODIENSTE, WfsBranch, 0) == Geodienste.WfsIdentity() &&
      Part(GEODIENSTE, WfsBranch, 1) == Geodienste.WfsDescription() &&
      Part(GEODIENSTE, WfsBranch, 2) == Geodienste.WfsPosition() &&
      Part(GEODIENSTE, WfsBranch, 3) == Nil
  {
  }

  /** The four groups of the WMS branch. */
  lemma WmsParts()
    ensures Part(GEODIENSTE, WmsBranch, 0) == Geodienste.WmsIdentity() &&
      Part(GEODIENSTE, WmsBranch, 1) == Geodienste.WmsDescription() &&
      Part(GEODIENSTE, WmsBranch, 2) == Geodienste.WmsPosition() &&
      Part(GEODIENSTE, WmsBranch, 3) == Geodienste.WmsMap()
  {
  }

  lemma WmsAbstractFree()
    ensures ExprFree(Of(ReplacedOrBlank(WithParentAbstract(Just(Abstract)), Newline)))
  {
  }

  lemma WmsAbstractLast()
    ensures LastStore(Geodienste.WmsIdentity(), ABSTRACT, Of(ReplacedOrBlank(WithParentAbstract(Just(Abstract)), Newline)))
  {
  }

  lemma WmsAbstractLater()
    ensures !WritesAny(Geodienste.WmsDescription(), ABSTRACT) && !WritesAny(Geodienste.WmsPosition(), ABSTRACT) && !WritesAny(Geodienste.WmsMap(), ABSTRACT)
  {
  }

  lemma WmsAbstractPlaced()
    ensures Placed(GEODIENSTE, WmsBranch, 0, ABSTRACT, Of(ReplacedOrBlank(WithParentAbstract(Just(Abstract)), Newline)))
  {
    WmsAbstractFree();
    WmsAbstractLast();
    WmsAbstractLater();
    WmsParts();
  }

  lemma WmsMetadataFree()
    ensures ExprFree(SoleMetadataUrl)
  {
  }

  lemma WmsMetadataLast()
    ensures LastStore(Geodienste.WmsDescription(), METADATA, SoleMetadataUrl)
  {
  }

  lemma WmsMetadataLater()
    ensures !WritesAny(Geodienste.WmsPosition(), METADATA) && !WritesAny(Geodienste.WmsMap(), METADATA)
  {
  }

  lemma WmsMetadataPlaced()
    ensures Placed(GEODIENSTE, WmsBranch, 1, METADATA, SoleMetadataUrl)
  {
    WmsMetadataFree();
    WmsMetadataLast();
    WmsMetadataLater();
    WmsParts();
  }

  lemma WfsAbstractFree()
    ensures ExprFree(Of(ReplacedOrBlank(WithParentAbstract(Just(Abstract)), Newline)))
  {
  }

  lemma WfsAbstractLast()
    ensures LastStore(Geodienste.WfsIdentity(), ABSTRACT, Of(ReplacedOrBlank(WithParentAbstract(Just(Abstract)), Newline)))
  {
  }

  lemma WfsAbstractLater()
    ensures !WritesAny(Geodienste.WfsDescription(), ABSTRACT) && !WritesAny(Geodienste.WfsPosition(), ABSTRACT)
  {
  }

  lemma WfsAbstractPlaced()
    ensures Placed(GEODIENSTE, WfsBranch, 0, ABSTRACT, Of(ReplacedOrBlank(WithParentAbstract(Just(Abstract)), Newline)))
  {
    WfsAbstractFree();
    WfsAbstractLast();
    WfsAbstractLater();
    WfsParts();
  }

  lemma WfsMetadataFree()
    ensures ExprFree(SoleMetadataUrl)
  {
  }

  lemma WfsMetadataLast()
    ensures LastStore(Geodienste.WfsDescription(), METADATA, SoleMetadataUrl)
  {
  }

  lemma WfsMetadataLater()
    ensures !WritesAny(Geodienste.WfsPosition(), METADATA)
  {
  }

  lemma WfsMetadataPlaced()
    ensures Placed(GEODIENSTE, WfsBranch, 1, METADATA, SoleMetadataUrl)
  {
    WfsMetadataFree();
    WfsMetadataLast();
    WfsMetadataLater();
    WfsParts();
  }

  lemma WfsLegendFree()
    ensures ExprFree(LegendIfDefault)
  {
  }

  lemma WfsLegendLast()
    ensures LastStore(Geodienste.WfsDescription(), LEGEND, LegendIfDefault)
  {
  }

  lemma WfsLegendLater()
    ensures !WritesAny(Geodienste.WfsPosition(), LEGEND)
  {
  }

  lemma WfsLegendPlaced()
    ensures Placed(GEODIENSTE, WfsBranch, 1, LEGEND, LegendIfDefault)
  {
    WfsLegendFree();
    WfsLegendLast();
    WfsLegendLater();
    WfsParts();
  }

  lemma WmsTypeFree()
    ensures ExprFree(Of(Just(Lit("WMS"))))
  {
  }

  lemma WmsTypeLast()
    ensures LastStore(Geodienste.WmsPosition(), SERVICETYPE, Of(Just(Lit("WMS"))))
  {
  }

  lemma WmsTypeLater()
    ensures !WritesAny(Geodienste.WmsMap(), SERVICETYPE)
  {
  }

  lemma WmsTypePlaced()
    ensures Placed(GEODIENSTE, WmsBranch, 2, SERVICETYPE, Of(Just(Lit("WMS"))))
  {
    WmsTypeFree();
    WmsTypeLast();
    WmsTypeLater();
    WmsParts();
  }

  lemma WfsTypeFree()
    ensures ExprFree(Of(Just(Lit("WFS"))))
  {
  }

  lemma WfsTypeLast()
    ensures LastStore(Geodienste.WfsPosition(), SERVICETYPE, Of(Just(Lit("WFS"))))
  {
  }

  lemma WfsTypePlaced()
    ensures Placed(GEODIENSTE, WfsBranch, 2, SERVICETYPE, Of(Just(Lit("WFS"))))
  {
    WfsTypeFree();
    WfsTypeLast();
    WfsParts();
  }

  lemma WmsZoomFree()
    ensures ExprFree(Int(7))
  {
  }

  lemma WmsZoomLast()
    ensures LastStore(Geodienste.WmsPosition(), MAX_ZOOM, Int(7))
  {
  }

  lemma WmsZoomLater()
    ensures !WritesAny(Geodienste.WmsMap(), MAX_ZOOM)
  {
  }

  lemma WmsZoomPlaced()
    ensures Placed(GEODIENSTE, WmsBranch, 2, MAX_ZOOM, Int(7))
  {
    WmsZoomFree();
    WmsZoomLast();
    WmsZoomLater();
    WmsParts();
  }

  lemma WfsZoomFree()
    ensures ExprFree(Of(Just(Lit(""))))
  {
  }

  lemma WfsZoomLast()
    ensures LastStore(Geodienste.WfsPosition(), MAX_ZOOM, Of(Just(Lit(""))))
  {
  }

  lemma WfsZoomPlaced()
    ensures Placed(GEODIENSTE, WfsBranch, 2, MAX_ZOOM, Of(Just(Lit(""))))
  {
    WfsZoomFree();
    WfsZoomLast();
    WfsParts();
  }

  lemma WfsNameFree()
    ensures ExprFree(Of(Just(Id)))
  {
  }

  lemma WfsNameLast()
    ensures LastStore(Geodienste.WfsIdentity(), NAME, Of(Just(Id)))
  {
  }

  lemma WfsNameLater()
    ensures !WritesAny(Geodienste.WfsDescription(), NAME) && !WritesAny(Geodienste.WfsPosition(), NAME)
  {
  }

  lemma WfsNamePlaced()
    ensures Placed(GEODIENSTE, WfsBranch, 0, NAME, Of(Just(Id)))
  {
    WfsNameFree();
    WfsNameLast();
    WfsNameLater();
    WfsParts();
  }

  lemma WfsKeepsMapgeoUnwritten()
    ensures !WritesAny(Part(GEODIENSTE, WfsBranch, 0), MAPGEO) && !WritesAny(Part(GEODIENSTE, WfsBranch, 1), MAPGEO) && !WritesAny(Part(GEODIENSTE, WfsBranch, 2), MAPGEO) && !WritesAny(Part(GEODIENSTE, WfsBranch, 3), MAPGEO)
  {
    WfsKeepsMapgeoIn0();
    WfsKeepsMapgeoIn1();
    WfsKeepsMapgeoIn2();
    WfsParts();
  }

  lemma WfsKeepsMapgeoIn0()
    ensures !WritesAny(Geodienste.WfsIdentity(), MAPGEO)
  {
  }

  lemma WfsKeepsMapgeoIn1()
    ensures !WritesAny(Geodienste.WfsDescription(), MAPGEO)
  {
  }

  lemma WfsKeepsMapgeoIn2()
    ensures !WritesAny(Geodienste.WfsPosition(), MAPGEO)
  {
  }

  lemma WmsLinkLate()
    ensures LastLate(Geodienste.WmsMap(), MAPGEO, Of(Cat(WmsLink(Title))))
  {
    WmsLinkFree(Title);
    MapLate(WmsLink(Title));
  }

  lemma WmsLinkPlaced()
    ensures LastLate(Part(GEODIENSTE, WmsBranch, 3), MAPGEO, Of(Cat(WmsLink(Title))))
  {
    WmsLinkLate();
    WmsParts();
  }

  lemma WmsContactFree()
    ensures ExprFree(Of(Just(ContactName)))
  {
  }

  lemma WmsContactLast()
    ensures LastStore(Geodienste.WmsDescription(), CONTACT, Of(Just(ContactName)))
  {
  }

  lemma WmsContactLater()
    ensures !WritesAny(Geodienste.WmsPosition(), CONTACT) && !WritesAny(Geodienste.WmsMap(), CONTACT)
  {
  }

  lemma WmsContactPlaced()
    ensures Placed(GEODIENSTE, WmsBranch, 1, CONTACT, Of(Just(ContactName)))
  {
    WmsContactFree();
    WmsContactLast();
    WmsContactLater();
    WmsParts();
  }

  lemma WfsContactFree()
    ensures ExprFree(Of(Just(ContactName)))
  {
  }

  lemma WfsContactLast()
    ensures LastStore(Geodienste.WfsDescription(), CONTACT, Of(Just(ContactName)))
  {
  }

  lemma WfsContactLater()
    ensures !WritesAny(Geodienste.WfsPosition(), CONTACT)
  {
  }

  lemma WfsContactPlaced()
    ensures Placed(GEODIENSTE, WfsBranch, 1, CONTACT, Of(Just(ContactName)))
  {
    WfsContactFree();
    WfsContactLast();
    WfsContactLater();
    WfsParts();
  }

  // ---------------------------------------------------------------- entries

  /** The abstract joins the layer's and its parent's when the parent has one, else it is the layer's own, with every "\n" deleted and "" for None. */
  lemma WmsAbstract(c: Call, m: map<Key, Value>)
    requires Complete(m) && Returns(GEODIENSTE, c, m) && Dispatch(GEODIENSTE, c) == Ok(WmsBranch)
    ensures LayerOf(c).Ok?
    ensures var t := WithParent(LayerOf(c).value, LayerOf(c).value.abstractText);
      Final(GEODIENSTE, c, m)[ABSTRACT] == Text(if t.None? then "" else Replace(t.value, "\n", ""))
  {
    WmsAbstractPlaced();
    Entry(GEODIENSTE, c, m, WmsBranch, 0, ABSTRACT, Of(ReplacedOrBlank(WithParentAbstract(Just(Abstract)), Newline)));
    AbstractWithParentOrBlank(c, m, Final(GEODIENSTE, c, m)[ABSTRACT]);
  }

  /** METADATA is the URL of the sole metadata entry, or "". */
  lemma WmsMetadata(c: Call, m: map<Key, Value>)
    requires Complete(m) && Returns(GEODIENSTE, c, m) && Dispatch(GEODIENSTE, c) == Ok(WmsBranch)
    ensures LayerOf(c).Ok? && LayerOf(c).value.metadataUrls.Val?
    ensures var us := LayerOf(c).value.metadataUrls.v; var v := Final(GEODIENSTE, c, m)[METADATA];
      && (|us| != 1 ==> v == Text(""))
      && (|us| == 1 ==> us[0].url.Some? && v == Text(us[0].url.value))
  {
    WmsMetadataPlaced();
    LayerEntry(GEODIENSTE, c, m, WmsBranch, 1, METADATA, SoleMetadataUrl);
    SoleMetadataRead(LayerOf(c).value, c, Final(GEODIENSTE, c, m)[METADATA]);
  }

  lemma WfsAbstract(c: Call, m: map<Key, Value>)
    requires Complete(m) && Returns(GEODIENSTE, c, m) && Dispatch(GEODIENSTE, c) == Ok(WfsBranch)
    ensures LayerOf(c).Ok?
    ensures var t := WithParent(LayerOf(c).value, LayerOf(c).value.abstractText);
      Final(GEODIENSTE, c, m)[ABSTRACT] == Text(if t.None? then "" else Replace(t.value, "\n", ""))
  {
    WfsAbstractPlaced();
    Entry(GEODIENSTE, c, m, WfsBranch, 0, ABSTRACT, Of(ReplacedOrBlank(WithParentAbstract(Just(Abstract)), Newline)));
    AbstractWithParentOrBlank(c, m, Final(GEODIENSTE, c, m)[ABSTRACT]);
  }

  lemma WfsMetadata(c: Call, m: map<Key, Value>)
    requires Complete(m) && Returns(GEODIENSTE, c, m) && Dispatch(GEODIENSTE, c) == Ok(WfsBranch)
    ensures LayerOf(c).Ok? && LayerOf(c).value.metadataUrls.Val?
    ensures var us := LayerOf(c).value.metadataUrls.v; var v := Final(GEODIENSTE, c, m)[METADATA];
      && (|us| != 1 ==> v == Text(""))
      && (|us| == 1 ==> us[0].url.Some? && v == Text(us[0].url.value))
  {
    WfsMetadataPlaced();
    LayerEntry(GEODIENSTE, c, m, WfsBranch, 1, METADATA, SoleMetadataUrl);
    SoleMetadataRead(LayerOf(c).value, c, Final(GEODIENSTE, c, m)[METADATA]);
  }

  /** The WFS legend is the legend of the style named "default", or "". */
  lemma WfsLegend(c: Call, m: map<Key, Value>)
    requires Complete(m) && Returns(GEODIENSTE, c, m) && Dispatch(GEODIENSTE, c) == Ok(WfsBranch)
    ensures LayerOf(c).Ok? && LayerOf(c).value.styles.Val?
    ensures var ss := LayerOf(c).value.styles.v; var v := Final(GEODIENSTE, c, m)[LEGEND];
      && (StyleNamed(ss, "default").None? ==> v == Text(""))
      && (StyleNamed(ss, "default").Some? ==>
            StyleNamed(ss, "default").value.legend.Some? && v == Text(StyleNamed(ss, "default").value.legend.value))
  {
    WfsLegendPlaced();
    LayerEntry(GEODIENSTE, c, m, WfsBranch, 1, LEGEND, LegendIfDefault);
    LegendIfDefaultRead(LayerOf(c).value, c, Final(GEODIENSTE, c, m)[LEGEND]);
  }

  /** SERVICETYPE is "WMS" and "WFS"; MAX_ZOOM is 7 and "". */
  lemma WmsType(c: Call, m: map<Key, Value>)
    requires Complete(m) && Returns(GEODIENSTE, c, m) && Dispatch(GEODIENSTE, c) == Ok(WmsBranch)
    ensures Final(GEODIENSTE, c, m)[SERVICETYPE] == Text("WMS")
  {
    WmsTypePlaced();
    FixedEntry(GEODIENSTE, c, m, WmsBranch, 2, SERVICETYPE, "WMS");
  }

  lemma WfsType(c: Call, m: map<Key, Value>)
    requires Complete(m) && Returns(GEODIENSTE, c, m) && Dispatch(GEODIENSTE, c) == Ok(WfsBranch)
    ensures Final(GEODIENSTE, c, m)[SERVICETYPE] == Text("WFS")
  {
    WfsTypePlaced();
    FixedEntry(GEODIENSTE, c, m, WfsBranch, 2, SERVICETYPE, "WFS");
  }

  lemma WmsZoom(c: Call, m: map<Key, Value>)
    requires Complete(m) && Returns(GEODIENSTE, c, m) && Dispatch(GEODIENSTE, c) == Ok(WmsBranch)
    ensures Final(GEODIENSTE, c, m)[MAX_ZOOM] == Integer(7)
  {
    WmsZoomPlaced();
    Entry(GEODIENSTE, c, m, WmsBranch, 2, MAX_ZOOM, Int(7));
  }

  lemma WfsZoom(c: Call, m: map<Key, Value>)
    requires Complete(m) && Returns(GEODIENSTE, c, m) && Dispatch(GEODIENSTE, c) == Ok(WfsBranch)
    ensures Final(GEODIENSTE, c, m)[MAX_ZOOM] == Text("")
  {
    WfsZoomPlaced();
    FixedEntry(GEODIENSTE, c, m, WfsBranch, 2, MAX_ZOOM, "");
  }

  /** A WFS layer is named by its id. */
  lemma WfsName(c: Call, m: map<Key, Value>)
    requires Complete(m) && Returns(GEODIENSTE, c, m) && Dispatch(GEODIENSTE, c) == Ok(WfsBranch)
    ensures LayerOf(c).Ok? && Final(GEODIENSTE, c, m)[NAME] == Text(c.layerId)
  {
    WfsNamePlaced();
    ReadEntry(GEODIENSTE, c, m, WfsBranch, 0, NAME, Id);
    IdAtom(c, m);
    IdText(c, m);
  }

  /** The WFS branch leaves MAPGEO as it was. */
  lemma WfsKeepsMapgeo(c: Call, m: map<Key, Value>)
    requires Complete(m) && Returns(GEODIENSTE, c, m) && Dispatch(GEODIENSTE, c) == Ok(WfsBranch)
    ensures Final(GEODIENSTE, c, m)[MAPGEO] == m[MAPGEO]
  {
    WfsKeepsMapgeoUnwritten();
    KeptEntry(GEODIENSTE, c, m, WfsBranch, MAPGEO);
  }

  /** MAPGEO is its link's value on the final record. */
  lemma WmsLinkHolds(c: Call, m: map<Key, Value>)
    requires Complete(m) && Returns(GEODIENSTE, c, m) && Dispatch(GEODIENSTE, c) == Ok(WmsBranch)
    ensures Eval(Of(Cat(WmsLink(Title))), c, Final(GEODIENSTE, c, m)) == Ok(Final(GEODIENSTE, c, m)[MAPGEO])
  {
    WmsLinkPlaced();
    LateEntry(GEODIENSTE, c, m, WmsBranch, MAPGEO, Of(Cat(WmsLink(Title))));
  }

  /** The WMS link names the layer by its title and ends with the box's centre at zoom 7. */
  lemma WmsMapgeo(c: Call, m: map<Key, Value>)
    requires Complete(m) && Returns(GEODIENSTE, c, m) && Dispatch(GEODIENSTE, c) == Ok(WmsBranch)
    ensures LayerOf(c).Ok? && LayerOf(c).value.title.Some?
    ensures c.service.url.Val? && c.service.identification.version.Some?
    ensures var f := Final(GEODIENSTE, c, m); f[MAPGEO] == Text(
      (c.prefix + "layers=WMS||" + LayerOf(c).value.title.value + "||" + c.service.url.v + "?||" +
       c.layerId + "||" + c.service.identification.version.value) +
      ("&swisssearch=" + Show(f[CENTER_LAT], c.host) + "%20" + Show(f[CENTER_LON], c.host) + "&zoom=7"))
  {
    WmsLinkHolds(c, m);
    WmsZoom(c, m);
    TitledWmsLinkText(c, Final(GEODIENSTE, c, m), Final(GEODIENSTE, c, m)[MAPGEO]);
  }

  /** CONTACT is the name of the provider's contact. */
  lemma WmsContact(c: Call, m: map<Key, Value>)
    requires Complete(m) && Returns(GEODIENSTE, c, m) && Dispatch(GEODIENSTE, c) == Ok(WmsBranch)
    ensures var p := c.service.provider;
      p.Val? && p.v.contact.Val? && !p.v.contact.v.name.Absent? &&
      Final(GEODIENSTE, c, m)[CONTACT] == (if p.v.contact.v.name.Val? then Text(p.v.contact.v.name.v) else Nothing)
  {
    WmsContactPlaced();
    ReadEntry(GEODIENSTE, c, m, WmsBranch, 1, CONTACT, ContactName);
    ContactNameAtom(c, m);
  }

  lemma WfsContact(c: Call, m: map<Key, Value>)
    requires Complete(m) && Returns(GEODIENSTE, c, m) && Dispatch(GEODIENSTE, c) == Ok(WfsBranch)
    ensures var p := c.service.provider;
      p.Val? && p.v.contact.Val? && !p.v.contact.v.name.Absent? &&
      Final(GEODIENSTE, c, m)[CONTACT] == (if p.v.contact.v.name.Val? then Text(p.v.contact.v.name.v) else Nothing)
  {
    WfsContactPlaced();
    ReadEntry(GEODIENSTE, c, m, WfsBranch, 1, CONTACT, ContactName);
    ContactNameAtom(c, m);
  }
}
