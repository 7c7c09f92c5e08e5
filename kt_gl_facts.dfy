// What scraper/KT_GL.py leaves in a record it returns.
module KtGlFacts {
  import opened Python
  import opened Capabilities
  import opened Cleaning
  import opened Record
  import opened Script
  import opened ExprFacts
  import opened Links
  import opened Owners
  import KtGl

  // ---------------------------------------------------------------- dispatch

  /** The branch is chosen on service.url: reading it raises when the service has
      none, and otherwise "wms", "WMTS", "wfs" and "STAC" are looked for in turn. */
  lemma Routes(c: Call)
    ensures Dispatch(GL, c).Err? <==> !c.service.url.Val?
    ensures c.service.url.Val? ==> var t := c.service.url.v;
      && (Dispatch(GL, c) == Ok(WmsBranch) <==> Contains(t, "wms"))
      && (Dispatch(GL, c) == Ok(WmtsBranch) <==> !Contains(t, "wms") && Contains(t, "WMTS"))
      && (Dispatch(GL, c) == Ok(WfsBranch) <==> !Contains(t, "wms") && !Contains(t, "WMTS") && Contains(t, "wfs"))
  {
  }

  /** A service without a URL attribute raises before the record is touched. */
  lemma NoUrl(c: Call, m: map<Key, Value>)
    requires Complete(m) && c.service.url.Absent?
    ensures Final(GL, c, m) == m && Run(Plan(GL, c), c, m).returned == Raised(AttributeError("url"))
  {
    Refused(GL, c, m);
  }

  /** The WMTS branch assigns nothing and returns the record as it came. */
  lemma WmtsUnchanged(c: Call, m: map<Key, Value>)
    requires Complete(m) && Dispatch(GL, c) == Ok(WmtsBranch)
    ensures Final(GL, c, m) == m && Returns(GL, c, m)
  {
    assert Idle(GL, WmtsBranch);
    Silent(GL, c, m, WmtsBranch);
  }

  // ---------------------------------------------------------------- placements

  /** The four groups of the WFS branch. */
  lemma WfsParts()
    ensures Part(GL, WfsBranch, 0) == KtGl.WfsIdentity() &&
      Part(GL, WfsBranch, 1) == KtGl.WfsDescription() &&
      Part(GL, WfsBranch, 2) == KtGl.WfsPosition() &&
      Part(GL, WfsBranch, 3) == Nil
  {
  }

  /** The four groups of the WMS branch. */
  lemma WmsParts()
    ensures Part(GL, WmsBranch, 0) == KtGl.WmsIdentity() &&
      Part(GL, WmsBranch, 1) == KtGl.WmsDescription() &&
      Part(GL, WmsBranch, 2) == KtGl.WmsPosition() &&
      Part(GL, WmsBranch, 3) == KtGl.WmsMap()
  {
  }

  lemma WmsGroupFree()
    ensures ExprFree(ParentNameOrBlank)
  {
  }

  lemma WmsGroupLast()
    ensures LastStore(KtGl.WmsIdentity(), GROUP, ParentNameOrBlank)
  {
  }

  lemma WmsGroupLater()
    ensures !WritesAny(KtGl.WmsDescription(), GROUP) && !WritesAny(KtGl.WmsPosition(), GROUP) && !WritesAny(KtGl.WmsMap(), GROUP)
  {
  }

  lemma WmsGroupPlaced()
    ensures Placed(GL, WmsBranch, 0, GROUP, ParentNameOrBlank)
  {
    WmsGroupFree();
    WmsGroupLast();
    WmsGroupLater();
    WmsParts();
  }

  lemma WmsAbstractFree()
    ensures ExprFree(Of(Cleaned(CrlfOnlyCleaner, Just(Abstract))))
  {
  }

  lemma WmsAbstractLast()
    ensures LastStore(KtGl.WmsIdentity(), ABSTRACT, Of(Cleaned(CrlfOnlyCleaner, Just(Abstract))))
  {
  }

  lemma WmsAbstractLater()
    ensures !WritesAny(KtGl.WmsDescription(), ABSTRACT) && !WritesAny(KtGl.WmsPosition(), ABSTRACT) && !WritesAny(KtGl.WmsMap(), ABSTRACT)
  {
  }

  lemma WmsAbstractPlaced()
    ensures Placed(GL, WmsBranch, 0, ABSTRACT, Of(Cleaned(CrlfOnlyCleaner, Just(Abstract))))
  {
    WmsAbstractFree();
    WmsAbstractLast();
    WmsAbstractLater();
    WmsParts();
  }

  lemma WfsAbstractFree()
    ensures ExprFree(Of(Cleaned(CrlfOnlyCleaner, Just(Abstract))))
  {
  }

  lemma WfsAbstractLast()
    ensures LastStore(KtGl.WfsIdentity(), ABSTRACT, Of(Cleaned(CrlfOnlyCleaner, Just(Abstract))))
  {
  }

  lemma WfsAbstractLater()
    ensures !WritesAny(KtGl.WfsDescription(), ABSTRACT) && !WritesAny(KtGl.WfsPosition(), ABSTRACT)
  {
  }

  lemma WfsAbstractPlaced()
    ensures Placed(GL, WfsBranch, 0, ABSTRACT, Of(Cleaned(CrlfOnlyCleaner, Just(Abstract))))
  {
    WfsAbstractFree();
    WfsAbstractLast();
    WfsAbstractLater();
    WfsParts();
  }

  lemma WmsKeywordsFree()
    ensures ExprFree(JoinedKeywords)
  {
  }

  lemma WmsKeywordsLast()
    ensures LastStore(KtGl.WmsDescription(), KEYWORDS, JoinedKeywords)
  {
  }

  lemma WmsKeywordsLater()
    ensures !WritesAny(KtGl.WmsPosition(), KEYWORDS) && !WritesAny(KtGl.WmsMap(), KEYWORDS)
  {
  }

  lemma WmsKeywordsPlaced()
    ensures Placed(GL, WmsBranch, 1, KEYWORDS, JoinedKeywords)
  {
    WmsKeywordsFree();
    WmsKeywordsLast();
    WmsKeywordsLater();
    WmsParts();
  }

  lemma WmsLegendFree()
    ensures ExprFree(LegendIfDefault)
  {
  }

  lemma WmsLegendLast()
    ensures LastStore(KtGl.WmsDescription(), LEGEND, LegendIfDefault)
  {
  }

  lemma WmsLegendLater()
    ensures !WritesAny(KtGl.WmsPosition(), LEGEND) && !WritesAny(KtGl.WmsMap(), LEGEND)
  {
  }

  lemma WmsLegendPlaced()
    ensures Placed(GL, WmsBranch, 1, LEGEND, LegendIfDefault)
  {
    WmsLegendFree();
    WmsLegendLast();
    WmsLegendLater();
    WmsParts();
  }

  lemma WfsLegendFree()
    ensures ExprFree(Of(Just(Lit(""))))
  {
  }

  lemma WfsLegendLast()
    ensures LastStore(KtGl.WfsDescription(), LEGEND, Of(Just(Lit(""))))
  {
  }

  lemma WfsLegendLater()
    ensures !WritesAny(KtGl.WfsPosition(), LEGEND)
  {
  }

  lemma WfsLegendPlaced()
    ensures Placed(GL, WfsBranch, 1, LEGEND, Of(Just(Lit(""))))
  {
    WfsLegendFree();
    WfsLegendLast();
    WfsLegendLater();
    WfsParts();
  }

  lemma WfsContactFree()
    ensures ExprFree(Of(Just(Lit(""))))
  {
  }

  lemma WfsContactLast()
    ensures LastStore(KtGl.WfsDescription(), CONTACT, Of(Just(Lit(""))))
  {
  }

  lemma WfsContactLater()
    ensures !WritesAny(KtGl.WfsPosition(), CONTACT)
  {
  }

  lemma WfsContactPlaced()
    ensures Placed(GL, WfsBranch, 1, CONTACT, Of(Just(Lit(""))))
  {
    WfsContactFree();
    WfsContactLast();
    WfsContactLater();
    WfsParts();
  }

  lemma WmsMetadataFree()
    ensures ExprFree(MetadataUrlIfZero)
  {
  }

  lemma WmsMetadataLast()
    ensures LastStore(KtGl.WmsDescription(), METADATA, MetadataUrlIfZero)
  {
  }

  lemma WmsMetadataLater()
    ensures !WritesAny(KtGl.WmsPosition(), METADATA) && !WritesAny(KtGl.WmsMap(), METADATA)
  {
  }

  lemma WmsMetadataPlaced()
    ensures Placed(GL, WmsBranch, 1, METADATA, MetadataUrlIfZero)
  {
    WmsMetadataFree();
    WmsMetadataLast();
    WmsMetadataLater();
    WmsParts();
  }

  lemma WmsTypeFree()
    ensures ExprFree(Of(Just(ServiceKind)))
  {
  }

  lemma WmsTypeLast()
    ensures LastStore(KtGl.WmsPosition(), SERVICETYPE, Of(Just(ServiceKind)))
  {
  }

  lemma WmsTypeLater()
    ensures !WritesAny(KtGl.WmsMap(), SERVICETYPE)
  {
  }

  lemma WmsTypePlaced()
    ensures Placed(GL, WmsBranch, 2, SERVICETYPE, Of(Just(ServiceKind)))
  {
    WmsTypeFree();
    WmsTypeLast();
    WmsTypeLater();
    WmsParts();
  }

  lemma WfsTypeFree()
    ensures ExprFree(Of(Just(Lit("WFS"))))
  {
  }

  lemma WfsTypeLast()
    ensures LastStore(KtGl.WfsPosition(), SERVICETYPE, Of(Just(Lit("WFS"))))
  {
  }

  lemma WfsTypePlaced()
    ensures Placed(GL, WfsBranch, 2, SERVICETYPE, Of(Just(Lit("WFS"))))
  {
    WfsTypeFree();
    WfsTypeLast();
    WfsParts();
  }

  lemma WmsZoomFree()
    ensures ExprFree(Int(7))
  {
  }

  lemma WmsZoomLast()
    ensures LastStore(KtGl.WmsPosition(), MAX_ZOOM, Int(7))
  {
  }

  lemma WmsZoomLater()
    ensures !WritesAny(KtGl.WmsMap(), MAX_ZOOM)
  {
  }

  lemma WmsZoomPlaced()
    ensures Placed(GL, WmsBranch, 2, MAX_ZOOM, Int(7))
  {
    WmsZoomFree();
    WmsZoomLast();
    WmsZoomLater();
    WmsParts();
  }

  lemma WfsZoomFree()
    ensures ExprFree(Of(Just(Lit(""))))
  {
  }

  lemma WfsZoomLast()
    ensures LastStore(KtGl.WfsPosition(), MAX_ZOOM, Of(Just(Lit(""))))
  {
  }

  lemma WfsZoomPlaced()
    ensures Placed(GL, WfsBranch, 2, MAX_ZOOM, Of(Just(Lit(""))))
  {
    WfsZoomFree();
    WfsZoomLast();
    WfsParts();
  }

  lemma WfsLatFree()
    ensures ExprFree(Mid(Native, 1, 3))
  {
  }

  lemma WfsLatLast()
    ensures LastStore(KtGl.WfsPosition(), CENTER_LAT, Mid(Native, 1, 3))
  {
  }

  lemma WfsLatPlaced()
    ensures Placed(GL, WfsBranch, 2, CENTER_LAT, Mid(Native, 1, 3))
  {
    WfsLatFree();
    WfsLatLast();
    WfsParts();
  }

  lemma WfsLonFree()
    ensures ExprFree(Mid(Native, 0, 2))
  {
  }

  lemma WfsLonLast()
    ensures LastStore(KtGl.WfsPosition(), CENTER_LON, Mid(Native, 0, 2))
  {
  }

  lemma WfsLonPlaced()
    ensures Placed(GL, WfsBranch, 2, CENTER_LON, Mid(Native, 0, 2))
  {
    WfsLonFree();
    WfsLonLast();
    WfsParts();
  }

  lemma WfsNameFree()
    ensures ExprFree(Of(Just(Id)))
  {
  }

  lemma WfsNameLast()
    ensures LastStore(KtGl.WfsIdentity(), NAME, Of(Just(Id)))
  {
  }

  lemma WfsNameLater()
    ensures !WritesAny(KtGl.WfsDescription(), NAME) && !WritesAny(KtGl.WfsPosition(), NAME)
  {
  }

  lemma WfsNamePlaced()
    ensures Placed(GL, WfsBranch, 0, NAME, Of(Just(Id)))
  {
    WfsNameFree();
    WfsNameLast();
    WfsNameLater();
    WfsParts();
  }

  lemma WmsLinkLate()
    ensures LastLate(KtGl.WmsMap(), MAPGEO, Of(Cat(WmsLink(Id))))
  {
    WmsLinkFree(Id);
    MapLate(WmsLink(Id));
  }

  lemma WmsLinkPlaced()
    ensures LastLate(Part(GL, WmsBranch, 3), MAPGEO, Of(Cat(WmsLink(Id))))
  {
    WmsLinkLate();
    WmsParts();
  }

  // ---------------------------------------------------------------- entries

  /** The WMS GROUP is the parent layer's name, or "" for a top layer. */
  lemma WmsGroup(c: Call, m: map<Key, Value>)
    requires Complete(m) && Returns(GL, c, m) && Dispatch(GL, c) == Ok(WmsBranch)
    ensures LayerOf(c).Ok? && !LayerOf(c).value.parent.Absent?
    ensures var p := LayerOf(c).value.parent; Final(GL, c, m)[GROUP] == if p.Val? then Of1(p.v.name) else Text("")
  {
    WmsGroupPlaced();
    LayerEntry(GL, c, m, WmsBranch, 0, GROUP, ParentNameOrBlank);
    ParentNameRead(LayerOf(c).value, c, Final(GL, c, m)[GROUP]);
  }

  /** The abstract is the layer's own with every "\r\n" deleted. */
  lemma WmsAbstract(c: Call, m: map<Key, Value>)
    requires Complete(m) && Returns(GL, c, m) && Dispatch(GL, c) == Ok(WmsBranch)
    ensures LayerOf(c).Ok? && Final(GL, c, m)[ABSTRACT] == Text(CrlfOnly(LayerOf(c).value.abstractText))
  {
    WmsAbstractPlaced();
    Entry(GL, c, m, WmsBranch, 0, ABSTRACT, Of(Cleaned(CrlfOnlyCleaner, Just(Abstract))));
    AbstractCleaned(CrlfOnlyCleaner, c, m, Final(GL, c, m)[ABSTRACT]);
  }

  lemma WfsAbstract(c: Call, m: map<Key, Value>)
    requires Complete(m) && Returns(GL, c, m) && Dispatch(GL, c) == Ok(WfsBranch)
    ensures LayerOf(c).Ok? && Final(GL, c, m)[ABSTRACT] == Text(CrlfOnly(LayerOf(c).value.abstractText))
  {
    WfsAbstractPlaced();
    Entry(GL, c, m, WfsBranch, 0, ABSTRACT, Of(Cleaned(CrlfOnlyCleaner, Just(Abstract))));
    AbstractCleaned(CrlfOnlyCleaner, c, m, Final(GL, c, m)[ABSTRACT]);
  }

  lemma WmsKeywords(c: Call, m: map<Key, Value>)
    requires Complete(m) && Returns(GL, c, m) && Dispatch(GL, c) == Ok(WmsBranch)
    ensures LayerOf(c).Ok? && LayerOf(c).value.keywords.Some? && c.service.identification.keywords.Some?
    ensures var all := LayerOf(c).value.keywords.value + c.service.identification.keywords.value;
      (forall k :: 0 <= k < |all| ==> all[k].Some?) && Final(GL, c, m)[KEYWORDS] == Text(Join(", ", Texts(all)))
  {
    WmsKeywordsPlaced();
    LayerEntry(GL, c, m, WmsBranch, 1, KEYWORDS, JoinedKeywords);
    JoinedKeywordsRead(LayerOf(c).value, c, Final(GL, c, m)[KEYWORDS]);
  }

  /** The WMS legend is the legend of the style named "default", or "". */
  lemma WmsLegend(c: Call, m: map<Key, Value>)
    requires Complete(m) && Returns(GL, c, m) && Dispatch(GL, c) == Ok(WmsBranch)
    ensures LayerOf(c).Ok? && LayerOf(c).value.styles.Val?
    ensures var ss := LayerOf(c).value.styles.v; var v := Final(GL, c, m)[LEGEND];
      && (StyleNamed(ss, "default").None? ==> v == Text(""))
      && (StyleNamed(ss, "default").Some? ==>
            StyleNamed(ss, "default").value.legend.Some? && v == Text(StyleNamed(ss, "default").value.legend.value))
  {
    WmsLegendPlaced();
    LayerEntry(GL, c, m, WmsBranch, 1, LEGEND, LegendIfDefault);
    LegendIfDefaultRead(LayerOf(c).value, c, Final(GL, c, m)[LEGEND]);
  }

  /** A WFS layer has neither legend nor contact. */
  lemma WfsLegend(c: Call, m: map<Key, Value>)
    requires Complete(m) && Returns(GL, c, m) && Dispatch(GL, c) == Ok(WfsBranch)
    ensures Final(GL, c, m)[LEGEND] == Text("")
  {
    WfsLegendPlaced();
    FixedEntry(GL, c, m, WfsBranch, 1, LEGEND, "");
  }

  lemma WfsContact(c: Call, m: map<Key, Value>)
    requires Complete(m) && Returns(GL, c, m) && Dispatch(GL, c) == Ok(WfsBranch)
    ensures Final(GL, c, m)[CONTACT] == Text("")
  {
    WfsContactPlaced();
    FixedEntry(GL, c, m, WfsBranch, 1, CONTACT, "");
  }

  /** The metadata test `0 in metadataUrls` never holds, so METADATA is "". */
  lemma WmsMetadata(c: Call, m: map<Key, Value>)
    requires Complete(m) && Returns(GL, c, m) && Dispatch(GL, c) == Ok(WmsBranch)
    ensures LayerOf(c).Ok? && LayerOf(c).value.metadataUrls.Val?
    ensures Final(GL, c, m)[METADATA] == Text("")
  {
    WmsMetadataPlaced();
    LayerEntry(GL, c, m, WmsBranch, 1, METADATA, MetadataUrlIfZero);
    MetadataUrlIfZeroRead(LayerOf(c).value, c, Final(GL, c, m)[METADATA]);
  }

  /** SERVICETYPE is the service's type for WMS and "WFS" for WFS; MAX_ZOOM is 7 and "". */
  lemma WmsType(c: Call, m: map<Key, Value>)
    requires Complete(m) && Returns(GL, c, m) && Dispatch(GL, c) == Ok(WmsBranch)
    ensures Final(GL, c, m)[SERVICETYPE] == Of1(c.service.identification.kind)
  {
    WmsTypePlaced();
    ReadEntry(GL, c, m, WmsBranch, 2, SERVICETYPE, ServiceKind);
    ServiceKindAtom(c, m);
  }

  lemma WfsType(c: Call, m: map<Key, Value>)
    requires Complete(m) && Returns(GL, c, m) && Dispatch(GL, c) == Ok(WfsBranch)
    ensures Final(GL, c, m)[SERVICETYPE] == Text("WFS")
  {
    WfsTypePlaced();
    FixedEntry(GL, c, m, WfsBranch, 2, SERVICETYPE, "WFS");
  }

  lemma WmsZoom(c: Call, m: map<Key, Value>)
    requires Complete(m) && Returns(GL, c, m) && Dispatch(GL, c) == Ok(WmsBranch)
    ensures Final(GL, c, m)[MAX_ZOOM] == Integer(7)
  {
    WmsZoomPlaced();
    Entry(GL, c, m, WmsBranch, 2, MAX_ZOOM, Int(7));
  }

  lemma WfsZoom(c: Call, m: map<Key, Value>)
    requires Complete(m) && Returns(GL, c, m) && Dispatch(GL, c) == Ok(WfsBranch)
    ensures Final(GL, c, m)[MAX_ZOOM] == Text("")
  {
    WfsZoomPlaced();
    FixedEntry(GL, c, m, WfsBranch, 2, MAX_ZOOM, "");
  }

  /** The WFS centre is the middle of the native bounding box, not of the WGS84 one. */
  lemma WfsLat(c: Call, m: map<Key, Value>)
    requires Complete(m) && Returns(GL, c, m) && Dispatch(GL, c) == Ok(WfsBranch)
    ensures LayerOf(c).Ok? && MidIs(Final(GL, c, m)[CENTER_LAT], BoxOf(LayerOf(c).value, Native), 1, 3)
  {
    WfsLatPlaced();
    LayerEntry(GL, c, m, WfsBranch, 2, CENTER_LAT, Mid(Native, 1, 3));
    MidRead(Native, 1, 3, LayerOf(c).value, c, Final(GL, c, m)[CENTER_LAT]);
  }

  lemma WfsLon(c: Call, m: map<Key, Value>)
    requires Complete(m) && Returns(GL, c, m) && Dispatch(GL, c) == Ok(WfsBranch)
    ensures LayerOf(c).Ok? && MidIs(Final(GL, c, m)[CENTER_LON], BoxOf(LayerOf(c).value, Native), 0, 2)
  {
    WfsLonPlaced();
    LayerEntry(GL, c, m, WfsBranch, 2, CENTER_LON, Mid(Native, 0, 2));
    MidRead(Native, 0, 2, LayerOf(c).value, c, Final(GL, c, m)[CENTER_LON]);
  }

  /** A WFS layer is named by its id. */
  lemma WfsName(c: Call, m: map<Key, Value>)
    requires Complete(m) && Returns(GL, c, m) && Dispatch(GL, c) == Ok(WfsBranch)
    ensures LayerOf(c).Ok? && Final(GL, c, m)[NAME] == Text(c.layerId)
  {
    WfsNamePlaced();
    ReadEntry(GL, c, m, WfsBranch, 0, NAME, Id);
    IdAtom(c, m);
    IdText(c, m);
  }

  /** MAPGEO is its link's value on the final record. */
  lemma WmsLinkHolds(c: Call, m: map<Key, Value>)
    requires Complete(m) && Returns(GL, c, m) && Dispatch(GL, c) == Ok(WmsBranch)
    ensures Eval(Of(Cat(WmsLink(Id))), c, Final(GL, c, m)) == Ok(Final(GL, c, m)[MAPGEO])
  {
    WmsLinkPlaced();
    LateEntry(GL, c, m, WmsBranch, MAPGEO, Of(Cat(WmsLink(Id))));
  }

  /** The WMS link names the layer by its id, not its title. */
  lemma WmsMapgeo(c: Call, m: map<Key, Value>)
    requires Complete(m) && Returns(GL, c, m) && Dispatch(GL, c) == Ok(WmsBranch)
    ensures LayerOf(c).Ok? && c.service.url.Val? && c.service.identification.version.Some?
    ensures var f := Final(GL, c, m); f[MAPGEO] == Text(
      (c.prefix + "layers=WMS||" + c.layerId + "||" + c.service.url.v + "?||" +
       c.layerId + "||" + c.service.identification.version.value) +
      ("&swisssearch=" + Show(f[CENTER_LAT], c.host) + "%20" + Show(f[CENTER_LON], c.host) + "&zoom=7"))
  {
    WmsLinkHolds(c, m);
    WmsZoom(c, m);
    IdWmsLinkText(c, Final(GL, c, m), Final(GL, c, m)[MAPGEO]);
  }
}
