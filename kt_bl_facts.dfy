// What scraper/KT_BL.py leaves in a record it returns.
module KtBlFacts {
  import opened Python
  import opened Capabilities
  import opened Record
  import opened Script
  import opened ExprFacts
  import opened Links
  import opened Owners
  import KtBl

  // ---------------------------------------------------------------- dispatch

  /** The branch is chosen on source['URL']: "WMS" first, then "WMTS", then "WFS". */
  lemma Routes(c: Call)
    ensures Dispatch(BL, c) == Ok(WmsBranch) <==> Contains(c.source.url, "WMS")
    ensures Dispatch(BL, c) == Ok(WmtsBranch) <==> !Contains(c.source.url, "WMS") && Contains(c.source.url, "WMTS")
    ensures Dispatch(BL, c) == Ok(WfsBranch) <==>
      !Contains(c.source.url, "WMS") && !Contains(c.source.url, "WMTS") && Contains(c.source.url, "WFS")
    ensures Dispatch(BL, c).Ok?
  {
  }

  // ---------------------------------------------------------------- placements

  lemma WmsParts()
    ensures Part(BL, WmsBranch, 0) == KtBl.WmsIdentity() && Part(BL, WmsBranch, 1) == KtBl.WmsDescription()
    ensures Part(BL, WmsBranch, 2) == KtBl.WmsPosition() && Part(BL, WmsBranch, 3) == KtBl.WmsMap()
  {
  }

  lemma WmtsParts()
    ensures Part(BL, WmtsBranch, 0) == KtBl.WmtsIdentity() && Part(BL, WmtsBranch, 1) == KtBl.WmtsDescription()
    ensures Part(BL, WmtsBranch, 2) == KtBl.WmtsPosition() && Part(BL, WmtsBranch, 3) == KtBl.WmtsMap()
  {
  }

  lemma WmsTypePlaced()
    ensures Placed(BL, WmsBranch, 2, SERVICETYPE, Of(Just(Lit("WMS"))))
  {
    WmsTypeFree();
    WmsTypeLast();
    WmsTypeLater();
    WmsParts();
  }

  lemma WmsTypeFree()
    ensures ExprFree(Of(Just(Lit("WMS"))))
  {
  }

  lemma WmsTypeLast()
    ensures LastStore(KtBl.WmsPosition(), SERVICETYPE, Of(Just(Lit("WMS"))))
  {
  }

  lemma WmsTypeLater()
    ensures !WritesAny(KtBl.WmsMap(), SERVICETYPE)
  {
  }

  lemma WmtsTypePlaced()
    ensures Placed(BL, WmtsBranch, 2, SERVICETYPE, Of(Just(Lit("WMTS"))))
  {
    WmtsTypeFree();
    WmtsTypeLast();
    WmtsTypeLater();
    WmtsParts();
  }

  lemma WmtsTypeFree()
    ensures ExprFree(Of(Just(Lit("WMTS"))))
  {
  }

  lemma WmtsTypeLast()
    ensures LastStore(KtBl.WmtsPosition(), SERVICETYPE, Of(Just(Lit("WMTS"))))
  {
  }

  lemma WmtsTypeLater()
    ensures !WritesAny(KtBl.WmtsMap(), SERVICETYPE)
  {
  }

  lemma WfsTypePlaced()
    ensures Placed(BL, WfsBranch, 2, SERVICETYPE, Of(Just(ServiceKind)))
  {
    WfsTypeFree();
    WfsTypeLast();
    WfsParts();
  }

  lemma WfsTypeFree()
    ensures ExprFree(Of(Just(ServiceKind)))
  {
  }

  lemma WfsTypeLast()
    ensures LastStore(KtBl.WfsPosition(), SERVICETYPE, Of(Just(ServiceKind)))
  {
  }

  lemma WmsZoomPlaced()
    ensures Placed(BL, WmsBranch, 2, MAX_ZOOM, Int(7))
  {
    WmsZoomFree();
    WmsZoomLast();
    WmsZoomLater();
    WmsParts();
  }

  lemma WmsZoomFree()
    ensures ExprFree(Int(7))
  {
  }

  lemma WmsZoomLast()
    ensures LastStore(KtBl.WmsPosition(), MAX_ZOOM, Int(7))
  {
  }

  lemma WmsZoomLater()
    ensures !WritesAny(KtBl.WmsMap(), MAX_ZOOM)
  {
  }

  lemma WmtsZoomPlaced()
    ensures Placed(BL, WmtsBranch, 2, MAX_ZOOM, Int(7))
  {
    WmtsZoomFree();
    WmtsZoomLast();
    WmtsZoomLater();
    WmtsParts();
  }

  lemma WmtsZoomFree()
    ensures ExprFree(Int(7))
  {
  }

  lemma WmtsZoomLast()
    ensures LastStore(KtBl.WmtsPosition(), MAX_ZOOM, Int(7))
  {
  }

  lemma WmtsZoomLater()
    ensures !WritesAny(KtBl.WmtsMap(), MAX_ZOOM)
  {
  }

  lemma WfsZoomPlaced()
    ensures Placed(BL, WfsBranch, 2, MAX_ZOOM, Of(Just(Lit(""))))
  {
    WfsZoomFree();
    WfsZoomLast();
    WfsParts();
  }

  lemma WfsZoomFree()
    ensures ExprFree(Of(Just(Lit(""))))
  {
  }

  lemma WfsZoomLast()
    ensures LastStore(KtBl.WfsPosition(), MAX_ZOOM, Of(Just(Lit(""))))
  {
  }

  lemma LatPlaced()
    ensures Placed(BL, WmtsBranch, 2, CENTER_LAT, Of(Just(Lit(KtBl.Lat))))
  {
    LatFree();
    LatLast();
    LatLater();
    WmtsParts();
  }

  lemma LatFree()
    ensures ExprFree(Of(Just(Lit(KtBl.Lat))))
  {
  }

  lemma LatLast()
    ensures LastStore(KtBl.WmtsPosition(), CENTER_LAT, Of(Just(Lit(KtBl.Lat))))
  {
  }

  lemma LatLater()
    ensures !WritesAny(KtBl.WmtsMap(), CENTER_LAT)
  {
  }

  lemma LonPlaced()
    ensures Placed(BL, WmtsBranch, 2, CENTER_LON, Of(Just(Lit(KtBl.Lon))))
  {
    LonFree();
    LonLast();
    LonLater();
    WmtsParts();
  }

  lemma LonFree()
    ensures ExprFree(Of(Just(Lit(KtBl.Lon))))
  {
  }

  lemma LonLast()
    ensures LastStore(KtBl.WmtsPosition(), CENTER_LON, Of(Just(Lit(KtBl.Lon))))
  {
  }

  lemma LonLater()
    ensures !WritesAny(KtBl.WmtsMap(), CENTER_LON)
  {
  }

  lemma ExtentPlaced()
    ensures Placed(BL, WmtsBranch, 2, BBOX, Of(Just(Lit(KtBl.Extent))))
  {
    ExtentFree();
    ExtentLast();
    ExtentLater();
    WmtsParts();
  }

  lemma ExtentFree()
    ensures ExprFree(Of(Just(Lit(KtBl.Extent))))
  {
  }

  lemma ExtentLast()
    ensures LastStore(KtBl.WmtsPosition(), BBOX, Of(Just(Lit(KtBl.Extent))))
  {
  }

  lemma ExtentLater()
    ensures !WritesAny(KtBl.WmtsMap(), BBOX)
  {
  }

  lemma WmtsAbstractPlaced()
    ensures Placed(BL, WmtsBranch, 0, ABSTRACT, Of(Just(Lit(""))))
  {
    WmtsAbstractFree();
    WmtsAbstractLast();
    WmtsAbstractLater();
    WmtsParts();
  }

  lemma WmtsAbstractFree()
    ensures ExprFree(Of(Just(Lit(""))))
  {
  }

  lemma WmtsAbstractLast()
    ensures LastStore(KtBl.WmtsIdentity(), ABSTRACT, Of(Just(Lit(""))))
  {
  }

  lemma WmtsAbstractLater()
    ensures !WritesAny(KtBl.WmtsDescription(), ABSTRACT) && !WritesAny(KtBl.WmtsPosition(), ABSTRACT) && !WritesAny(KtBl.WmtsMap(), ABSTRACT)
  {
  }

  lemma WmtsLegendPlaced()
    ensures Placed(BL, WmtsBranch, 1, LEGEND, LegendIfLegendKey)
  {
    WmtsLegendFree();
    WmtsLegendLast();
    WmtsLegendLater();
    WmtsParts();
  }

  lemma WmtsLegendFree()
    ensures ExprFree(LegendIfLegendKey)
  {
  }

  lemma WmtsLegendLast()
    ensures LastStore(KtBl.WmtsDescription(), LEGEND, LegendIfLegendKey)
  {
  }

  lemma WmtsLegendLater()
    ensures !WritesAny(KtBl.WmtsPosition(), LEGEND) && !WritesAny(KtBl.WmtsMap(), LEGEND)
  {
  }

  lemma WmsMetadataPlaced()
    ensures Placed(BL, WmsBranch, 1, METADATA, MetadataUrlIfZero)
  {
    WmsMetadataFree();
    WmsMetadataLast();
    WmsMetadataLater();
    WmsParts();
  }

  lemma WmsMetadataFree()
    ensures ExprFree(MetadataUrlIfZero)
  {
  }

  lemma WmsMetadataLast()
    ensures LastStore(KtBl.WmsDescription(), METADATA, MetadataUrlIfZero)
  {
  }

  lemma WmsMetadataLater()
    ensures !WritesAny(KtBl.WmsPosition(), METADATA) && !WritesAny(KtBl.WmsMap(), METADATA)
  {
  }

  lemma WfsMetadataPlaced()
    ensures Placed(BL, WfsBranch, 1, METADATA, MetadataUrlIfZero)
  {
    WfsMetadataFree();
    WfsMetadataLast();
    WfsMetadataLater();
    WfsParts();
  }

  lemma WfsMetadataFree()
    ensures ExprFree(MetadataUrlIfZero)
  {
  }

  lemma WfsMetadataLast()
    ensures LastStore(KtBl.WfsDescription(), METADATA, MetadataUrlIfZero)
  {
  }

  lemma WfsMetadataLater()
    ensures !WritesAny(KtBl.WfsPosition(), METADATA)
  {
  }

  lemma WfsNamePlaced()
    ensures Placed(BL, WfsBranch, 0, NAME, Of(Just(Id)))
  {
    WfsNameFree();
    WfsNameLast();
    WfsNameLater();
    WfsParts();
  }

  lemma WfsNameFree()
    ensures ExprFree(Of(Just(Id)))
  {
  }

  lemma WfsNameLast()
    ensures LastStore(KtBl.WfsIdentity(), NAME, Of(Just(Id)))
  {
  }

  lemma WfsNameLater()
    ensures !WritesAny(KtBl.WfsDescription(), NAME) && !WritesAny(KtBl.WfsPosition(), NAME)
  {
  }

  lemma WmsLinkPlaced()
    ensures LastLate(Part(BL, WmsBranch, 3), MAPGEO, Of(Cat(WmsLink(Title))))
  {
    WmsParts();
    WmsLinkFree(Title);
    MapLate(WmsLink(Title));
    assert KtBl.WmsMap() == Cons(Store(MAPGEO, Of(Cat(WmsLink(Title)))), Nil);
  }

  lemma WmtsLinkPlaced()
    ensures LastLate(Part(BL, WmtsBranch, 3), MAPGEO, Of(Cat(WmtsLink(Title))))
  {
    WmtsParts();
    WmtsLinkFree(Title);
    MapLate(WmtsLink(Title));
    assert KtBl.WmtsMap() == Cons(Store(MAPGEO, Of(Cat(WmtsLink(Title)))), Nil);
  }

  lemma WfsMapgeoUnwritten()
    ensures !WritesAny(Part(BL, WfsBranch, 0), MAPGEO) && !WritesAny(Part(BL, WfsBranch, 1), MAPGEO)
    ensures !WritesAny(Part(BL, WfsBranch, 2), MAPGEO) && !WritesAny(Part(BL, WfsBranch, 3), MAPGEO)
  {
    WfsMapgeoIn0();
    WfsMapgeoIn1();
    WfsMapgeoIn2();
    WfsParts();
  }

  lemma WfsParts()
    ensures Part(BL, WfsBranch, 0) == KtBl.WfsIdentity() && Part(BL, WfsBranch, 1) == KtBl.WfsDescription()
    ensures Part(BL, WfsBranch, 2) == KtBl.WfsPosition() && Part(BL, WfsBranch, 3) == Nil
  {
  }

  lemma WfsMapgeoIn0()
    ensures !WritesAny(KtBl.WfsIdentity(), MAPGEO)
  {
  }

  lemma WfsMapgeoIn1()
    ensures !WritesAny(KtBl.WfsDescription(), MAPGEO)
  {
  }

  lemma WfsMapgeoIn2()
    ensures !WritesAny(KtBl.WfsPosition(), MAPGEO)
  {
  }

  // ---------------------------------------------------------------- entries

  /** SERVICETYPE is "WMS" in the WMS branch, "WMTS" in the WMTS branch, and the
      service's own type in the WFS branch. */
  lemma WmsType(c: Call, m: map<Key, Value>)
    requires Complete(m) && Returns(BL, c, m) && Contains(c.source.url, "WMS")
    ensures Final(BL, c, m)[SERVICETYPE] == Text("WMS")
  {
    WmsTypePlaced();
    FixedEntry(BL, c, m, WmsBranch, 2, SERVICETYPE, "WMS");
  }

  lemma WmtsType(c: Call, m: map<Key, Value>)
    requires Complete(m) && Returns(BL, c, m)
    requires !Contains(c.source.url, "WMS") && Contains(c.source.url, "WMTS")
    ensures Final(BL, c, m)[SERVICETYPE] == Text("WMTS")
  {
    WmtsTypePlaced();
    FixedEntry(BL, c, m, WmtsBranch, 2, SERVICETYPE, "WMTS");
  }

  lemma WfsType(c: Call, m: map<Key, Value>)
    requires Complete(m) && Returns(BL, c, m) && Dispatch(BL, c) == Ok(WfsBranch)
    ensures Final(BL, c, m)[SERVICETYPE] == Of1(c.service.identification.kind)
  {
    WfsTypePlaced();
    ReadEntry(BL, c, m, WfsBranch, 2, SERVICETYPE, ServiceKind);
    ServiceKindAtom(c, m);
  }

  /** MAX_ZOOM is 7 for WMS and WMTS layers and "" for WFS layers. */
  lemma WmsZoom(c: Call, m: map<Key, Value>)
    requires Complete(m) && Returns(BL, c, m) && Dispatch(BL, c) == Ok(WmsBranch)
    ensures Final(BL, c, m)[MAX_ZOOM] == Integer(7)
  {
    WmsZoomPlaced();
    Entry(BL, c, m, WmsBranch, 2, MAX_ZOOM, Int(7));
  }

  lemma WmtsZoom(c: Call, m: map<Key, Value>)
    requires Complete(m) && Returns(BL, c, m) && Dispatch(BL, c) == Ok(WmtsBranch)
    ensures Final(BL, c, m)[MAX_ZOOM] == Integer(7)
  {
    WmtsZoomPlaced();
    Entry(BL, c, m, WmtsBranch, 2, MAX_ZOOM, Int(7));
  }

  lemma WfsZoom(c: Call, m: map<Key, Value>)
    requires Complete(m) && Returns(BL, c, m) && Dispatch(BL, c) == Ok(WfsBranch)
    ensures Final(BL, c, m)[MAX_ZOOM] == Text("")
  {
    WfsZoomPlaced();
    FixedEntry(BL, c, m, WfsBranch, 2, MAX_ZOOM, "");
  }

  /** A WMTS layer is placed at the fixed centre 47.4675 / 7.671 with the fixed
      LV95 extent, whatever its capabilities say. */
  lemma WmtsLat(c: Call, m: map<Key, Value>)
    requires Complete(m) && Returns(BL, c, m) && Dispatch(BL, c) == Ok(WmtsBranch)
    ensures Final(BL, c, m)[CENTER_LAT] == Text("47.4675")
  {
    LatPlaced();
    FixedEntry(BL, c, m, WmtsBranch, 2, CENTER_LAT, KtBl.Lat);
  }

  lemma WmtsLon(c: Call, m: map<Key, Value>)
    requires Complete(m) && Returns(BL, c, m) && Dispatch(BL, c) == Ok(WmtsBranch)
    ensures Final(BL, c, m)[CENTER_LON] == Text("7.671")
  {
    LonPlaced();
    FixedEntry(BL, c, m, WmtsBranch, 2, CENTER_LON, KtBl.Lon);
  }

  lemma WmtsExtent(c: Call, m: map<Key, Value>)
    requires Complete(m) && Returns(BL, c, m) && Dispatch(BL, c) == Ok(WmtsBranch)
    ensures Final(BL, c, m)[BBOX] == Text("2590000.0 1240000.0 2645000.0 1275000.0 EPSG:2056")
  {
    ExtentPlaced();
    FixedEntry(BL, c, m, WmtsBranch, 2, BBOX, KtBl.Extent);
  }

  /** A WMTS layer's abstract is "". */
  lemma WmtsAbstract(c: Call, m: map<Key, Value>)
    requires Complete(m) && Returns(BL, c, m) && Dispatch(BL, c) == Ok(WmtsBranch)
    ensures Final(BL, c, m)[ABSTRACT] == Text("")
  {
    WmtsAbstractPlaced();
    FixedEntry(BL, c, m, WmtsBranch, 0, ABSTRACT, "");
  }

  /** The WMTS legend tests for a style named "legend" but reads the style named
      "default": without a "legend" style it is "", with one it needs a "default"
      style with a legend. */
  lemma WmtsLegend(c: Call, m: map<Key, Value>)
    requires Complete(m) && Returns(BL, c, m) && Dispatch(BL, c) == Ok(WmtsBranch)
    ensures LayerOf(c).Ok? && LayerOf(c).value.styles.Val?
    ensures var ss := LayerOf(c).value.styles.v; var v := Final(BL, c, m)[LEGEND];
      && (StyleNamed(ss, "legend").None? ==> v == Text(""))
      && (StyleNamed(ss, "legend").Some? ==>
            StyleNamed(ss, "default").Some? && StyleNamed(ss, "default").value.legend.Some? &&
            v == Text(StyleNamed(ss, "default").value.legend.value))
  {
    WmtsLegendPlaced();
    LayerEntry(BL, c, m, WmtsBranch, 1, LEGEND, LegendIfLegendKey);
    LegendIfLegendKeyRead(LayerOf(c).value, c, Final(BL, c, m)[LEGEND]);
  }

  /** The WMS and WFS metadata test `0 in metadataUrls` never holds, so METADATA is "". */
  lemma WmsMetadata(c: Call, m: map<Key, Value>)
    requires Complete(m) && Returns(BL, c, m) && Dispatch(BL, c) == Ok(WmsBranch)
    ensures Final(BL, c, m)[METADATA] == Text("")
  {
    WmsMetadataPlaced();
    LayerEntry(BL, c, m, WmsBranch, 1, METADATA, MetadataUrlIfZero);
    MetadataUrlIfZeroRead(LayerOf(c).value, c, Final(BL, c, m)[METADATA]);
  }

  lemma WfsMetadata(c: Call, m: map<Key, Value>)
    requires Complete(m) && Returns(BL, c, m) && Dispatch(BL, c) == Ok(WfsBranch)
    ensures Final(BL, c, m)[METADATA] == Text("")
  {
    WfsMetadataPlaced();
    LayerEntry(BL, c, m, WfsBranch, 1, METADATA, MetadataUrlIfZero);
    MetadataUrlIfZeroRead(LayerOf(c).value, c, Final(BL, c, m)[METADATA]);
  }

  /** A WFS layer is named by its id. */
  lemma WfsName(c: Call, m: map<Key, Value>)
    requires Complete(m) && Returns(BL, c, m) && Dispatch(BL, c) == Ok(WfsBranch)
    ensures LayerOf(c).Ok? && Final(BL, c, m)[NAME] == Text(c.layerId)
  {
    WfsNamePlaced();
    ReadEntry(BL, c, m, WfsBranch, 0, NAME, Id);
    IdAtom(c, m);
    IdText(c, m);
  }

  /** The WFS branch leaves MAPGEO as it was. */
  lemma WfsKeepsMapgeo(c: Call, m: map<Key, Value>)
    requires Complete(m) && Returns(BL, c, m) && Dispatch(BL, c) == Ok(WfsBranch)
    ensures Final(BL, c, m)[MAPGEO] == m[MAPGEO]
  {
    WfsMapgeoUnwritten();
    KeptEntry(BL, c, m, WfsBranch, MAPGEO);
  }

  /** MAPGEO is its link's value on the final record. */
  lemma WmsLinkHolds(c: Call, m: map<Key, Value>)
    requires Complete(m) && Returns(BL, c, m) && Dispatch(BL, c) == Ok(WmsBranch)
    ensures Eval(Of(Cat(WmsLink(Title))), c, Final(BL, c, m)) == Ok(Final(BL, c, m)[MAPGEO])
  {
    WmsLinkPlaced();
    LateEntry(BL, c, m, WmsBranch, MAPGEO, Of(Cat(WmsLink(Title))));
  }

  lemma WmtsLinkHolds(c: Call, m: map<Key, Value>)
    requires Complete(m) && Returns(BL, c, m) && Dispatch(BL, c) == Ok(WmtsBranch)
    ensures Eval(Of(Cat(WmtsLink(Title))), c, Final(BL, c, m)) == Ok(Final(BL, c, m)[MAPGEO])
  {
    WmtsLinkPlaced();
    LateEntry(BL, c, m, WmtsBranch, MAPGEO, Of(Cat(WmtsLink(Title))));
  }

  /** The WMS link names the layer by its title and ends with the box's centre. */
  lemma WmsMapgeo(c: Call, m: map<Key, Value>)
    requires Complete(m) && Returns(BL, c, m) && Dispatch(BL, c) == Ok(WmsBranch)
    ensures LayerOf(c).Ok? && LayerOf(c).value.title.Some?
    ensures c.service.url.Val? && c.service.identification.version.Some?
    ensures var f := Final(BL, c, m); f[MAPGEO] == Text(
      (c.prefix + "layers=WMS||" + LayerOf(c).value.title.value + "||" + c.service.url.v + "?||" +
       c.layerId + "||" + c.service.identification.version.value) +
      ("&swisssearch=" + Show(f[CENTER_LAT], c.host) + "%20" + Show(f[CENTER_LON], c.host) + "&zoom=7"))
  {
    WmsLinkHolds(c, m);
    WmsZoom(c, m);
    TitledWmsLinkText(c, Final(BL, c, m), Final(BL, c, m)[MAPGEO]);
  }

  /** The WMTS link names the layer by its title and ends with the fixed centre. */
  lemma WmtsMapgeo(c: Call, m: map<Key, Value>)
    requires Complete(m) && Returns(BL, c, m) && Dispatch(BL, c) == Ok(WmtsBranch)
    ensures LayerOf(c).Ok? && LayerOf(c).value.title.Some? && c.service.url.Val?
    ensures Final(BL, c, m)[MAPGEO] == Text(
      (c.prefix + "layers=WMTS||" + LayerOf(c).value.title.value + "||" + c.service.url.v) +
      ("&swisssearch=" + "47.4675" + "%20" + "7.671" + "&zoom=7"))
  {
    WmtsLinkHolds(c, m);
    WmtsZoom(c, m);
    WmtsLat(c, m);
    WmtsLon(c, m);
    TitledWmtsLinkText(c, Final(BL, c, m), Final(BL, c, m)[MAPGEO]);
  }
}
