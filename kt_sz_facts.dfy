// What scraper/KT_SZ.py leaves in a record it returns.
module KtSzFacts {
  import opened Python
  import opened Capabilities
  import opened Cleaning
  import opened Record
  import opened Script
  import opened ExprFacts
  import opened Links
  import opened Owners
  import KtSz

  // ---------------------------------------------------------------- dispatch

  /** The branch is chosen on source['URL']: "WMS", "WMTS", "WFS", then "STAC". */
  lemma Routes(c: Call)
    ensures Dispatch(SZ, c) == Ok(WmsBranch) <==> Contains(c.source.url, "WMS")
    ensures Dispatch(SZ, c) == Ok(WmtsBranch) <==> !Contains(c.source.url, "WMS") && Contains(c.source.url, "WMTS")
    ensures Dispatch(SZ, c) == Ok(WfsBranch) <==>
      !Contains(c.source.url, "WMS") && !Contains(c.source.url, "WMTS") && Contains(c.source.url, "WFS")
    ensures Dispatch(SZ, c) == Ok(StacBranch) <==>
      !Contains(c.source.url, "WMS") && !Contains(c.source.url, "WMTS") && !Contains(c.source.url, "WFS") && Contains(c.source.url, "STAC")
    ensures Dispatch(SZ, c).Ok?
  {
  }

  // ---------------------------------------------------------------- placements

  /** The four groups of the WFS branch. */
  lemma WfsParts()
    ensures Part(SZ, WfsBranch, 0) == KtSz.WfsIdentity() &&
      Part(SZ, WfsBranch, 1) == KtSz.WfsDescription() &&
      Part(SZ, WfsBranch, 2) == KtSz.WfsPosition() &&
      Part(SZ, WfsBranch, 3) == Nil
  {
  }

  /** The four groups of the WMTS branch. */
  lemma WmtsParts()
    ensures Part(SZ, WmtsBranch, 0) == KtSz.WmtsIdentity() &&
      Part(SZ, WmtsBranch, 1) == KtSz.WmtsDescription() &&
      Part(SZ, WmtsBranch, 2) == KtSz.WmtsPosition() &&
      Part(SZ, WmtsBranch, 3) == KtSz.WmtsMap()
  {
  }

  /** The four groups of the WMS branch. */
  lemma WmsParts()
    ensures Part(SZ, WmsBranch, 0) == KtSz.WmsIdentity() &&
      Part(SZ, WmsBranch, 1) == KtSz.WmsDescription() &&
      Part(SZ, WmsBranch, 2) == KtSz.WmsPosition() &&
      Part(SZ, WmsBranch, 3) == KtSz.WmsMap()
  {
  }

  lemma WmsAbstractFree()
    ensures ExprFree(Of(Just(ParentAbstract)))
  {
  }

  lemma WmsAbstractLast()
    ensures LastStore(KtSz.WmsIdentity(), ABSTRACT, Of(Just(ParentAbstract)))
  {
  }

  lemma WmsAbstractLater()
    ensures !WritesAny(KtSz.WmsDescription(), ABSTRACT) && !WritesAny(KtSz.WmsPosition(), ABSTRACT) && !WritesAny(KtSz.WmsMap(), ABSTRACT)
  {
  }

  lemma WmsAbstractPlaced()
    ensures Placed(SZ, WmsBranch, 0, ABSTRACT, Of(Just(ParentAbstract)))
  {
    WmsAbstractFree();
    WmsAbstractLast();
    WmsAbstractLater();
    WmsParts();
  }

  lemma WmtsAbstractFree()
    ensures ExprFree(Of(Just(ServiceAbstract)))
  {
  }

  lemma WmtsAbstractLast()
    ensures LastStore(KtSz.WmtsIdentity(), ABSTRACT, Of(Just(ServiceAbstract)))
  {
  }

  lemma WmtsAbstractLater()
    ensures !WritesAny(KtSz.WmtsDescription(), ABSTRACT) && !WritesAny(KtSz.WmtsPosition(), ABSTRACT) && !WritesAny(KtSz.WmtsMap(), ABSTRACT)
  {
  }

  lemma WmtsAbstractPlaced()
    ensures Placed(SZ, WmtsBranch, 0, ABSTRACT, Of(Just(ServiceAbstract)))
  {
    WmtsAbstractFree();
    WmtsAbstractLast();
    WmtsAbstractLater();
    WmtsParts();
  }

  lemma WfsAbstractFree()
    ensures ExprFree(Of(Just(Abstract)))
  {
  }

  lemma WfsAbstractLast()
    ensures LastStore(KtSz.WfsIdentity(), ABSTRACT, Of(Just(Abstract)))
  {
  }

  lemma WfsAbstractLater()
    ensures !WritesAny(KtSz.WfsDescription(), ABSTRACT) && !WritesAny(KtSz.WfsPosition(), ABSTRACT)
  {
  }

  lemma WfsAbstractPlaced()
    ensures Placed(SZ, WfsBranch, 0, ABSTRACT, Of(Just(Abstract)))
  {
    WfsAbstractFree();
    WfsAbstractLast();
    WfsAbstractLater();
    WfsParts();
  }

  lemma WmsContactFree()
    ensures ExprFree(Of(Just(Lit(KtSz.Contact))))
  {
  }

  lemma WmsContactLast()
    ensures LastStore(KtSz.WmsDescription(), CONTACT, Of(Just(Lit(KtSz.Contact))))
  {
  }

  lemma WmsContactLater()
    ensures !WritesAny(KtSz.WmsPosition(), CONTACT) && !WritesAny(KtSz.WmsMap(), CONTACT)
  {
  }

  lemma WmsContactPlaced()
    ensures Placed(SZ, WmsBranch, 1, CONTACT, Of(Just(Lit(KtSz.Contact))))
  {
    WmsContactFree();
    WmsContactLast();
    WmsContactLater();
    WmsParts();
  }

  lemma WfsContactFree()
    ensures ExprFree(Of(Just(Lit(KtSz.Contact))))
  {
  }

  lemma WfsContactLast()
    ensures LastStore(KtSz.WfsDescription(), CONTACT, Of(Just(Lit(KtSz.Contact))))
  {
  }

  lemma WfsContactLater()
    ensures !WritesAny(KtSz.WfsPosition(), CONTACT)
  {
  }

  lemma WfsContactPlaced()
    ensures Placed(SZ, WfsBranch, 1, CONTACT, Of(Just(Lit(KtSz.Contact))))
  {
    WfsContactFree();
    WfsContactLast();
    WfsContactLater();
    WfsParts();
  }

  lemma WmsMetadataFree()
    ensures ExprFree(Of(IfSome(Abstract, SoleUrlIn(Just(Abstract)), Just(Lit("")))))
  {
  }

  lemma WmsMetadataLast()
    ensures LastStore(KtSz.WmsDescription(), METADATA, Of(IfSome(Abstract, SoleUrlIn(Just(Abstract)), Just(Lit("")))))
  {
  }

  lemma WmsMetadataLater()
    ensures !WritesAny(KtSz.WmsPosition(), METADATA) && !WritesAny(KtSz.WmsMap(), METADATA)
  {
  }

  lemma WmsMetadataPlaced()
    ensures Placed(SZ, WmsBranch, 1, METADATA, Of(IfSome(Abstract, SoleUrlIn(Just(Abstract)), Just(Lit("")))))
  {
    WmsMetadataFree();
    WmsMetadataLast();
    WmsMetadataLater();
    WmsParts();
  }

  lemma WfsMetadataFree()
    ensures ExprFree(Of(IfSome(Abstract, SoleUrlIn(Just(Abstract)), Just(Lit("")))))
  {
  }

  lemma WfsMetadataLast()
    ensures LastStore(KtSz.WfsDescription(), METADATA, Of(IfSome(Abstract, SoleUrlIn(Just(Abstract)), Just(Lit("")))))
  {
  }

  lemma WfsMetadataLater()
    ensures !WritesAny(KtSz.WfsPosition(), METADATA)
  {
  }

  lemma WfsMetadataPlaced()
    ensures Placed(SZ, WfsBranch, 1, METADATA, Of(IfSome(Abstract, SoleUrlIn(Just(Abstract)), Just(Lit("")))))
  {
    WfsMetadataFree();
    WfsMetadataLast();
    WfsMetadataLater();
    WfsParts();
  }

  lemma WfsLegendFree()
    ensures ExprFree(Of(Just(Lit(""))))
  {
  }

  lemma WfsLegendLast()
    ensures LastStore(KtSz.WfsDescription(), LEGEND, Of(Just(Lit(""))))
  {
  }

  lemma WfsLegendLater()
    ensures !WritesAny(KtSz.WfsPosition(), LEGEND)
  {
  }

  lemma WfsLegendPlaced()
    ensures Placed(SZ, WfsBranch, 1, LEGEND, Of(Just(Lit(""))))
  {
    WfsLegendFree();
    WfsLegendLast();
    WfsLegendLater();
    WfsParts();
  }

  lemma WmsTypeFree()
    ensures ExprFree(Of(Just(ServiceKind)))
  {
  }

  lemma WmsTypeLast()
    ensures LastStore(KtSz.WmsPosition(), SERVICETYPE, Of(Just(ServiceKind)))
  {
  }

  lemma WmsTypeLater()
    ensures !WritesAny(KtSz.WmsMap(), SERVICETYPE)
  {
  }

  lemma WmsTypePlaced()
    ensures Placed(SZ, WmsBranch, 2, SERVICETYPE, Of(Just(ServiceKind)))
  {
    WmsTypeFree();
    WmsTypeLast();
    WmsTypeLater();
    WmsParts();
  }

  lemma WfsTypeFree()
    ensures ExprFree(Of(Just(Lit("OGC:WFS"))))
  {
  }

  lemma WfsTypeLast()
    ensures LastStore(KtSz.WfsPosition(), SERVICETYPE, Of(Just(Lit("OGC:WFS"))))
  {
  }

  lemma WfsTypePlaced()
    ensures Placed(SZ, WfsBranch, 2, SERVICETYPE, Of(Just(Lit("OGC:WFS"))))
  {
    WfsTypeFree();
    WfsTypeLast();
    WfsParts();
  }

  lemma WmsZoomFree()
    ensures ExprFree(Int(7))
  {
  }

  lemma WmsZoomLast()
    ensures LastStore(KtSz.WmsPosition(), MAX_ZOOM, Int(7))
  {
  }

  lemma WmsZoomLater()
    ensures !WritesAny(KtSz.WmsMap(), MAX_ZOOM)
  {
  }

  lemma WmsZoomPlaced()
    ensures Placed(SZ, WmsBranch, 2, MAX_ZOOM, Int(7))
  {
    WmsZoomFree();
    WmsZoomLast();
    WmsZoomLater();
    WmsParts();
  }

  lemma WmtsZoomFree()
    ensures ExprFree(Int(7))
  {
  }

  lemma WmtsZoomLast()
    ensures LastStore(KtSz.WmtsPosition(), MAX_ZOOM, Int(7))
  {
  }

  lemma WmtsZoomLater()
    ensures !WritesAny(KtSz.WmtsMap(), MAX_ZOOM)
  {
  }

  lemma WmtsZoomPlaced()
    ensures Placed(SZ, WmtsBranch, 2, MAX_ZOOM, Int(7))
  {
    WmtsZoomFree();
    WmtsZoomLast();
    WmtsZoomLater();
    WmtsParts();
  }

  lemma WfsZoomFree()
    ensures ExprFree(Of(Just(Lit(""))))
  {
  }

  lemma WfsZoomLast()
    ensures LastStore(KtSz.WfsPosition(), MAX_ZOOM, Of(Just(Lit(""))))
  {
  }

  lemma WfsZoomPlaced()
    ensures Placed(SZ, WfsBranch, 2, MAX_ZOOM, Of(Just(Lit(""))))
  {
    WfsZoomFree();
    WfsZoomLast();
    WfsParts();
  }

  lemma WmtsLatFree()
    ensures ExprFree(Of(Just(Lit(KtSz.Lat))))
  {
  }

  lemma WmtsLatLast()
    ensures LastStore(KtSz.WmtsPosition(), CENTER_LAT, Of(Just(Lit(KtSz.Lat))))
  {
  }

  lemma WmtsLatLater()
    ensures !WritesAny(KtSz.WmtsMap(), CENTER_LAT)
  {
  }

  lemma WmtsLatPlaced()
    ensures Placed(SZ, WmtsBranch, 2, CENTER_LAT, Of(Just(Lit(KtSz.Lat))))
  {
    WmtsLatFree();
    WmtsLatLast();
    WmtsLatLater();
    WmtsParts();
  }

  lemma WmtsLonFree()
    ensures ExprFree(Of(Just(Lit(KtSz.Lon))))
  {
  }

  lemma WmtsLonLast()
    ensures LastStore(KtSz.WmtsPosition(), CENTER_LON, Of(Just(Lit(KtSz.Lon))))
  {
  }

  lemma WmtsLonLater()
    ensures !WritesAny(KtSz.WmtsMap(), CENTER_LON)
  {
  }

  lemma WmtsLonPlaced()
    ensures Placed(SZ, WmtsBranch, 2, CENTER_LON, Of(Just(Lit(KtSz.Lon))))
  {
    WmtsLonFree();
    WmtsLonLast();
    WmtsLonLater();
    WmtsParts();
  }

  lemma WmtsExtentFree()
    ensures ExprFree(Of(Just(Lit(KtSz.Extent))))
  {
  }

  lemma WmtsExtentLast()
    ensures LastStore(KtSz.WmtsPosition(), BBOX, Of(Just(Lit(KtSz.Extent))))
  {
  }

  lemma WmtsExtentLater()
    ensures !WritesAny(KtSz.WmtsMap(), BBOX)
  {
  }

  lemma WmtsExtentPlaced()
    ensures Placed(SZ, WmtsBranch, 2, BBOX, Of(Just(Lit(KtSz.Extent))))
  {
    WmtsExtentFree();
    WmtsExtentLast();
    WmtsExtentLater();
    WmtsParts();
  }

  lemma WfsNameFree()
    ensures ExprFree(Of(Just(Id)))
  {
  }

  lemma WfsNameLast()
    ensures LastStore(KtSz.WfsIdentity(), NAME, Of(Just(Id)))
  {
  }

  lemma WfsNameLater()
    ensures !WritesAny(KtSz.WfsDescription(), NAME) && !WritesAny(KtSz.WfsPosition(), NAME)
  {
  }

  lemma WfsNamePlaced()
    ensures Placed(SZ, WfsBranch, 0, NAME, Of(Just(Id)))
  {
    WfsNameFree();
    WfsNameLast();
    WfsNameLater();
    WfsParts();
  }

  lemma WmsLinkLate()
    ensures LastLate(KtSz.WmsMap(), MAPGEO, Of(Cat(WmsLink(Title))))
  {
    WmsLinkFree(Title);
    MapLate(WmsLink(Title));
  }

  lemma WmsLinkPlaced()
    ensures LastLate(Part(SZ, WmsBranch, 3), MAPGEO, Of(Cat(WmsLink(Title))))
  {
    WmsLinkLate();
    WmsParts();
  }

  lemma WmtsLinkLate()
    ensures LastLate(KtSz.WmtsMap(), MAPGEO, Of(Cat(WmtsLink(Title))))
  {
    WmtsLinkFree(Title);
    MapLate(WmtsLink(Title));
  }

  lemma WmtsLinkPlaced()
    ensures LastLate(Part(SZ, WmtsBranch, 3), MAPGEO, Of(Cat(WmtsLink(Title))))
  {
    WmtsLinkLate();
    WmtsParts();
  }

  lemma WmtsContactFree()
    ensures ExprFree(Of(Just(ProviderName)))
  {
  }

  lemma WmtsContactLast()
    ensures LastStore(KtSz.WmtsDescription(), CONTACT, Of(Just(ProviderName)))
  {
  }

  lemma WmtsContactLater()
    ensures !WritesAny(KtSz.WmtsPosition(), CONTACT) && !WritesAny(KtSz.WmtsMap(), CONTACT)
  {
  }

  lemma WmtsContactPlaced()
    ensures Placed(SZ, WmtsBranch, 1, CONTACT, Of(Just(ProviderName)))
  {
    WmtsContactFree();
    WmtsContactLast();
    WmtsContactLater();
    WmtsParts();
  }

  // ---------------------------------------------------------------- entries

  /** The WMS abstract is the parent layer's abstract; the layer must have a parent. */
  lemma WmsAbstract(c: Call, m: map<Key, Value>)
    requires Complete(m) && Returns(SZ, c, m) && Dispatch(SZ, c) == Ok(WmsBranch)
    ensures LayerOf(c).Ok? && LayerOf(c).value.parent.Val?
    ensures Final(SZ, c, m)[ABSTRACT] == Of1(LayerOf(c).value.parent.v.abstractText)
  {
    WmsAbstractPlaced();
    Entry(SZ, c, m, WmsBranch, 0, ABSTRACT, Of(Just(ParentAbstract)));
    ParentAbstractRead(c, m, Final(SZ, c, m)[ABSTRACT]);
  }

  /** The WMTS abstract is the service's; the WFS one is the layer's own. */
  lemma WmtsAbstract(c: Call, m: map<Key, Value>)
    requires Complete(m) && Returns(SZ, c, m) && Dispatch(SZ, c) == Ok(WmtsBranch)
    ensures Final(SZ, c, m)[ABSTRACT] == Of1(c.service.identification.abstractText)
  {
    WmtsAbstractPlaced();
    ReadEntry(SZ, c, m, WmtsBranch, 0, ABSTRACT, ServiceAbstract);
    ServiceAbstractAtom(c, m);
  }

  lemma WfsAbstract(c: Call, m: map<Key, Value>)
    requires Complete(m) && Returns(SZ, c, m) && Dispatch(SZ, c) == Ok(WfsBranch)
    ensures LayerOf(c).Ok? && Final(SZ, c, m)[ABSTRACT] == Of1(LayerOf(c).value.abstractText)
  {
    WfsAbstractPlaced();
    Entry(SZ, c, m, WfsBranch, 0, ABSTRACT, Of(Just(Abstract)));
    AbstractRead(c, m, Final(SZ, c, m)[ABSTRACT]);
  }

  /** The WMS and WFS contact is the fixed address geoportal@sz.ch. */
  lemma WmsContact(c: Call, m: map<Key, Value>)
    requires Complete(m) && Returns(SZ, c, m) && Dispatch(SZ, c) == Ok(WmsBranch)
    ensures Final(SZ, c, m)[CONTACT] == Text("geoportal@sz.ch")
  {
    WmsContactPlaced();
    FixedEntry(SZ, c, m, WmsBranch, 1, CONTACT, KtSz.Contact);
  }

  lemma WfsContact(c: Call, m: map<Key, Value>)
    requires Complete(m) && Returns(SZ, c, m) && Dispatch(SZ, c) == Ok(WfsBranch)
    ensures Final(SZ, c, m)[CONTACT] == Text("geoportal@sz.ch")
  {
    WfsContactPlaced();
    FixedEntry(SZ, c, m, WfsBranch, 1, CONTACT, KtSz.Contact);
  }

  /** METADATA is the only URL found in the layer's abstract, "" when there is none or several, and "" without abstract. */
  lemma WmsMetadata(c: Call, m: map<Key, Value>)
    requires Complete(m) && Returns(SZ, c, m) && Dispatch(SZ, c) == Ok(WmsBranch)
    ensures LayerOf(c).Ok?
    ensures var a := LayerOf(c).value.abstractText; Final(SZ, c, m)[METADATA] == Text(if a.None? then "" else SoleUrl(c.host, a.value))
  {
    WmsMetadataPlaced();
    Entry(SZ, c, m, WmsBranch, 1, METADATA, Of(IfSome(Abstract, SoleUrlIn(Just(Abstract)), Just(Lit("")))));
    SoleUrlOrBlank(c, m, Final(SZ, c, m)[METADATA]);
  }

  lemma WfsMetadata(c: Call, m: map<Key, Value>)
    requires Complete(m) && Returns(SZ, c, m) && Dispatch(SZ, c) == Ok(WfsBranch)
    ensures LayerOf(c).Ok?
    ensures var a := LayerOf(c).value.abstractText; Final(SZ, c, m)[METADATA] == Text(if a.None? then "" else SoleUrl(c.host, a.value))
  {
    WfsMetadataPlaced();
    Entry(SZ, c, m, WfsBranch, 1, METADATA, Of(IfSome(Abstract, SoleUrlIn(Just(Abstract)), Just(Lit("")))));
    SoleUrlOrBlank(c, m, Final(SZ, c, m)[METADATA]);
  }

  /** A WFS layer has no legend. */
  lemma WfsLegend(c: Call, m: map<Key, Value>)
    requires Complete(m) && Returns(SZ, c, m) && Dispatch(SZ, c) == Ok(WfsBranch)
    ensures Final(SZ, c, m)[LEGEND] == Text("")
  {
    WfsLegendPlaced();
    FixedEntry(SZ, c, m, WfsBranch, 1, LEGEND, "");
  }

  /** SERVICETYPE is the service's type for WMS and WMTS and "OGC:WFS" for WFS. */
  lemma WmsType(c: Call, m: map<Key, Value>)
    requires Complete(m) && Returns(SZ, c, m) && Dispatch(SZ, c) == Ok(WmsBranch)
    ensures Final(SZ, c, m)[SERVICETYPE] == Of1(c.service.identification.kind)
  {
    WmsTypePlaced();
    ReadEntry(SZ, c, m, WmsBranch, 2, SERVICETYPE, ServiceKind);
    ServiceKindAtom(c, m);
  }

  lemma WfsType(c: Call, m: map<Key, Value>)
    requires Complete(m) && Returns(SZ, c, m) && Dispatch(SZ, c) == Ok(WfsBranch)
    ensures Final(SZ, c, m)[SERVICETYPE] == Text("OGC:WFS")
  {
    WfsTypePlaced();
    FixedEntry(SZ, c, m, WfsBranch, 2, SERVICETYPE, "OGC:WFS");
  }

  lemma WmsZoom(c: Call, m: map<Key, Value>)
    requires Complete(m) && Returns(SZ, c, m) && Dispatch(SZ, c) == Ok(WmsBranch)
    ensures Final(SZ, c, m)[MAX_ZOOM] == Integer(7)
  {
    WmsZoomPlaced();
    Entry(SZ, c, m, WmsBranch, 2, MAX_ZOOM, Int(7));
  }

  lemma WmtsZoom(c: Call, m: map<Key, Value>)
    requires Complete(m) && Returns(SZ, c, m) && Dispatch(SZ, c) == Ok(WmtsBranch)
    ensures Final(SZ, c, m)[MAX_ZOOM] == Integer(7)
  {
    WmtsZoomPlaced();
    Entry(SZ, c, m, WmtsBranch, 2, MAX_ZOOM, Int(7));
  }

  lemma WfsZoom(c: Call, m: map<Key, Value>)
    requires Complete(m) && Returns(SZ, c, m) && Dispatch(SZ, c) == Ok(WfsBranch)
    ensures Final(SZ, c, m)[MAX_ZOOM] == Text("")
  {
    WfsZoomPlaced();
    FixedEntry(SZ, c, m, WfsBranch, 2, MAX_ZOOM, "");
  }

  /** A WMTS layer is placed at the fixed centre 47.0561 / 8.696785; its BBOX is a single space. */
  lemma WmtsLat(c: Call, m: map<Key, Value>)
    requires Complete(m) && Returns(SZ, c, m) && Dispatch(SZ, c) == Ok(WmtsBranch)
    ensures Final(SZ, c, m)[CENTER_LAT] == Text("47.0561")
  {
    WmtsLatPlaced();
    FixedEntry(SZ, c, m, WmtsBranch, 2, CENTER_LAT, KtSz.Lat);
  }

  lemma WmtsLon(c: Call, m: map<Key, Value>)
    requires Complete(m) && Returns(SZ, c, m) && Dispatch(SZ, c) == Ok(WmtsBranch)
    ensures Final(SZ, c, m)[CENTER_LON] == Text("8.696785")
  {
    WmtsLonPlaced();
    FixedEntry(SZ, c, m, WmtsBranch, 2, CENTER_LON, KtSz.Lon);
  }

  lemma WmtsExtent(c: Call, m: map<Key, Value>)
    requires Complete(m) && Returns(SZ, c, m) && Dispatch(SZ, c) == Ok(WmtsBranch)
    ensures Final(SZ, c, m)[BBOX] == Text(" ")
  {
    WmtsExtentPlaced();
    FixedEntry(SZ, c, m, WmtsBranch, 2, BBOX, KtSz.Extent);
  }

  /** A WFS layer is named by its id. */
  lemma WfsName(c: Call, m: map<Key, Value>)
    requires Complete(m) && Returns(SZ, c, m) && Dispatch(SZ, c) == Ok(WfsBranch)
    ensures LayerOf(c).Ok? && Final(SZ, c, m)[NAME] == Text(c.layerId)
  {
    WfsNamePlaced();
    ReadEntry(SZ, c, m, WfsBranch, 0, NAME, Id);
    IdAtom(c, m);
    IdText(c, m);
  }

  /** MAPGEO is its link's value on the final record. */
  lemma WmsLinkHolds(c: Call, m: map<Key, Value>)
    requires Complete(m) && Returns(SZ, c, m) && Dispatch(SZ, c) == Ok(WmsBranch)
    ensures Eval(Of(Cat(WmsLink(Title))), c, Final(SZ, c, m)) == Ok(Final(SZ, c, m)[MAPGEO])
  {
    WmsLinkPlaced();
    LateEntry(SZ, c, m, WmsBranch, MAPGEO, Of(Cat(WmsLink(Title))));
  }

  /** The WMS link names the layer by its title and ends with the box's centre at zoom 7. */
  lemma WmsMapgeo(c: Call, m: map<Key, Value>)
    requires Complete(m) && Returns(SZ, c, m) && Dispatch(SZ, c) == Ok(WmsBranch)
    ensures LayerOf(c).Ok? && LayerOf(c).value.title.Some?
    ensures c.service.url.Val? && c.service.identification.version.Some?
    ensures var f := Final(SZ, c, m); f[MAPGEO] == Text(
      (c.prefix + "layers=WMS||" + LayerOf(c).value.title.value + "||" + c.service.url.v + "?||" +
       c.layerId + "||" + c.service.identification.version.value) +
      ("&swisssearch=" + Show(f[CENTER_LAT], c.host) + "%20" + Show(f[CENTER_LON], c.host) + "&zoom=7"))
  {
    WmsLinkHolds(c, m);
    WmsZoom(c, m);
    TitledWmsLinkText(c, Final(SZ, c, m), Final(SZ, c, m)[MAPGEO]);
  }

  /** MAPGEO is its link's value on the final record. */
  lemma WmtsLinkHolds(c: Call, m: map<Key, Value>)
    requires Complete(m) && Returns(SZ, c, m) && Dispatch(SZ, c) == Ok(WmtsBranch)
    ensures Eval(Of(Cat(WmtsLink(Title))), c, Final(SZ, c, m)) == Ok(Final(SZ, c, m)[MAPGEO])
  {
    WmtsLinkPlaced();
    LateEntry(SZ, c, m, WmtsBranch, MAPGEO, Of(Cat(WmtsLink(Title))));
  }

  /** The WMTS link names the layer by its title and ends with the fixed centre. */
  lemma WmtsMapgeo(c: Call, m: map<Key, Value>)
    requires Complete(m) && Returns(SZ, c, m) && Dispatch(SZ, c) == Ok(WmtsBranch)
    ensures LayerOf(c).Ok? && LayerOf(c).value.title.Some? && c.service.url.Val?
    ensures var f := Final(SZ, c, m); f[MAPGEO] == Text(
      (c.prefix + "layers=WMTS||" + LayerOf(c).value.title.value + "||" + c.service.url.v) +
      ("&swisssearch=" + "47.0561" + "%20" + "8.696785" + "&zoom=7"))
  {
    WmtsLinkHolds(c, m);
    WmtsZoom(c, m);
    WmtsLat(c, m);
    WmtsLon(c, m);
    TitledWmtsLinkText(c, Final(SZ, c, m), Final(SZ, c, m)[MAPGEO]);
  }

  /** The WMTS contact is the provider's name. */
  lemma WmtsContact(c: Call, m: map<Key, Value>)
    requires Complete(m) && Returns(SZ, c, m) && Dispatch(SZ, c) == Ok(WmtsBranch)
    ensures var p := c.service.provider;
      p.Val? && !p.v.name.Absent? && Final(SZ, c, m)[CONTACT] == (if p.v.name.Val? then Text(p.v.name.v) else Nothing)
  {
    WmtsContactPlaced();
    ReadEntry(SZ, c, m, WmtsBranch, 1, CONTACT, ProviderName);
    ProviderNameAtom(c, m);
  }
}
