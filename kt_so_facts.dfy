// What scraper/KT_SO.py leaves in a record it returns.
module KtSoFacts {
  import opened Python
  import opened Capabilities
  import opened Cleaning
  import opened Record
  import opened Script
  import opened ExprFacts
  import opened Links
  import opened Owners
  import KtSo

  // ---------------------------------------------------------------- dispatch

  /** The branch is chosen on source['URL'] by the lower-case "wms", "wmts" and "wfs", then "STAC". */
  lemma Routes(c: Call)
    ensures Dispatch(SO, c) == Ok(WmsBranch) <==> Contains(c.source.url, "wms")
    ensures Dispatch(SO, c) == Ok(WmtsBranch) <==> !Contains(c.source.url, "wms") && Contains(c.source.url, "wmts")
    ensures Dispatch(SO, c) == Ok(WfsBranch) <==>
      !Contains(c.source.url, "wms") && !Contains(c.source.url, "wmts") && Contains(c.source.url, "wfs")
    ensures Dispatch(SO, c) == Ok(StacBranch) <==>
      !Contains(c.source.url, "wms") && !Contains(c.source.url, "wmts") && !Contains(c.source.url, "wfs") && Contains(c.source.url, "STAC")
    ensures Dispatch(SO, c).Ok?
  {
  }

  // ---------------------------------------------------------------- placements

  /** The four groups of the WFS branch. */
  lemma WfsParts()
    ensures Part(SO, WfsBranch, 0) == KtSo.WfsIdentity() &&
      Part(SO, WfsBranch, 1) == KtSo.WfsDescription() &&
      Part(SO, WfsBranch, 2) == KtSo.WfsPosition() &&
      Part(SO, WfsBranch, 3) == Nil
  {
  }

  /** The four groups of the WMTS branch. */
  lemma WmtsParts()
    ensures Part(SO, WmtsBranch, 0) == KtSo.WmtsIdentity() &&
      Part(SO, WmtsBranch, 1) == KtSo.WmtsDescription() &&
      Part(SO, WmtsBranch, 2) == KtSo.WmtsPosition() &&
      Part(SO, WmtsBranch, 3) == KtSo.WmtsMap()
  {
  }

  /** The four groups of the WMS branch. */
  lemma WmsParts()
    ensures Part(SO, WmsBranch, 0) == KtSo.WmsIdentity() &&
      Part(SO, WmsBranch, 1) == KtSo.WmsDescription() &&
      Part(SO, WmsBranch, 2) == KtSo.WmsPosition() &&
      Part(SO, WmsBranch, 3) == KtSo.WmsMap()
  {
  }

  lemma WmsGroupFree()
    ensures ExprFree(GroupOrBlank)
  {
  }

  lemma WmsGroupLast()
    ensures LastStore(KtSo.WmsIdentity(), GROUP, GroupOrBlank)
  {
  }

  lemma WmsGroupLater()
    ensures !WritesAny(KtSo.WmsDescription(), GROUP) && !WritesAny(KtSo.WmsPosition(), GROUP) && !WritesAny(KtSo.WmsMap(), GROUP)
  {
  }

  lemma WmsGroupPlaced()
    ensures Placed(SO, WmsBranch, 0, GROUP, GroupOrBlank)
  {
    WmsGroupFree();
    WmsGroupLast();
    WmsGroupLater();
    WmsParts();
  }

  lemma WmtsGroupFree()
    ensures ExprFree(GroupOrBlank)
  {
  }

  lemma WmtsGroupLast()
    ensures LastStore(KtSo.WmtsIdentity(), GROUP, GroupOrBlank)
  {
  }

  lemma WmtsGroupLater()
    ensures !WritesAny(KtSo.WmtsDescription(), GROUP) && !WritesAny(KtSo.WmtsPosition(), GROUP) && !WritesAny(KtSo.WmtsMap(), GROUP)
  {
  }

  lemma WmtsGroupPlaced()
    ensures Placed(SO, WmtsBranch, 0, GROUP, GroupOrBlank)
  {
    WmtsGroupFree();
    WmtsGroupLast();
    WmtsGroupLater();
    WmtsParts();
  }

  lemma WfsGroupFree()
    ensures ExprFree(GroupOrBlank)
  {
  }

  lemma WfsGroupLast()
    ensures LastStore(KtSo.WfsIdentity(), GROUP, GroupOrBlank)
  {
  }

  lemma WfsGroupLater()
    ensures !WritesAny(KtSo.WfsDescription(), GROUP) && !WritesAny(KtSo.WfsPosition(), GROUP)
  {
  }

  lemma WfsGroupPlaced()
    ensures Placed(SO, WfsBranch, 0, GROUP, GroupOrBlank)
  {
    WfsGroupFree();
    WfsGroupLast();
    WfsGroupLater();
    WfsParts();
  }

  lemma WmsAbstractFree()
    ensures ExprFree(Of(Just(Abstract)))
  {
  }

  lemma WmsAbstractLast()
    ensures LastStore(KtSo.WmsIdentity(), ABSTRACT, Of(Just(Abstract)))
  {
  }

  lemma WmsAbstractLater()
    ensures !WritesAny(KtSo.WmsDescription(), ABSTRACT) && !WritesAny(KtSo.WmsPosition(), ABSTRACT) && !WritesAny(KtSo.WmsMap(), ABSTRACT)
  {
  }

  lemma WmsAbstractPlaced()
    ensures Placed(SO, WmsBranch, 0, ABSTRACT, Of(Just(Abstract)))
  {
    WmsAbstractFree();
    WmsAbstractLast();
    WmsAbstractLater();
    WmsParts();
  }

  lemma WfsAbstractFree()
    ensures ExprFree(Of(Just(Abstract)))
  {
  }

  lemma WfsAbstractLast()
    ensures LastStore(KtSo.WfsIdentity(), ABSTRACT, Of(Just(Abstract)))
  {
  }

  lemma WfsAbstractLater()
    ensures !WritesAny(KtSo.WfsDescription(), ABSTRACT) && !WritesAny(KtSo.WfsPosition(), ABSTRACT)
  {
  }

  lemma WfsAbstractPlaced()
    ensures Placed(SO, WfsBranch, 0, ABSTRACT, Of(Just(Abstract)))
  {
    WfsAbstractFree();
    WfsAbstractLast();
    WfsAbstractLater();
    WfsParts();
  }

  lemma WmtsAbstractFree()
    ensures ExprFree(Of(Just(ServiceAbstract)))
  {
  }

  lemma WmtsAbstractLast()
    ensures LastStore(KtSo.WmtsIdentity(), ABSTRACT, Of(Just(ServiceAbstract)))
  {
  }

  lemma WmtsAbstractLater()
    ensures !WritesAny(KtSo.WmtsDescription(), ABSTRACT) && !WritesAny(KtSo.WmtsPosition(), ABSTRACT) && !WritesAny(KtSo.WmtsMap(), ABSTRACT)
  {
  }

  lemma WmtsAbstractPlaced()
    ensures Placed(SO, WmtsBranch, 0, ABSTRACT, Of(Just(ServiceAbstract)))
  {
    WmtsAbstractFree();
    WmtsAbstractLast();
    WmtsAbstractLater();
    WmtsParts();
  }

  lemma WmtsLegendFree()
    ensures ExprFree(LegendIfLegendKey)
  {
  }

  lemma WmtsLegendLast()
    ensures LastStore(KtSo.WmtsDescription(), LEGEND, LegendIfLegendKey)
  {
  }

  lemma WmtsLegendLater()
    ensures !WritesAny(KtSo.WmtsPosition(), LEGEND) && !WritesAny(KtSo.WmtsMap(), LEGEND)
  {
  }

  lemma WmtsLegendPlaced()
    ensures Placed(SO, WmtsBranch, 1, LEGEND, LegendIfLegendKey)
  {
    WmtsLegendFree();
    WmtsLegendLast();
    WmtsLegendLater();
    WmtsParts();
  }

  lemma WfsLegendFree()
    ensures ExprFree(Of(Just(Lit(""))))
  {
  }

  lemma WfsLegendLast()
    ensures LastStore(KtSo.WfsDescription(), LEGEND, Of(Just(Lit(""))))
  {
  }

  lemma WfsLegendLater()
    ensures !WritesAny(KtSo.WfsPosition(), LEGEND)
  {
  }

  lemma WfsLegendPlaced()
    ensures Placed(SO, WfsBranch, 1, LEGEND, Of(Just(Lit(""))))
  {
    WfsLegendFree();
    WfsLegendLast();
    WfsLegendLater();
    WfsParts();
  }

  lemma WmsMetadataFree()
    ensures ExprFree(MetadataUrlIfZero)
  {
  }

  lemma WmsMetadataLast()
    ensures LastStore(KtSo.WmsDescription(), METADATA, MetadataUrlIfZero)
  {
  }

  lemma WmsMetadataLater()
    ensures !WritesAny(KtSo.WmsPosition(), METADATA) && !WritesAny(KtSo.WmsMap(), METADATA)
  {
  }

  lemma WmsMetadataPlaced()
    ensures Placed(SO, WmsBranch, 1, METADATA, MetadataUrlIfZero)
  {
    WmsMetadataFree();
    WmsMetadataLast();
    WmsMetadataLater();
    WmsParts();
  }

  lemma WmsTypeFree()
    ensures ExprFree(Of(Just(ServiceKind)))
  {
  }

  lemma WmsTypeLast()
    ensures LastStore(KtSo.WmsPosition(), SERVICETYPE, Of(Just(ServiceKind)))
  {
  }

  lemma WmsTypeLater()
    ensures !WritesAny(KtSo.WmsMap(), SERVICETYPE)
  {
  }

  lemma WmsTypePlaced()
    ensures Placed(SO, WmsBranch, 2, SERVICETYPE, Of(Just(ServiceKind)))
  {
    WmsTypeFree();
    WmsTypeLast();
    WmsTypeLater();
    WmsParts();
  }

  lemma WfsTypeFree()
    ensures ExprFree(Of(Just(Lit("WFS"))))
  {
  }

  lemma WfsTypeLast()
    ensures LastStore(KtSo.WfsPosition(), SERVICETYPE, Of(Just(Lit("WFS"))))
  {
  }

  lemma WfsTypePlaced()
    ensures Placed(SO, WfsBranch, 2, SERVICETYPE, Of(Just(Lit("WFS"))))
  {
    WfsTypeFree();
    WfsTypeLast();
    WfsParts();
  }

  lemma WmsZoomFree()
    ensures ExprFree(Int(7))
  {
  }

  lemma WmsZoomLast()
    ensures LastStore(KtSo.WmsPosition(), MAX_ZOOM, Int(7))
  {
  }

  lemma WmsZoomLater()
    ensures !WritesAny(KtSo.WmsMap(), MAX_ZOOM)
  {
  }

  lemma WmsZoomPlaced()
    ensures Placed(SO, WmsBranch, 2, MAX_ZOOM, Int(7))
  {
    WmsZoomFree();
    WmsZoomLast();
    WmsZoomLater();
    WmsParts();
  }

  lemma WmtsZoomFree()
    ensures ExprFree(Int(7))
  {
  }

  lemma WmtsZoomLast()
    ensures LastStore(KtSo.WmtsPosition(), MAX_ZOOM, Int(7))
  {
  }

  lemma WmtsZoomLater()
    ensures !WritesAny(KtSo.WmtsMap(), MAX_ZOOM)
  {
  }

  lemma WmtsZoomPlaced()
    ensures Placed(SO, WmtsBranch, 2, MAX_ZOOM, Int(7))
  {
    WmtsZoomFree();
    WmtsZoomLast();
    WmtsZoomLater();
    WmtsParts();
  }

  lemma WfsZoomFree()
    ensures ExprFree(Of(Just(Lit(""))))
  {
  }

  lemma WfsZoomLast()
    ensures LastStore(KtSo.WfsPosition(), MAX_ZOOM, Of(Just(Lit(""))))
  {
  }

  lemma WfsZoomPlaced()
    ensures Placed(SO, WfsBranch, 2, MAX_ZOOM, Of(Just(Lit(""))))
  {
    WfsZoomFree();
    WfsZoomLast();
    WfsParts();
  }

  lemma WmtsLatFree()
    ensures ExprFree(Of(Just(Lit(KtSo.Lat))))
  {
  }

  lemma WmtsLatLast()
    ensures LastStore(KtSo.WmtsPosition(), CENTER_LAT, Of(Just(Lit(KtSo.Lat))))
  {
  }

  lemma WmtsLatLater()
    ensures !WritesAny(KtSo.WmtsMap(), CENTER_LAT)
  {
  }

  lemma WmtsLatPlaced()
    ensures Placed(SO, WmtsBranch, 2, CENTER_LAT, Of(Just(Lit(KtSo.Lat))))
  {
    WmtsLatFree();
    WmtsLatLast();
    WmtsLatLater();
    WmtsParts();
  }

  lemma WmtsLonFree()
    ensures ExprFree(Of(Just(Lit(KtSo.Lon))))
  {
  }

  lemma WmtsLonLast()
    ensures LastStore(KtSo.WmtsPosition(), CENTER_LON, Of(Just(Lit(KtSo.Lon))))
  {
  }

  lemma WmtsLonLater()
    ensures !WritesAny(KtSo.WmtsMap(), CENTER_LON)
  {
  }

  lemma WmtsLonPlaced()
    ensures Placed(SO, WmtsBranch, 2, CENTER_LON, Of(Just(Lit(KtSo.Lon))))
  {
    WmtsLonFree();
    WmtsLonLast();
    WmtsLonLater();
    WmtsParts();
  }

  lemma WmtsExtentFree()
    ensures ExprFree(Of(Just(Lit(KtSo.Extent))))
  {
  }

  lemma WmtsExtentLast()
    ensures LastStore(KtSo.WmtsPosition(), BBOX, Of(Just(Lit(KtSo.Extent))))
  {
  }

  lemma WmtsExtentLater()
    ensures !WritesAny(KtSo.WmtsMap(), BBOX)
  {
  }

  lemma WmtsExtentPlaced()
    ensures Placed(SO, WmtsBranch, 2, BBOX, Of(Just(Lit(KtSo.Extent))))
  {
    WmtsExtentFree();
    WmtsExtentLast();
    WmtsExtentLater();
    WmtsParts();
  }

  lemma WfsNameFree()
    ensures ExprFree(Of(Just(Id)))
  {
  }

  lemma WfsNameLast()
    ensures LastStore(KtSo.WfsIdentity(), NAME, Of(Just(Id)))
  {
  }

  lemma WfsNameLater()
    ensures !WritesAny(KtSo.WfsDescription(), NAME) && !WritesAny(KtSo.WfsPosition(), NAME)
  {
  }

  lemma WfsNamePlaced()
    ensures Placed(SO, WfsBranch, 0, NAME, Of(Just(Id)))
  {
    WfsNameFree();
    WfsNameLast();
    WfsNameLater();
    WfsParts();
  }

  lemma WmsLinkLate()
    ensures LastLate(KtSo.WmsMap(), MAPGEO, Of(Cat(WmsLink(Title))))
  {
    WmsLinkFree(Title);
    MapLate(WmsLink(Title));
  }

  lemma WmsLinkPlaced()
    ensures LastLate(Part(SO, WmsBranch, 3), MAPGEO, Of(Cat(WmsLink(Title))))
  {
    WmsLinkLate();
    WmsParts();
  }

  lemma WmtsLinkLate()
    ensures LastLate(KtSo.WmtsMap(), MAPGEO, Of(Cat(WmtsLink(Title))))
  {
    WmtsLinkFree(Title);
    MapLate(WmtsLink(Title));
  }

  lemma WmtsLinkPlaced()
    ensures LastLate(Part(SO, WmtsBranch, 3), MAPGEO, Of(Cat(WmtsLink(Title))))
  {
    WmtsLinkLate();
    WmtsParts();
  }

  lemma WmsContactFree()
    ensures ExprFree(Of(Just(ProviderName)))
  {
  }

  lemma WmsContactLast()
    ensures LastStore(KtSo.WmsDescription(), CONTACT, Of(Just(ProviderName)))
  {
  }

  lemma WmsContactLater()
    ensures !WritesAny(KtSo.WmsPosition(), CONTACT) && !WritesAny(KtSo.WmsMap(), CONTACT)
  {
  }

  lemma WmsContactPlaced()
    ensures Placed(SO, WmsBranch, 1, CONTACT, Of(Just(ProviderName)))
  {
    WmsContactFree();
    WmsContactLast();
    WmsContactLater();
    WmsParts();
  }

  lemma WmtsContactFree()
    ensures ExprFree(Of(Just(ProviderName)))
  {
  }

  lemma WmtsContactLast()
    ensures LastStore(KtSo.WmtsDescription(), CONTACT, Of(Just(ProviderName)))
  {
  }

  lemma WmtsContactLater()
    ensures !WritesAny(KtSo.WmtsPosition(), CONTACT) && !WritesAny(KtSo.WmtsMap(), CONTACT)
  {
  }

  lemma WmtsContactPlaced()
    ensures Placed(SO, WmtsBranch, 1, CONTACT, Of(Just(ProviderName)))
  {
    WmtsContactFree();
    WmtsContactLast();
    WmtsContactLater();
    WmtsParts();
  }

  lemma WfsContactFree()
    ensures ExprFree(Of(Just(ContactEmail)))
  {
  }

  lemma WfsContactLast()
    ensures LastStore(KtSo.WfsDescription(), CONTACT, Of(Just(ContactEmail)))
  {
  }

  lemma WfsContactLater()
    ensures !WritesAny(KtSo.WfsPosition(), CONTACT)
  {
  }

  lemma WfsContactPlaced()
    ensures Placed(SO, WfsBranch, 1, CONTACT, Of(Just(ContactEmail)))
  {
    WfsContactFree();
    WfsContactLast();
    WfsContactLater();
    WfsParts();
  }

  // ---------------------------------------------------------------- entries

  /** GROUP is the group the caller passed, or "", in every branch. */
  lemma WmsGroup(c: Call, m: map<Key, Value>)
    requires Complete(m) && Returns(SO, c, m) && Dispatch(SO, c) == Ok(WmsBranch)
    ensures Final(SO, c, m)[GROUP] == if c.group.Under? then Text(c.group.parent) else Text("")
  {
    WmsGroupPlaced();
    Entry(SO, c, m, WmsBranch, 0, GROUP, GroupOrBlank);
    GroupOrBlankValue(c, m, Final(SO, c, m)[GROUP]);
  }

  lemma WmtsGroup(c: Call, m: map<Key, Value>)
    requires Complete(m) && Returns(SO, c, m) && Dispatch(SO, c) == Ok(WmtsBranch)
    ensures Final(SO, c, m)[GROUP] == if c.group.Under? then Text(c.group.parent) else Text("")
  {
    WmtsGroupPlaced();
    Entry(SO, c, m, WmtsBranch, 0, GROUP, GroupOrBlank);
    GroupOrBlankValue(c, m, Final(SO, c, m)[GROUP]);
  }

  lemma WfsGroup(c: Call, m: map<Key, Value>)
    requires Complete(m) && Returns(SO, c, m) && Dispatch(SO, c) == Ok(WfsBranch)
    ensures Final(SO, c, m)[GROUP] == if c.group.Under? then Text(c.group.parent) else Text("")
  {
    WfsGroupPlaced();
    Entry(SO, c, m, WfsBranch, 0, GROUP, GroupOrBlank);
    GroupOrBlankValue(c, m, Final(SO, c, m)[GROUP]);
  }

  /** The WMS and WFS abstracts are the layer's own, uncleaned; the WMTS one is the service's. */
  lemma WmsAbstract(c: Call, m: map<Key, Value>)
    requires Complete(m) && Returns(SO, c, m) && Dispatch(SO, c) == Ok(WmsBranch)
    ensures LayerOf(c).Ok? && Final(SO, c, m)[ABSTRACT] == Of1(LayerOf(c).value.abstractText)
  {
    WmsAbstractPlaced();
    Entry(SO, c, m, WmsBranch, 0, ABSTRACT, Of(Just(Abstract)));
    AbstractRead(c, m, Final(SO, c, m)[ABSTRACT]);
  }

  lemma WfsAbstract(c: Call, m: map<Key, Value>)
    requires Complete(m) && Returns(SO, c, m) && Dispatch(SO, c) == Ok(WfsBranch)
    ensures LayerOf(c).Ok? && Final(SO, c, m)[ABSTRACT] == Of1(LayerOf(c).value.abstractText)
  {
    WfsAbstractPlaced();
    Entry(SO, c, m, WfsBranch, 0, ABSTRACT, Of(Just(Abstract)));
    AbstractRead(c, m, Final(SO, c, m)[ABSTRACT]);
  }

  lemma WmtsAbstract(c: Call, m: map<Key, Value>)
    requires Complete(m) && Returns(SO, c, m) && Dispatch(SO, c) == Ok(WmtsBranch)
    ensures Final(SO, c, m)[ABSTRACT] == Of1(c.service.identification.abstractText)
  {
    WmtsAbstractPlaced();
    ReadEntry(SO, c, m, WmtsBranch, 0, ABSTRACT, ServiceAbstract);
    ServiceAbstractAtom(c, m);
  }

  /** The WMTS legend tests for a style named "legend" but reads the style named "default". */
  lemma WmtsLegend(c: Call, m: map<Key, Value>)
    requires Complete(m) && Returns(SO, c, m) && Dispatch(SO, c) == Ok(WmtsBranch)
    ensures LayerOf(c).Ok? && LayerOf(c).value.styles.Val?
    ensures var ss := LayerOf(c).value.styles.v; var v := Final(SO, c, m)[LEGEND];
      && (StyleNamed(ss, "legend").None? ==> v == Text(""))
      && (StyleNamed(ss, "legend").Some? ==>
            StyleNamed(ss, "default").Some? && StyleNamed(ss, "default").value.legend.Some? &&
            v == Text(StyleNamed(ss, "default").value.legend.value))
  {
    WmtsLegendPlaced();
    LayerEntry(SO, c, m, WmtsBranch, 1, LEGEND, LegendIfLegendKey);
    LegendIfLegendKeyRead(LayerOf(c).value, c, Final(SO, c, m)[LEGEND]);
  }

  /** A WFS layer has no legend. */
  lemma WfsLegend(c: Call, m: map<Key, Value>)
    requires Complete(m) && Returns(SO, c, m) && Dispatch(SO, c) == Ok(WfsBranch)
    ensures Final(SO, c, m)[LEGEND] == Text("")
  {
    WfsLegendPlaced();
    FixedEntry(SO, c, m, WfsBranch, 1, LEGEND, "");
  }

  /** The metadata test `0 in metadataUrls` never holds, so METADATA is "". */
  lemma WmsMetadata(c: Call, m: map<Key, Value>)
    requires Complete(m) && Returns(SO, c, m) && Dispatch(SO, c) == Ok(WmsBranch)
    ensures LayerOf(c).Ok? && LayerOf(c).value.metadataUrls.Val?
    ensures Final(SO, c, m)[METADATA] == Text("")
  {
    WmsMetadataPlaced();
    LayerEntry(SO, c, m, WmsBranch, 1, METADATA, MetadataUrlIfZero);
    MetadataUrlIfZeroRead(LayerOf(c).value, c, Final(SO, c, m)[METADATA]);
  }

  /** SERVICETYPE is the service's type for WMS and WMTS and "WFS" for WFS. */
  lemma WmsType(c: Call, m: map<Key, Value>)
    requires Complete(m) && Returns(SO, c, m) && Dispatch(SO, c) == Ok(WmsBranch)
    ensures Final(SO, c, m)[SERVICETYPE] == Of1(c.service.identification.kind)
  {
    WmsTypePlaced();
    ReadEntry(SO, c, m, WmsBranch, 2, SERVICETYPE, ServiceKind);
    ServiceKindAtom(c, m);
  }

  lemma WfsType(c: Call, m: map<Key, Value>)
    requires Complete(m) && Returns(SO, c, m) && Dispatch(SO, c) == Ok(WfsBranch)
    ensures Final(SO, c, m)[SERVICETYPE] == Text("WFS")
  {
    WfsTypePlaced();
    FixedEntry(SO, c, m, WfsBranch, 2, SERVICETYPE, "WFS");
  }

  lemma WmsZoom(c: Call, m: map<Key, Value>)
    requires Complete(m) && Returns(SO, c, m) && Dispatch(SO, c) == Ok(WmsBranch)
    ensures Final(SO, c, m)[MAX_ZOOM] == Integer(7)
  {
    WmsZoomPlaced();
    Entry(SO, c, m, WmsBranch, 2, MAX_ZOOM, Int(7));
  }

  lemma WmtsZoom(c: Call, m: map<Key, Value>)
    requires Complete(m) && Returns(SO, c, m) && Dispatch(SO, c) == Ok(WmtsBranch)
    ensures Final(SO, c, m)[MAX_ZOOM] == Integer(7)
  {
    WmtsZoomPlaced();
    Entry(SO, c, m, WmtsBranch, 2, MAX_ZOOM, Int(7));
  }

  lemma WfsZoom(c: Call, m: map<Key, Value>)
    requires Complete(m) && Returns(SO, c, m) && Dispatch(SO, c) == Ok(WfsBranch)
    ensures Final(SO, c, m)[MAX_ZOOM] == Text("")
  {
    WfsZoomPlaced();
    FixedEntry(SO, c, m, WfsBranch, 2, MAX_ZOOM, "");
  }

  /** A WMTS layer is placed at the fixed centre 47.2912 / 7.684424999999999 with a fixed Web Mercator extent. */
  lemma WmtsLat(c: Call, m: map<Key, Value>)
    requires Complete(m) && Returns(SO, c, m) && Dispatch(SO, c) == Ok(WmtsBranch)
    ensures Final(SO, c, m)[CENTER_LAT] == Text("47.2912")
  {
    WmtsLatPlaced();
    FixedEntry(SO, c, m, WmtsBranch, 2, CENTER_LAT, KtSo.Lat);
  }

  lemma WmtsLon(c: Call, m: map<Key, Value>)
    requires Complete(m) && Returns(SO, c, m) && Dispatch(SO, c) == Ok(WmtsBranch)
    ensures Final(SO, c, m)[CENTER_LON] == Text("7.684424999999999")
  {
    WmtsLonPlaced();
    FixedEntry(SO, c, m, WmtsBranch, 2, CENTER_LON, KtSo.Lon);
  }

  lemma WmtsExtent(c: Call, m: map<Key, Value>)
    requires Complete(m) && Returns(SO, c, m) && Dispatch(SO, c) == Ok(WmtsBranch)
    ensures Final(SO, c, m)[BBOX] == Text("783689.0 5945280.0 927163.0 6034410.0 EPSG:3857")
  {
    WmtsExtentPlaced();
    FixedEntry(SO, c, m, WmtsBranch, 2, BBOX, KtSo.Extent);
  }

  /** A WFS layer is named by its id. */
  lemma WfsName(c: Call, m: map<Key, Value>)
    requires Complete(m) && Returns(SO, c, m) && Dispatch(SO, c) == Ok(WfsBranch)
    ensures LayerOf(c).Ok? && Final(SO, c, m)[NAME] == Text(c.layerId)
  {
    WfsNamePlaced();
    ReadEntry(SO, c, m, WfsBranch, 0, NAME, Id);
    IdAtom(c, m);
    IdText(c, m);
  }

  /** MAPGEO is its link's value on the final record. */
  lemma WmsLinkHolds(c: Call, m: map<Key, Value>)
    requires Complete(m) && Returns(SO, c, m) && Dispatch(SO, c) == Ok(WmsBranch)
    ensures Eval(Of(Cat(WmsLink(Title))), c, Final(SO, c, m)) == Ok(Final(SO, c, m)[MAPGEO])
  {
    WmsLinkPlaced();
    LateEntry(SO, c, m, WmsBranch, MAPGEO, Of(Cat(WmsLink(Title))));
  }

  /** The WMS link names the layer by its title and ends with the box's centre at zoom 7. */
  lemma WmsMapgeo(c: Call, m: map<Key, Value>)
    requires Complete(m) && Returns(SO, c, m) && Dispatch(SO, c) == Ok(WmsBranch)
    ensures LayerOf(c).Ok? && LayerOf(c).value.title.Some?
    ensures c.service.url.Val? && c.service.identification.version.Some?
    ensures var f := Final(SO, c, m); f[MAPGEO] == Text(
      (c.prefix + "layers=WMS||" + LayerOf(c).value.title.value + "||" + c.service.url.v + "?||" +
       c.layerId + "||" + c.service.identification.version.value) +
      ("&swisssearch=" + Show(f[CENTER_LAT], c.host) + "%20" + Show(f[CENTER_LON], c.host) + "&zoom=7"))
  {
    WmsLinkHolds(c, m);
    WmsZoom(c, m);
    TitledWmsLinkText(c, Final(SO, c, m), Final(SO, c, m)[MAPGEO]);
  }

  /** MAPGEO is its link's value on the final record. */
  lemma WmtsLinkHolds(c: Call, m: map<Key, Value>)
    requires Complete(m) && Returns(SO, c, m) && Dispatch(SO, c) == Ok(WmtsBranch)
    ensures Eval(Of(Cat(WmtsLink(Title))), c, Final(SO, c, m)) == Ok(Final(SO, c, m)[MAPGEO])
  {
    WmtsLinkPlaced();
    LateEntry(SO, c, m, WmtsBranch, MAPGEO, Of(Cat(WmtsLink(Title))));
  }

  /** The WMTS link names the layer by its title and ends with the fixed centre. */
  lemma WmtsMapgeo(c: Call, m: map<Key, Value>)
    requires Complete(m) && Returns(SO, c, m) && Dispatch(SO, c) == Ok(WmtsBranch)
    ensures LayerOf(c).Ok? && LayerOf(c).value.title.Some? && c.service.url.Val?
    ensures var f := Final(SO, c, m); f[MAPGEO] == Text(
      (c.prefix + "layers=WMTS||" + LayerOf(c).value.title.value + "||" + c.service.url.v) +
      ("&swisssearch=" + "47.2912" + "%20" + "7.684424999999999" + "&zoom=7"))
  {
    WmtsLinkHolds(c, m);
    WmtsZoom(c, m);
    WmtsLat(c, m);
    WmtsLon(c, m);
    TitledWmtsLinkText(c, Final(SO, c, m), Final(SO, c, m)[MAPGEO]);
  }

  /** CONTACT is the provider's name for WMS and WMTS and the contact's email for WFS. */
  lemma WmsContact(c: Call, m: map<Key, Value>)
    requires Complete(m) && Returns(SO, c, m) && Dispatch(SO, c) == Ok(WmsBranch)
    ensures var p := c.service.provider;
      p.Val? && !p.v.name.Absent? && Final(SO, c, m)[CONTACT] == (if p.v.name.Val? then Text(p.v.name.v) else Nothing)
  {
    WmsContactPlaced();
    ReadEntry(SO, c, m, WmsBranch, 1, CONTACT, ProviderName);
    ProviderNameAtom(c, m);
  }

  lemma WmtsContact(c: Call, m: map<Key, Value>)
    requires Complete(m) && Returns(SO, c, m) && Dispatch(SO, c) == Ok(WmtsBranch)
    ensures var p := c.service.provider;
      p.Val? && !p.v.name.Absent? && Final(SO, c, m)[CONTACT] == (if p.v.name.Val? then Text(p.v.name.v) else Nothing)
  {
    WmtsContactPlaced();
    ReadEntry(SO, c, m, WmtsBranch, 1, CONTACT, ProviderName);
    ProviderNameAtom(c, m);
  }

  lemma WfsContact(c: Call, m: map<Key, Value>)
    requires Complete(m) && Returns(SO, c, m) && Dispatch(SO, c) == Ok(WfsBranch)
    ensures var p := c.service.provider;
      p.Val? && p.v.contact.Val? && !p.v.contact.v.email.Absent? &&
      Final(SO, c, m)[CONTACT] == (if p.v.contact.v.email.Val? then Text(p.v.contact.v.email.v) else Nothing)
  {
    WfsContactPlaced();
    ReadEntry(SO, c, m, WfsBranch, 1, CONTACT, ContactEmail);
    ContactEmailAtom(c, m);
  }
}
