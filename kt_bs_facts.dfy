// What scraper/KT_BS.py leaves in a record it returns.
module KtBsFacts {
  import opened Python
  import opened Capabilities
  import opened Cleaning
  import opened Record
  import opened Script
  import opened ExprFacts
  import opened Links
  import opened Owners
  import KtBs

  // ---------------------------------------------------------------- dispatch

  /** The branch is chosen on source['URL']: "WMS", then "WMTS", then the lower-case "wfs", then "STAC". */
  lemma Routes(c: Call)
    ensures Dispatch(BS, c) == Ok(WmsBranch) <==> Contains(c.source.url, "WMS")
    ensures Dispatch(BS, c) == Ok(WmtsBranch) <==> !Contains(c.source.url, "WMS") && Contains(c.source.url, "WMTS")
    ensures Dispatch(BS, c) == Ok(WfsBranch) <==>
      !Contains(c.source.url, "WMS") && !Contains(c.source.url, "WMTS") && Contains(c.source.url, "wfs")
    ensures Dispatch(BS, c) == Ok(StacBranch) <==>
      !Contains(c.source.url, "WMS") && !Contains(c.source.url, "WMTS") && !Contains(c.source.url, "wfs") && Contains(c.source.url, "STAC")
    ensures Dispatch(BS, c).Ok?
  {
  }

  // ---------------------------------------------------------------- placements

  /** The four groups of the WMTS branch. */
  lemma WmtsParts()
    ensures Part(BS, WmtsBranch, 0) == KtBs.WmtsIdentity() &&
      Part(BS, WmtsBranch, 1) == KtBs.WmtsDescription() &&
      Part(BS, WmtsBranch, 2) == KtBs.WmtsPosition() &&
      Part(BS, WmtsBranch, 3) == KtBs.WmtsMap()
  {
  }

  /** The four groups of the WFS branch. */
  lemma WfsParts()
    ensures Part(BS, WfsBranch, 0) == KtBs.WfsIdentity() &&
      Part(BS, WfsBranch, 1) == KtBs.WfsDescription() &&
      Part(BS, WfsBranch, 2) == KtBs.WfsPosition() &&
      Part(BS, WfsBranch, 3) == Nil
  {
  }

  /** The four groups of the WMS branch. */
  lemma WmsParts()
    ensures Part(BS, WmsBranch, 0) == KtBs.WmsIdentity() &&
      Part(BS, WmsBranch, 1) == KtBs.WmsDescription() &&
      Part(BS, WmsBranch, 2) == KtBs.WmsPosition() &&
      Part(BS, WmsBranch, 3) == KtBs.WmsMap()
  {
  }

  lemma WmsGroupFree()
    ensures ExprFree(ParentNameOrBlank)
  {
  }

  lemma WmsGroupLast()
    ensures LastStore(KtBs.WmsIdentity(), GROUP, ParentNameOrBlank)
  {
  }

  lemma WmsGroupLater()
    ensures !WritesAny(KtBs.WmsDescription(), GROUP) && !WritesAny(KtBs.WmsPosition(), GROUP) && !WritesAny(KtBs.WmsMap(), GROUP)
  {
  }

  lemma WmsGroupPlaced()
    ensures Placed(BS, WmsBranch, 0, GROUP, ParentNameOrBlank)
  {
    WmsGroupFree();
    WmsGroupLast();
    WmsGroupLater();
    WmsParts();
  }

  lemma WmsAbstractFree()
    ensures ExprFree(Of(Cleaned(CrlfOnlyCleaner, IfSome(Abstract, Cat(Plus(Abstract, Plus(Lit(" "), Plus(AccessConstraints, Done)))), Just(AccessConstraints)))))
  {
  }

  lemma WmsAbstractLast()
    ensures LastStore(KtBs.WmsIdentity(), ABSTRACT, Of(Cleaned(CrlfOnlyCleaner, IfSome(Abstract, Cat(Plus(Abstract, Plus(Lit(" "), Plus(AccessConstraints, Done)))), Just(AccessConstraints)))))
  {
  }

  lemma WmsAbstractLater()
    ensures !WritesAny(KtBs.WmsDescription(), ABSTRACT) && !WritesAny(KtBs.WmsPosition(), ABSTRACT) && !WritesAny(KtBs.WmsMap(), ABSTRACT)
  {
  }

  lemma WmsAbstractPlaced()
    ensures Placed(BS, WmsBranch, 0, ABSTRACT, Of(Cleaned(CrlfOnlyCleaner, IfSome(Abstract, Cat(Plus(Abstract, Plus(Lit(" "), Plus(AccessConstraints, Done)))), Just(AccessConstraints)))))
  {
    WmsAbstractFree();
    WmsAbstractLast();
    WmsAbstractLater();
    WmsParts();
  }

  lemma WfsAbstractFree()
    ensures ExprFree(Of(Cleaned(CrlfOnlyCleaner, IfSome(Abstract, Cat(Plus(Abstract, Plus(Lit(" "), Plus(AccessConstraints, Done)))), Just(AccessConstraints)))))
  {
  }

  lemma WfsAbstractLast()
    ensures LastStore(KtBs.WfsIdentity(), ABSTRACT, Of(Cleaned(CrlfOnlyCleaner, IfSome(Abstract, Cat(Plus(Abstract, Plus(Lit(" "), Plus(AccessConstraints, Done)))), Just(AccessConstraints)))))
  {
  }

  lemma WfsAbstractLater()
    ensures !WritesAny(KtBs.WfsDescription(), ABSTRACT) && !WritesAny(KtBs.WfsPosition(), ABSTRACT)
  {
  }

  lemma WfsAbstractPlaced()
    ensures Placed(BS, WfsBranch, 0, ABSTRACT, Of(Cleaned(CrlfOnlyCleaner, IfSome(Abstract, Cat(Plus(Abstract, Plus(Lit(" "), Plus(AccessConstraints, Done)))), Just(AccessConstraints)))))
  {
    WfsAbstractFree();
    WfsAbstractLast();
    WfsAbstractLater();
    WfsParts();
  }

  lemma WmtsAbstractFree()
    ensures ExprFree(Of(Cleaned(CrlfOnlyCleaner, ServiceAbstractAndConstraints())))
  {
  }

  lemma WmtsAbstractLast()
    ensures LastStore(KtBs.WmtsIdentity(), ABSTRACT, Of(Cleaned(CrlfOnlyCleaner, ServiceAbstractAndConstraints())))
  {
  }

  lemma WmtsAbstractLater()
    ensures !WritesAny(KtBs.WmtsDescription(), ABSTRACT) && !WritesAny(KtBs.WmtsPosition(), ABSTRACT) && !WritesAny(KtBs.WmtsMap(), ABSTRACT)
  {
  }

  lemma WmtsAbstractPlaced()
    ensures Placed(BS, WmtsBranch, 0, ABSTRACT, Of(Cleaned(CrlfOnlyCleaner, ServiceAbstractAndConstraints())))
  {
    WmtsAbstractFree();
    WmtsAbstractLast();
    WmtsAbstractLater();
    WmtsParts();
  }

  lemma WmsKeywordsFree()
    ensures ExprFree(JoinedKeywords)
  {
  }

  lemma WmsKeywordsLast()
    ensures LastStore(KtBs.WmsDescription(), KEYWORDS, JoinedKeywords)
  {
  }

  lemma WmsKeywordsLater()
    ensures !WritesAny(KtBs.WmsPosition(), KEYWORDS) && !WritesAny(KtBs.WmsMap(), KEYWORDS)
  {
  }

  lemma WmsKeywordsPlaced()
    ensures Placed(BS, WmsBranch, 1, KEYWORDS, JoinedKeywords)
  {
    WmsKeywordsFree();
    WmsKeywordsLast();
    WmsKeywordsLater();
    WmsParts();
  }

  lemma WmtsLegendFree()
    ensures ExprFree(LegendIfLegendKey)
  {
  }

  lemma WmtsLegendLast()
    ensures LastStore(KtBs.WmtsDescription(), LEGEND, LegendIfLegendKey)
  {
  }

  lemma WmtsLegendLater()
    ensures !WritesAny(KtBs.WmtsPosition(), LEGEND) && !WritesAny(KtBs.WmtsMap(), LEGEND)
  {
  }

  lemma WmtsLegendPlaced()
    ensures Placed(BS, WmtsBranch, 1, LEGEND, LegendIfLegendKey)
  {
    WmtsLegendFree();
    WmtsLegendLast();
    WmtsLegendLater();
    WmtsParts();
  }

  lemma WmsTypeFree()
    ensures ExprFree(Of(Just(ServiceKind)))
  {
  }

  lemma WmsTypeLast()
    ensures LastStore(KtBs.WmsPosition(), SERVICETYPE, Of(Just(ServiceKind)))
  {
  }

  lemma WmsTypeLater()
    ensures !WritesAny(KtBs.WmsMap(), SERVICETYPE)
  {
  }

  lemma WmsTypePlaced()
    ensures Placed(BS, WmsBranch, 2, SERVICETYPE, Of(Just(ServiceKind)))
  {
    WmsTypeFree();
    WmsTypeLast();
    WmsTypeLater();
    WmsParts();
  }

  lemma WfsTypeFree()
    ensures ExprFree(Of(Just(Lit("WFS"))))
  {
  }

  lemma WfsTypeLast()
    ensures LastStore(KtBs.WfsPosition(), SERVICETYPE, Of(Just(Lit("WFS"))))
  {
  }

  lemma WfsTypePlaced()
    ensures Placed(BS, WfsBranch, 2, SERVICETYPE, Of(Just(Lit("WFS"))))
  {
    WfsTypeFree();
    WfsTypeLast();
    WfsParts();
  }

  lemma WmsZoomFree()
    ensures ExprFree(Int(7))
  {
  }

  lemma WmsZoomLast()
    ensures LastStore(KtBs.WmsPosition(), MAX_ZOOM, Int(7))
  {
  }

  lemma WmsZoomLater()
    ensures !WritesAny(KtBs.WmsMap(), MAX_ZOOM)
  {
  }

  lemma WmsZoomPlaced()
    ensures Placed(BS, WmsBranch, 2, MAX_ZOOM, Int(7))
  {
    WmsZoomFree();
    WmsZoomLast();
    WmsZoomLater();
    WmsParts();
  }

  lemma WmtsZoomFree()
    ensures ExprFree(Int(7))
  {
  }

  lemma WmtsZoomLast()
    ensures LastStore(KtBs.WmtsPosition(), MAX_ZOOM, Int(7))
  {
  }

  lemma WmtsZoomLater()
    ensures !WritesAny(KtBs.WmtsMap(), MAX_ZOOM)
  {
  }

  lemma WmtsZoomPlaced()
    ensures Placed(BS, WmtsBranch, 2, MAX_ZOOM, Int(7))
  {
    WmtsZoomFree();
    WmtsZoomLast();
    WmtsZoomLater();
    WmtsParts();
  }

  lemma WfsZoomFree()
    ensures ExprFree(Of(Just(Lit(""))))
  {
  }

  lemma WfsZoomLast()
    ensures LastStore(KtBs.WfsPosition(), MAX_ZOOM, Of(Just(Lit(""))))
  {
  }

  lemma WfsZoomPlaced()
    ensures Placed(BS, WfsBranch, 2, MAX_ZOOM, Of(Just(Lit(""))))
  {
    WfsZoomFree();
    WfsZoomLast();
    WfsParts();
  }

  lemma WfsNameFree()
    ensures ExprFree(Of(Just(Id)))
  {
  }

  lemma WfsNameLast()
    ensures LastStore(KtBs.WfsIdentity(), NAME, Of(Just(Id)))
  {
  }

  lemma WfsNameLater()
    ensures !WritesAny(KtBs.WfsDescription(), NAME) && !WritesAny(KtBs.WfsPosition(), NAME)
  {
  }

  lemma WfsNamePlaced()
    ensures Placed(BS, WfsBranch, 0, NAME, Of(Just(Id)))
  {
    WfsNameFree();
    WfsNameLast();
    WfsNameLater();
    WfsParts();
  }

  lemma WfsLatFree()
    ensures ExprFree(Mid(Wgs84, 1, 3))
  {
  }

  lemma WfsLatLast()
    ensures LastStore(KtBs.WfsPosition(), CENTER_LAT, Mid(Wgs84, 1, 3))
  {
  }

  lemma WfsLatPlaced()
    ensures Placed(BS, WfsBranch, 2, CENTER_LAT, Mid(Wgs84, 1, 3))
  {
    WfsLatFree();
    WfsLatLast();
    WfsParts();
  }

  lemma WfsLonFree()
    ensures ExprFree(Mid(Wgs84, 0, 2))
  {
  }

  lemma WfsLonLast()
    ensures LastStore(KtBs.WfsPosition(), CENTER_LON, Mid(Wgs84, 0, 2))
  {
  }

  lemma WfsLonPlaced()
    ensures Placed(BS, WfsBranch, 2, CENTER_LON, Mid(Wgs84, 0, 2))
  {
    WfsLonFree();
    WfsLonLast();
    WfsParts();
  }

  lemma WfsKeepsMapgeoUnwritten()
    ensures !WritesAny(Part(BS, WfsBranch, 0), MAPGEO) && !WritesAny(Part(BS, WfsBranch, 1), MAPGEO) && !WritesAny(Part(BS, WfsBranch, 2), MAPGEO) && !WritesAny(Part(BS, WfsBranch, 3), MAPGEO)
  {
    WfsKeepsMapgeoIn0();
    WfsKeepsMapgeoIn1();
    WfsKeepsMapgeoIn2();
    WfsParts();
  }

  lemma WfsKeepsMapgeoIn0()
    ensures !WritesAny(KtBs.WfsIdentity(), MAPGEO)
  {
  }

  lemma WfsKeepsMapgeoIn1()
    ensures !WritesAny(KtBs.WfsDescription(), MAPGEO)
  {
  }

  lemma WfsKeepsMapgeoIn2()
    ensures !WritesAny(KtBs.WfsPosition(), MAPGEO)
  {
  }

  lemma WmsLinkLate()
    ensures LastLate(KtBs.WmsMap(), MAPGEO, Of(Cat(WmsLink(Title))))
  {
    WmsLinkFree(Title);
    MapLate(WmsLink(Title));
  }

  lemma WmsLinkPlaced()
    ensures LastLate(Part(BS, WmsBranch, 3), MAPGEO, Of(Cat(WmsLink(Title))))
  {
    WmsLinkLate();
    WmsParts();
  }

  lemma WmtsLinkLate()
    ensures LastLate(KtBs.WmtsMap(), MAPGEO, Of(Cat(WmtsLink(Title))))
  {
    WmtsLinkFree(Title);
    MapLate(WmtsLink(Title));
  }

  lemma WmtsLinkPlaced()
    ensures LastLate(Part(BS, WmtsBranch, 3), MAPGEO, Of(Cat(WmtsLink(Title))))
  {
    WmtsLinkLate();
    WmtsParts();
  }

  lemma WmsLegendFree()
    ensures ExprFree(Attempt(ChildDefaultLegend, Attempt(OwnDefaultLegend, Of(Just(Lit(""))))))
  {
  }

  lemma WmsLegendLast()
    ensures LastStore(KtBs.WmsDescription(), LEGEND, Attempt(ChildDefaultLegend, Attempt(OwnDefaultLegend, Of(Just(Lit(""))))))
  {
  }

  lemma WmsLegendLater()
    ensures !WritesAny(KtBs.WmsPosition(), LEGEND) && !WritesAny(KtBs.WmsMap(), LEGEND)
  {
  }

  lemma WmsLegendPlaced()
    ensures Placed(BS, WmsBranch, 1, LEGEND, Attempt(ChildDefaultLegend, Attempt(OwnDefaultLegend, Of(Just(Lit(""))))))
  {
    WmsLegendFree();
    WmsLegendLast();
    WmsLegendLater();
    WmsParts();
  }

  lemma WfsLegendFree()
    ensures ExprFree(Attempt(ChildDefaultLegend, Attempt(OwnDefaultLegend, Of(Just(Lit(""))))))
  {
  }

  lemma WfsLegendLast()
    ensures LastStore(KtBs.WfsDescription(), LEGEND, Attempt(ChildDefaultLegend, Attempt(OwnDefaultLegend, Of(Just(Lit(""))))))
  {
  }

  lemma WfsLegendLater()
    ensures !WritesAny(KtBs.WfsPosition(), LEGEND)
  {
  }

  lemma WfsLegendPlaced()
    ensures Placed(BS, WfsBranch, 1, LEGEND, Attempt(ChildDefaultLegend, Attempt(OwnDefaultLegend, Of(Just(Lit(""))))))
  {
    WfsLegendFree();
    WfsLegendLast();
    WfsLegendLater();
    WfsParts();
  }

  lemma WmsMetadataFree()
    ensures ExprFree(Attempt(FirstMetadataUrl, Attempt(SubLayerMetadataUrl, Of(Just(Lit(""))))))
  {
  }

  lemma WmsMetadataLast()
    ensures LastStore(KtBs.WmsDescription(), METADATA, Attempt(FirstMetadataUrl, Attempt(SubLayerMetadataUrl, Of(Just(Lit(""))))))
  {
  }

  lemma WmsMetadataLater()
    ensures !WritesAny(KtBs.WmsPosition(), METADATA) && !WritesAny(KtBs.WmsMap(), METADATA)
  {
  }

  lemma WmsMetadataPlaced()
    ensures Placed(BS, WmsBranch, 1, METADATA, Attempt(FirstMetadataUrl, Attempt(SubLayerMetadataUrl, Of(Just(Lit(""))))))
  {
    WmsMetadataFree();
    WmsMetadataLast();
    WmsMetadataLater();
    WmsParts();
  }

  lemma WfsMetadataFree()
    ensures ExprFree(Attempt(FirstMetadataUrl, Attempt(ChildMetadataUrl, Of(Just(Lit(""))))))
  {
  }

  lemma WfsMetadataLast()
    ensures LastStore(KtBs.WfsDescription(), METADATA, Attempt(FirstMetadataUrl, Attempt(ChildMetadataUrl, Of(Just(Lit(""))))))
  {
  }

  lemma WfsMetadataLater()
    ensures !WritesAny(KtBs.WfsPosition(), METADATA)
  {
  }

  lemma WfsMetadataPlaced()
    ensures Placed(BS, WfsBranch, 1, METADATA, Attempt(FirstMetadataUrl, Attempt(ChildMetadataUrl, Of(Just(Lit(""))))))
  {
    WfsMetadataFree();
    WfsMetadataLast();
    WfsMetadataLater();
    WfsParts();
  }

  // ---------------------------------------------------------------- entries

  /** The WMS GROUP is the parent layer's name, or "" for a top layer. */
  lemma WmsGroup(c: Call, m: map<Key, Value>)
    requires Complete(m) && Returns(BS, c, m) && Dispatch(BS, c) == Ok(WmsBranch)
    ensures LayerOf(c).Ok? && !LayerOf(c).value.parent.Absent?
    ensures var p := LayerOf(c).value.parent; Final(BS, c, m)[GROUP] == if p.Val? then Of1(p.v.name) else Text("")
  {
    WmsGroupPlaced();
    LayerEntry(BS, c, m, WmsBranch, 0, GROUP, ParentNameOrBlank);
    ParentNameRead(LayerOf(c).value, c, Final(BS, c, m)[GROUP]);
  }

  /** A WMS or WFS abstract is the layer's abstract and the access constraints, or the constraints alone, with every "\r\n" deleted. */
  lemma WmsAbstract(c: Call, m: map<Key, Value>)
    requires Complete(m) && Returns(BS, c, m) && Dispatch(BS, c) == Ok(WmsBranch)
    ensures LayerOf(c).Ok?
    ensures var a := LayerOf(c).value.abstractText; var ac := c.service.identification.accessConstraints;
      && (a.Some? ==> ac.Some? && Final(BS, c, m)[ABSTRACT] == Text(CrlfOnly(Some(a.value + " " + ac.value))))
      && (a.None? ==> Final(BS, c, m)[ABSTRACT] == Text(CrlfOnly(ac)))
  {
    WmsAbstractPlaced();
    Entry(BS, c, m, WmsBranch, 0, ABSTRACT, Of(Cleaned(CrlfOnlyCleaner, IfSome(Abstract, Cat(Plus(Abstract, Plus(Lit(" "), Plus(AccessConstraints, Done)))), Just(AccessConstraints)))));
    AbstractOrConstraintsCrlf(c, m, Final(BS, c, m)[ABSTRACT]);
  }

  lemma WfsAbstract(c: Call, m: map<Key, Value>)
    requires Complete(m) && Returns(BS, c, m) && Dispatch(BS, c) == Ok(WfsBranch)
    ensures LayerOf(c).Ok?
    ensures var a := LayerOf(c).value.abstractText; var ac := c.service.identification.accessConstraints;
      && (a.Some? ==> ac.Some? && Final(BS, c, m)[ABSTRACT] == Text(CrlfOnly(Some(a.value + " " + ac.value))))
      && (a.None? ==> Final(BS, c, m)[ABSTRACT] == Text(CrlfOnly(ac)))
  {
    WfsAbstractPlaced();
    Entry(BS, c, m, WfsBranch, 0, ABSTRACT, Of(Cleaned(CrlfOnlyCleaner, IfSome(Abstract, Cat(Plus(Abstract, Plus(Lit(" "), Plus(AccessConstraints, Done)))), Just(AccessConstraints)))));
    AbstractOrConstraintsCrlf(c, m, Final(BS, c, m)[ABSTRACT]);
  }

  /** A WMTS abstract is the service's abstract and access constraints, both required, with every "\r\n" deleted. */
  lemma WmtsAbstract(c: Call, m: map<Key, Value>)
    requires Complete(m) && Returns(BS, c, m) && Dispatch(BS, c) == Ok(WmtsBranch)
    ensures var id := c.service.identification;
      id.abstractText.Some? && id.accessConstraints.Some? &&
      Final(BS, c, m)[ABSTRACT] == Text(CrlfOnly(Some(id.abstractText.value + " " + id.accessConstraints.value)))
  {
    WmtsAbstractPlaced();
    Entry(BS, c, m, WmtsBranch, 0, ABSTRACT, Of(Cleaned(CrlfOnlyCleaner, ServiceAbstractAndConstraints())));
    ServiceTextCrlf(c, m, Final(BS, c, m)[ABSTRACT]);
  }

  lemma WmsKeywords(c: Call, m: map<Key, Value>)
    requires Complete(m) && Returns(BS, c, m) && Dispatch(BS, c) == Ok(WmsBranch)
    ensures LayerOf(c).Ok? && LayerOf(c).value.keywords.Some? && c.service.identification.keywords.Some?
    ensures var all := LayerOf(c).value.keywords.value + c.service.identification.keywords.value;
      (forall k :: 0 <= k < |all| ==> all[k].Some?) && Final(BS, c, m)[KEYWORDS] == Text(Join(", ", Texts(all)))
  {
    WmsKeywordsPlaced();
    LayerEntry(BS, c, m, WmsBranch, 1, KEYWORDS, JoinedKeywords);
    JoinedKeywordsRead(LayerOf(c).value, c, Final(BS, c, m)[KEYWORDS]);
  }

  /** The WMTS legend tests for a style named "legend" but reads the style named "default". */
  lemma WmtsLegend(c: Call, m: map<Key, Value>)
    requires Complete(m) && Returns(BS, c, m) && Dispatch(BS, c) == Ok(WmtsBranch)
    ensures LayerOf(c).Ok? && LayerOf(c).value.styles.Val?
    ensures var ss := LayerOf(c).value.styles.v; var v := Final(BS, c, m)[LEGEND];
      && (StyleNamed(ss, "legend").None? ==> v == Text(""))
      && (StyleNamed(ss, "legend").Some? ==>
            StyleNamed(ss, "default").Some? && StyleNamed(ss, "default").value.legend.Some? &&
            v == Text(StyleNamed(ss, "default").value.legend.value))
  {
    WmtsLegendPlaced();
    LayerEntry(BS, c, m, WmtsBranch, 1, LEGEND, LegendIfLegendKey);
    LegendIfLegendKeyRead(LayerOf(c).value, c, Final(BS, c, m)[LEGEND]);
  }

  /** SERVICETYPE is the service's type for WMS and WMTS and "WFS" for WFS; MAX_ZOOM is 7, 7 and "". */
  lemma WmsType(c: Call, m: map<Key, Value>)
    requires Complete(m) && Returns(BS, c, m) && Dispatch(BS, c) == Ok(WmsBranch)
    ensures Final(BS, c, m)[SERVICETYPE] == Of1(c.service.identification.kind)
  {
    WmsTypePlaced();
    ReadEntry(BS, c, m, WmsBranch, 2, SERVICETYPE, ServiceKind);
    ServiceKindAtom(c, m);
  }

  lemma WfsType(c: Call, m: map<Key, Value>)
    requires Complete(m) && Returns(BS, c, m) && Dispatch(BS, c) == Ok(WfsBranch)
    ensures Final(BS, c, m)[SERVICETYPE] == Text("WFS")
  {
    WfsTypePlaced();
    FixedEntry(BS, c, m, WfsBranch, 2, SERVICETYPE, "WFS");
  }

  lemma WmsZoom(c: Call, m: map<Key, Value>)
    requires Complete(m) && Returns(BS, c, m) && Dispatch(BS, c) == Ok(WmsBranch)
    ensures Final(BS, c, m)[MAX_ZOOM] == Integer(7)
  {
    WmsZoomPlaced();
    Entry(BS, c, m, WmsBranch, 2, MAX_ZOOM, Int(7));
  }

  lemma WmtsZoom(c: Call, m: map<Key, Value>)
    requires Complete(m) && Returns(BS, c, m) && Dispatch(BS, c) == Ok(WmtsBranch)
    ensures Final(BS, c, m)[MAX_ZOOM] == Integer(7)
  {
    WmtsZoomPlaced();
    Entry(BS, c, m, WmtsBranch, 2, MAX_ZOOM, Int(7));
  }

  lemma WfsZoom(c: Call, m: map<Key, Value>)
    requires Complete(m) && Returns(BS, c, m) && Dispatch(BS, c) == Ok(WfsBranch)
    ensures Final(BS, c, m)[MAX_ZOOM] == Text("")
  {
    WfsZoomPlaced();
    FixedEntry(BS, c, m, WfsBranch, 2, MAX_ZOOM, "");
  }

  /** A WFS layer is named by its id. */
  lemma WfsName(c: Call, m: map<Key, Value>)
    requires Complete(m) && Returns(BS, c, m) && Dispatch(BS, c) == Ok(WfsBranch)
    ensures LayerOf(c).Ok? && Final(BS, c, m)[NAME] == Text(c.layerId)
  {
    WfsNamePlaced();
    ReadEntry(BS, c, m, WfsBranch, 0, NAME, Id);
    IdAtom(c, m);
    IdText(c, m);
  }

  /** The WFS centre is the middle of the WGS84 box. */
  lemma WfsLat(c: Call, m: map<Key, Value>)
    requires Complete(m) && Returns(BS, c, m) && Dispatch(BS, c) == Ok(WfsBranch)
    ensures LayerOf(c).Ok? && MidIs(Final(BS, c, m)[CENTER_LAT], BoxOf(LayerOf(c).value, Wgs84), 1, 3)
  {
    WfsLatPlaced();
    LayerEntry(BS, c, m, WfsBranch, 2, CENTER_LAT, Mid(Wgs84, 1, 3));
    MidRead(Wgs84, 1, 3, LayerOf(c).value, c, Final(BS, c, m)[CENTER_LAT]);
  }

  lemma WfsLon(c: Call, m: map<Key, Value>)
    requires Complete(m) && Returns(BS, c, m) && Dispatch(BS, c) == Ok(WfsBranch)
    ensures LayerOf(c).Ok? && MidIs(Final(BS, c, m)[CENTER_LON], BoxOf(LayerOf(c).value, Wgs84), 0, 2)
  {
    WfsLonPlaced();
    LayerEntry(BS, c, m, WfsBranch, 2, CENTER_LON, Mid(Wgs84, 0, 2));
    MidRead(Wgs84, 0, 2, LayerOf(c).value, c, Final(BS, c, m)[CENTER_LON]);
  }

  /** The WFS branch leaves MAPGEO as it was. */
  lemma WfsKeepsMapgeo(c: Call, m: map<Key, Value>)
    requires Complete(m) && Returns(BS, c, m) && Dispatch(BS, c) == Ok(WfsBranch)
    ensures Final(BS, c, m)[MAPGEO] == m[MAPGEO]
  {
    WfsKeepsMapgeoUnwritten();
    KeptEntry(BS, c, m, WfsBranch, MAPGEO);
  }

  /** MAPGEO is its link's value on the final record. */
  lemma WmsLinkHolds(c: Call, m: map<Key, Value>)
    requires Complete(m) && Returns(BS, c, m) && Dispatch(BS, c) == Ok(WmsBranch)
    ensures Eval(Of(Cat(WmsLink(Title))), c, Final(BS, c, m)) == Ok(Final(BS, c, m)[MAPGEO])
  {
    WmsLinkPlaced();
    LateEntry(BS, c, m, WmsBranch, MAPGEO, Of(Cat(WmsLink(Title))));
  }

  /** The WMS link names the layer by its title and ends with the box's centre at zoom 7. */
  lemma WmsMapgeo(c: Call, m: map<Key, Value>)
    requires Complete(m) && Returns(BS, c, m) && Dispatch(BS, c) == Ok(WmsBranch)
    ensures LayerOf(c).Ok? && LayerOf(c).value.title.Some?
    ensures c.service.url.Val? && c.service.identification.version.Some?
    ensures var f := Final(BS, c, m); f[MAPGEO] == Text(
      (c.prefix + "layers=WMS||" + LayerOf(c).value.title.value + "||" + c.service.url.v + "?||" +
       c.layerId + "||" + c.service.identification.version.value) +
      ("&swisssearch=" + Show(f[CENTER_LAT], c.host) + "%20" + Show(f[CENTER_LON], c.host) + "&zoom=7"))
  {
    WmsLinkHolds(c, m);
    WmsZoom(c, m);
    TitledWmsLinkText(c, Final(BS, c, m), Final(BS, c, m)[MAPGEO]);
  }

  /** MAPGEO is its link's value on the final record. */
  lemma WmtsLinkHolds(c: Call, m: map<Key, Value>)
    requires Complete(m) && Returns(BS, c, m) && Dispatch(BS, c) == Ok(WmtsBranch)
    ensures Eval(Of(Cat(WmtsLink(Title))), c, Final(BS, c, m)) == Ok(Final(BS, c, m)[MAPGEO])
  {
    WmtsLinkPlaced();
    LateEntry(BS, c, m, WmtsBranch, MAPGEO, Of(Cat(WmtsLink(Title))));
  }

  /** The WMTS link names the layer by its title and ends with the centre the fallback chose. */
  lemma WmtsMapgeo(c: Call, m: map<Key, Value>)
    requires Complete(m) && Returns(BS, c, m) && Dispatch(BS, c) == Ok(WmtsBranch)
    ensures LayerOf(c).Ok? && LayerOf(c).value.title.Some? && c.service.url.Val?
    ensures var f := Final(BS, c, m); f[MAPGEO] == Text(
      (c.prefix + "layers=WMTS||" + LayerOf(c).value.title.value + "||" + c.service.url.v) +
      ("&swisssearch=" + Show(f[CENTER_LAT], c.host) + "%20" + Show(f[CENTER_LON], c.host) + "&zoom=7"))
  {
    WmtsLinkHolds(c, m);
    WmtsZoom(c, m);
    TitledWmtsLinkText(c, Final(BS, c, m), Final(BS, c, m)[MAPGEO]);
  }

  /** The WMS and WFS legend is the first child's default legend, else the layer's own default legend, else "". */
  lemma WmsLegend(c: Call, m: map<Key, Value>)
    requires Complete(m) && Returns(BS, c, m) && Dispatch(BS, c) == Ok(WmsBranch)
    ensures !LayerOf(c).Ok? ==> Final(BS, c, m)[LEGEND] == Text("")
    ensures LayerOf(c).Ok? ==>
      var l := LayerOf(c).value;
      Final(BS, c, m)[LEGEND] == if HasFirst(l.children) && HasDefaultLegend(l.children.v[0]) then Text(DefaultLegendText(l.children.v[0]))
           else if HasDefaultLegend(l) then Text(DefaultLegendText(l))
           else Text("")
  {
    WmsLegendPlaced();
    Entry(BS, c, m, WmsBranch, 1, LEGEND, Attempt(ChildDefaultLegend, Attempt(OwnDefaultLegend, Of(Just(Lit(""))))));
    LegendTryChain(c, m, Final(BS, c, m)[LEGEND]);
  }

  lemma WfsLegend(c: Call, m: map<Key, Value>)
    requires Complete(m) && Returns(BS, c, m) && Dispatch(BS, c) == Ok(WfsBranch)
    ensures !LayerOf(c).Ok? ==> Final(BS, c, m)[LEGEND] == Text("")
    ensures LayerOf(c).Ok? ==>
      var l := LayerOf(c).value;
      Final(BS, c, m)[LEGEND] == if HasFirst(l.children) && HasDefaultLegend(l.children.v[0]) then Text(DefaultLegendText(l.children.v[0]))
           else if HasDefaultLegend(l) then Text(DefaultLegendText(l))
           else Text("")
  {
    WfsLegendPlaced();
    Entry(BS, c, m, WfsBranch, 1, LEGEND, Attempt(ChildDefaultLegend, Attempt(OwnDefaultLegend, Of(Just(Lit(""))))));
    LegendTryChain(c, m, Final(BS, c, m)[LEGEND]);
  }

  /** The WMS METADATA is the layer's first metadata URL, else that of its first sub-layer, else "". */
  lemma WmsMetadata(c: Call, m: map<Key, Value>)
    requires Complete(m) && Returns(BS, c, m) && Dispatch(BS, c) == Ok(WmsBranch)
    ensures !LayerOf(c).Ok? ==> Final(BS, c, m)[METADATA] == Text("")
    ensures LayerOf(c).Ok? ==>
      var l := LayerOf(c).value;
      Final(BS, c, m)[METADATA] == if HasFirstUrl(l) then Text(FirstUrlText(l))
           else if HasFirst(l.sublayers) && HasFirstUrl(l.sublayers.v[0]) then Text(FirstUrlText(l.sublayers.v[0]))
           else Text("")
  {
    WmsMetadataPlaced();
    Entry(BS, c, m, WmsBranch, 1, METADATA, Attempt(FirstMetadataUrl, Attempt(SubLayerMetadataUrl, Of(Just(Lit(""))))));
    MetadataTryChain(SubLayerMetadataUrl, c, m, Final(BS, c, m)[METADATA]);
  }

  /** The WFS METADATA is the layer's first metadata URL, else that of its first child, else "". */
  lemma WfsMetadata(c: Call, m: map<Key, Value>)
    requires Complete(m) && Returns(BS, c, m) && Dispatch(BS, c) == Ok(WfsBranch)
    ensures !LayerOf(c).Ok? ==> Final(BS, c, m)[METADATA] == Text("")
    ensures LayerOf(c).Ok? ==>
      var l := LayerOf(c).value;
      Final(BS, c, m)[METADATA] == if HasFirstUrl(l) then Text(FirstUrlText(l))
           else if HasFirst(l.children) && HasFirstUrl(l.children.v[0]) then Text(FirstUrlText(l.children.v[0]))
           else Text("")
  {
    WfsMetadataPlaced();
    Entry(BS, c, m, WfsBranch, 1, METADATA, Attempt(FirstMetadataUrl, Attempt(ChildMetadataUrl, Of(Just(Lit(""))))));
    MetadataTryChain(ChildMetadataUrl, c, m, Final(BS, c, m)[METADATA]);
  }

  /** KT_BS.py:69-77 on the record `F`: the centre and box come from boundingBoxWGS84
      when it has four ordinates; otherwise from the extent of the first boundingBox,
      whose first four parts then parse as numbers. */
  predicate ExtentPlaced(l: Layer, h: Host, F: map<Key, Value>)
    requires Complete(F)
  {
    if Cornered(l.wgs84) then
      var w := l.wgs84.v;
      && F[CENTER_LAT] == Number((w[1].x + w[3].x) / 2.0)
      && F[CENTER_LON] == Number((w[0].x + w[2].x) / 2.0)
      && F[BBOX] == Text(Join(" ", ShowItems(w, h)))
    else
      && ExtentParts(l, h).Ok?
      && var p := ExtentParts(l, h).value;
      && |p| >= 4 && (forall k :: 0 <= k < 4 ==> h.parseFloat(p[k]).Some?)
      && F[CENTER_LAT] == Number((h.parseFloat(p[1]).value + h.parseFloat(p[3]).value) / 2.0)
      && F[CENTER_LON] == Number((h.parseFloat(p[0]).value + h.parseFloat(p[2]).value) / 2.0)
      && F[BBOX] == Text(p[0] + " " + p[1] + " " + p[2] + " " + p[3])
  }

  /** The try body has a value exactly when boundingBoxWGS84 has four ordinates. */
  lemma WgsBody(l: Layer, c: Call)
    ensures Cornered(l.wgs84) <==>
      LayerExpr(Mid(Wgs84, 1, 3), l, c).Ok? && LayerExpr(Mid(Wgs84, 0, 2), l, c).Ok? && LayerExpr(Joined(Wgs84), l, c).Ok?
  {
  }

  /** The values of the try body, when boundingBoxWGS84 has four ordinates. */
  lemma WgsPlaced(l: Layer, c: Call, v: map<Key, Value>)
    requires Complete(v) && Cornered(l.wgs84)
    requires LayerExpr(Mid(Wgs84, 1, 3), l, c) == Ok(v[CENTER_LAT])
    requires LayerExpr(Mid(Wgs84, 0, 2), l, c) == Ok(v[CENTER_LON])
    requires LayerExpr(Joined(Wgs84), l, c) == Ok(v[BBOX])
    ensures ExtentPlaced(l, c.host, v)
  {
  }

  /** The values of the except branch, when it raised nothing. */
  lemma HandlerPlaced(l: Layer, c: Call, v: map<Key, Value>)
    requires Complete(v) && !Cornered(l.wgs84)
    requires LayerExpr(ExtentMid(1, 3), l, c) == Ok(v[CENTER_LAT])
    requires LayerExpr(ExtentMid(0, 2), l, c) == Ok(v[CENTER_LON])
    requires LayerExpr(ExtentJoined, l, c) == Ok(v[BBOX])
    ensures ExtentPlaced(l, c.host, v)
  {
  }

  /** The try statement of KT_BS.py:69-77: three assignments from boundingBoxWGS84,
      and three from the extent of the first boundingBox in the except branch. */
  lemma FallbackShape()
    ensures var st := KtBs.ExtentFallback();
      && st.Try? && |st.body| == 3 && |st.handler| == 3 && LayerPairs(st.body) && LayerPairs(st.handler)
      && st.body[0] == (CENTER_LAT, Mid(Wgs84, 1, 3)) && st.body[1] == (CENTER_LON, Mid(Wgs84, 0, 2))
      && st.body[2] == (BBOX, Joined(Wgs84))
      && st.handler[0] == (CENTER_LAT, ExtentMid(1, 3)) && st.handler[1] == (CENTER_LON, ExtentMid(0, 2))
      && st.handler[2] == (BBOX, ExtentJoined)
  {
  }

  /** The WMTS link group writes only MAPGEO. */
  lemma MapWrites()
    ensures !WritesAny(KtBs.WmtsMap(), CENTER_LAT) && !WritesAny(KtBs.WmtsMap(), CENTER_LON) && !WritesAny(KtBs.WmtsMap(), BBOX)
  {
  }

  /** ExtentPlaced reads only the centre and the box. */
  lemma PlacedAgree(l: Layer, h: Host, F: map<Key, Value>, G: map<Key, Value>)
    requires Complete(F) && Complete(G) && ExtentPlaced(l, h, F)
    requires F[CENTER_LAT] == G[CENTER_LAT] && F[CENTER_LON] == G[CENTER_LON] && F[BBOX] == G[BBOX]
    ensures ExtentPlaced(l, h, G)
  {
  }

  /** The try statement of KT_BS.py:69-77, when it raised nothing. */
  lemma ExtentStep(c: Call, m: map<Key, Value>)
    requires Complete(m) && Step(KtBs.ExtentFallback(), c, m).fault.None?
    ensures LayerOf(c).Ok? && ExtentPlaced(LayerOf(c).value, c.host, Step(KtBs.ExtentFallback(), c, m).values)
  {
    FallbackShape();
    var st := KtBs.ExtentFallback();
    TryOnLayer3(st.body, st.handler, c, m);
    var l := LayerOf(c).value;
    var v := Step(st, c, m).values;
    WgsBody(l, c);
    if Cornered(l.wgs84) {
      WgsPlaced(l, c, v);
    } else {
      HandlerPlaced(l, c, v);
    }
  }

  /** A returned WMTS record holds the centre and box the try statement placed. */
  lemma WmtsExtent(c: Call, m: map<Key, Value>)
    requires Complete(m) && Returns(BS, c, m) && Dispatch(BS, c) == Ok(WmtsBranch)
    ensures LayerOf(c).Ok? && ExtentPlaced(LayerOf(c).value, c.host, Final(BS, c, m))
  {
    WmtsParts();
    var d := KtBs.WmtsPosition();
    ThirdGroupEnd(BS, c, m, WmtsBranch, d.head, d.tail.head, KtBs.ExtentFallback());
    var m2 :| Complete(m2) && Step(KtBs.ExtentFallback(), c, m2).fault.None? &&
      forall q :: !WritesAny(KtBs.WmtsMap(), q) ==> Final(BS, c, m)[q] == Step(KtBs.ExtentFallback(), c, m2).values[q];
    ExtentStep(c, m2);
    MapWrites();
    PlacedAgree(LayerOf(c).value, c.host, Step(KtBs.ExtentFallback(), c, m2).values, Final(BS, c, m));
  }
}
