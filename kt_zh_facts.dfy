// What scraper/KT_ZH.py leaves in a record it returns.
module KtZhFacts {
  import opened Python
  import opened Capabilities
  import opened Cleaning
  import opened Record
  import opened Script
  import opened ExprFacts
  import opened Links
  import opened Owners
  import KtZh

  // ---------------------------------------------------------------- dispatch

  /** The branch is chosen on source['URL'] by the lower-case "wms", "wmts" and "wfs"; STAC must be the whole text. */
  lemma Routes(c: Call)
    ensures Dispatch(ZH, c) == Ok(WmsBranch) <==> Contains(c.source.url, "wms")
    ensures Dispatch(ZH, c) == Ok(WmtsBranch) <==> !Contains(c.source.url, "wms") && Contains(c.source.url, "wmts")
    ensures Dispatch(ZH, c) == Ok(WfsBranch) <==>
      !Contains(c.source.url, "wms") && !Contains(c.source.url, "wmts") && Contains(c.source.url, "wfs")
    ensures Dispatch(ZH, c) == Ok(StacBranch) <==>
      !Contains(c.source.url, "wms") && !Contains(c.source.url, "wmts") && !Contains(c.source.url, "wfs") && c.source.url == "STAC"
    ensures Dispatch(ZH, c).Ok?
  {
  }

  // ---------------------------------------------------------------- placements

  /** The four groups of the WFS branch. */
  lemma WfsParts()
    ensures Part(ZH, WfsBranch, 0) == KtZh.WfsIdentity() &&
      Part(ZH, WfsBranch, 1) == KtZh.WfsDescription() &&
      Part(ZH, WfsBranch, 2) == KtZh.WfsPosition() &&
      Part(ZH, WfsBranch, 3) == Nil
  {
  }

  /** The four groups of the WMTS branch. */
  lemma WmtsParts()
    ensures Part(ZH, WmtsBranch, 0) == KtZh.WmtsIdentity() &&
      Part(ZH, WmtsBranch, 1) == KtZh.WmtsDescription() &&
      Part(ZH, WmtsBranch, 2) == KtZh.WmtsPosition() &&
      Part(ZH, WmtsBranch, 3) == KtZh.WmtsMap()
  {
  }

  /** The four groups of the WMS branch. */
  lemma WmsParts()
    ensures Part(ZH, WmsBranch, 0) == KtZh.WmsIdentity() &&
      Part(ZH, WmsBranch, 1) == KtZh.WmsDescription() &&
      Part(ZH, WmsBranch, 2) == KtZh.WmsPosition() &&
      Part(ZH, WmsBranch, 3) == KtZh.WmsMap()
  {
  }

  lemma WmsAbstractFree()
    ensures ExprFree(Of(Cleaned(ControlsOnlyCleaner, WithParentAbstract(Just(Abstract)))))
  {
  }

  lemma WmsAbstractLast()
    ensures LastStore(KtZh.WmsIdentity(), ABSTRACT, Of(Cleaned(ControlsOnlyCleaner, WithParentAbstract(Just(Abstract)))))
  {
  }

  lemma WmsAbstractLater()
    ensures !WritesAny(KtZh.WmsDescription(), ABSTRACT) && !WritesAny(KtZh.WmsPosition(), ABSTRACT) && !WritesAny(KtZh.WmsMap(), ABSTRACT)
  {
  }

  lemma WmsAbstractPlaced()
    ensures Placed(ZH, WmsBranch, 0, ABSTRACT, Of(Cleaned(ControlsOnlyCleaner, WithParentAbstract(Just(Abstract)))))
  {
    WmsAbstractFree();
    WmsAbstractLast();
    WmsAbstractLater();
    WmsParts();
  }

  lemma WmtsAbstractFree()
    ensures ExprFree(Of(Cleaned(ControlsOnlyCleaner, ServiceAbstractAndConstraints())))
  {
  }

  lemma WmtsAbstractLast()
    ensures LastStore(KtZh.WmtsIdentity(), ABSTRACT, Of(Cleaned(ControlsOnlyCleaner, ServiceAbstractAndConstraints())))
  {
  }

  lemma WmtsAbstractLater()
    ensures !WritesAny(KtZh.WmtsDescription(), ABSTRACT) && !WritesAny(KtZh.WmtsPosition(), ABSTRACT) && !WritesAny(KtZh.WmtsMap(), ABSTRACT)
  {
  }

  lemma WmtsAbstractPlaced()
    ensures Placed(ZH, WmtsBranch, 0, ABSTRACT, Of(Cleaned(ControlsOnlyCleaner, ServiceAbstractAndConstraints())))
  {
    WmtsAbstractFree();
    WmtsAbstractLast();
    WmtsAbstractLater();
    WmtsParts();
  }

  lemma WfsAbstractFree()
    ensures ExprFree(Of(ReplacedOrBlank(Just(Abstract), Crlf)))
  {
  }

  lemma WfsAbstractLast()
    ensures LastStore(KtZh.WfsIdentity(), ABSTRACT, Of(ReplacedOrBlank(Just(Abstract), Crlf)))
  {
  }

  lemma WfsAbstractLater()
    ensures !WritesAny(KtZh.WfsDescription(), ABSTRACT) && !WritesAny(KtZh.WfsPosition(), ABSTRACT)
  {
  }

  lemma WfsAbstractPlaced()
    ensures Placed(ZH, WfsBranch, 0, ABSTRACT, Of(ReplacedOrBlank(Just(Abstract), Crlf)))
  {
    WfsAbstractFree();
    WfsAbstractLast();
    WfsAbstractLater();
    WfsParts();
  }

  lemma WmsGroupFree()
    ensures ExprFree(ParentNameOrBlank)
  {
  }

  lemma WmsGroupLast()
    ensures LastStore(KtZh.WmsIdentity(), GROUP, ParentNameOrBlank)
  {
  }

  lemma WmsGroupLater()
    ensures !WritesAny(KtZh.WmsDescription(), GROUP) && !WritesAny(KtZh.WmsPosition(), GROUP) && !WritesAny(KtZh.WmsMap(), GROUP)
  {
  }

  lemma WmsGroupPlaced()
    ensures Placed(ZH, WmsBranch, 0, GROUP, ParentNameOrBlank)
  {
    WmsGroupFree();
    WmsGroupLast();
    WmsGroupLater();
    WmsParts();
  }

  lemma WmsMetadataFree()
    ensures ExprFree(SoleMetadataUrl)
  {
  }

  lemma WmsMetadataLast()
    ensures LastStore(KtZh.WmsDescription(), METADATA, SoleMetadataUrl)
  {
  }

  lemma WmsMetadataLater()
    ensures !WritesAny(KtZh.WmsPosition(), METADATA) && !WritesAny(KtZh.WmsMap(), METADATA)
  {
  }

  lemma WmsMetadataPlaced()
    ensures Placed(ZH, WmsBranch, 1, METADATA, SoleMetadataUrl)
  {
    WmsMetadataFree();
    WmsMetadataLast();
    WmsMetadataLater();
    WmsParts();
  }

  lemma WfsMetadataFree()
    ensures ExprFree(SoleMetadataUrl)
  {
  }

  lemma WfsMetadataLast()
    ensures LastStore(KtZh.WfsDescription(), METADATA, SoleMetadataUrl)
  {
  }

  lemma WfsMetadataLater()
    ensures !WritesAny(KtZh.WfsPosition(), METADATA)
  {
  }

  lemma WfsMetadataPlaced()
    ensures Placed(ZH, WfsBranch, 1, METADATA, SoleMetadataUrl)
  {
    WfsMetadataFree();
    WfsMetadataLast();
    WfsMetadataLater();
    WfsParts();
  }

  lemma WfsLegendFree()
    ensures ExprFree(Of(Just(Lit(""))))
  {
  }

  lemma WfsLegendLast()
    ensures LastStore(KtZh.WfsDescription(), LEGEND, Of(Just(Lit(""))))
  {
  }

  lemma WfsLegendLater()
    ensures !WritesAny(KtZh.WfsPosition(), LEGEND)
  {
  }

  lemma WfsLegendPlaced()
    ensures Placed(ZH, WfsBranch, 1, LEGEND, Of(Just(Lit(""))))
  {
    WfsLegendFree();
    WfsLegendLast();
    WfsLegendLater();
    WfsParts();
  }

  lemma WmtsTypeFree()
    ensures ExprFree(Of(Just(ServiceKind)))
  {
  }

  lemma WmtsTypeLast()
    ensures LastStore(KtZh.WmtsPosition(), SERVICETYPE, Of(Just(ServiceKind)))
  {
  }

  lemma WmtsTypeLater()
    ensures !WritesAny(KtZh.WmtsMap(), SERVICETYPE)
  {
  }

  lemma WmtsTypePlaced()
    ensures Placed(ZH, WmtsBranch, 2, SERVICETYPE, Of(Just(ServiceKind)))
  {
    WmtsTypeFree();
    WmtsTypeLast();
    WmtsTypeLater();
    WmtsParts();
  }

  lemma WmsZoomFree()
    ensures ExprFree(Int(7))
  {
  }

  lemma WmsZoomLast()
    ensures LastStore(KtZh.WmsPosition(), MAX_ZOOM, Int(7))
  {
  }

  lemma WmsZoomLater()
    ensures !WritesAny(KtZh.WmsMap(), MAX_ZOOM)
  {
  }

  lemma WmsZoomPlaced()
    ensures Placed(ZH, WmsBranch, 2, MAX_ZOOM, Int(7))
  {
    WmsZoomFree();
    WmsZoomLast();
    WmsZoomLater();
    WmsParts();
  }

  lemma WmtsZoomFree()
    ensures ExprFree(Int(7))
  {
  }

  lemma WmtsZoomLast()
    ensures LastStore(KtZh.WmtsPosition(), MAX_ZOOM, Int(7))
  {
  }

  lemma WmtsZoomLater()
    ensures !WritesAny(KtZh.WmtsMap(), MAX_ZOOM)
  {
  }

  lemma WmtsZoomPlaced()
    ensures Placed(ZH, WmtsBranch, 2, MAX_ZOOM, Int(7))
  {
    WmtsZoomFree();
    WmtsZoomLast();
    WmtsZoomLater();
    WmtsParts();
  }

  lemma WfsZoomFree()
    ensures ExprFree(Of(Just(Lit(""))))
  {
  }

  lemma WfsZoomLast()
    ensures LastStore(KtZh.WfsPosition(), MAX_ZOOM, Of(Just(Lit(""))))
  {
  }

  lemma WfsZoomPlaced()
    ensures Placed(ZH, WfsBranch, 2, MAX_ZOOM, Of(Just(Lit(""))))
  {
    WfsZoomFree();
    WfsZoomLast();
    WfsParts();
  }

  lemma WfsNameFree()
    ensures ExprFree(Of(Just(Id)))
  {
  }

  lemma WfsNameLast()
    ensures LastStore(KtZh.WfsIdentity(), NAME, Of(Just(Id)))
  {
  }

  lemma WfsNameLater()
    ensures !WritesAny(KtZh.WfsDescription(), NAME) && !WritesAny(KtZh.WfsPosition(), NAME)
  {
  }

  lemma WfsNamePlaced()
    ensures Placed(ZH, WfsBranch, 0, NAME, Of(Just(Id)))
  {
    WfsNameFree();
    WfsNameLast();
    WfsNameLater();
    WfsParts();
  }

  lemma WmsLinkLate()
    ensures LastLate(KtZh.WmsMap(), MAPGEO, Of(Cat(WmsLink(Title))))
  {
    WmsLinkFree(Title);
    MapLate(WmsLink(Title));
  }

  lemma WmsLinkPlaced()
    ensures LastLate(Part(ZH, WmsBranch, 3), MAPGEO, Of(Cat(WmsLink(Title))))
  {
    WmsLinkLate();
    WmsParts();
  }

  lemma WmtsLinkLate()
    ensures LastLate(KtZh.WmtsMap(), MAPGEO, Of(Cat(KindWmtsLink())))
  {
    KindWmtsLinkFree();
    MapLate(KindWmtsLink());
  }

  lemma WmtsLinkPlaced()
    ensures LastLate(Part(ZH, WmtsBranch, 3), MAPGEO, Of(Cat(KindWmtsLink())))
  {
    WmtsLinkLate();
    WmtsParts();
  }

  // ---------------------------------------------------------------- entries

  /** The WMS abstract joins the layer's and its parent's when the parent has one, else it is the layer's own; control characters become spaces. */
  lemma WmsAbstract(c: Call, m: map<Key, Value>)
    requires Complete(m) && Returns(ZH, c, m) && Dispatch(ZH, c) == Ok(WmsBranch)
    ensures LayerOf(c).Ok?
    ensures Final(ZH, c, m)[ABSTRACT] == Text(ControlsOnly(WithParent(LayerOf(c).value, LayerOf(c).value.abstractText)))
  {
    WmsAbstractPlaced();
    Entry(ZH, c, m, WmsBranch, 0, ABSTRACT, Of(Cleaned(ControlsOnlyCleaner, WithParentAbstract(Just(Abstract)))));
    AbstractWithParentControls(c, m, Final(ZH, c, m)[ABSTRACT]);
  }

  /** The WMTS abstract is the service's abstract and access constraints with control characters made spaces. */
  lemma WmtsAbstract(c: Call, m: map<Key, Value>)
    requires Complete(m) && Returns(ZH, c, m) && Dispatch(ZH, c) == Ok(WmtsBranch)
    ensures var id := c.service.identification;
      id.abstractText.Some? && id.accessConstraints.Some? &&
      Final(ZH, c, m)[ABSTRACT] == Text(ControlsOnly(Some(id.abstractText.value + " " + id.accessConstraints.value)))
  {
    WmtsAbstractPlaced();
    Entry(ZH, c, m, WmtsBranch, 0, ABSTRACT, Of(Cleaned(ControlsOnlyCleaner, ServiceAbstractAndConstraints())));
    ServiceTextCleaned(ControlsOnlyCleaner, c, m, Final(ZH, c, m)[ABSTRACT]);
  }

  /** The WFS abstract is the layer's own with every "\r\n" deleted, and "" when it is None. */
  lemma WfsAbstract(c: Call, m: map<Key, Value>)
    requires Complete(m) && Returns(ZH, c, m) && Dispatch(ZH, c) == Ok(WfsBranch)
    ensures LayerOf(c).Ok?
    ensures var a := LayerOf(c).value.abstractText;
      Final(ZH, c, m)[ABSTRACT] == Text(if a.None? then "" else Replace(a.value, "\r\n", ""))
  {
    WfsAbstractPlaced();
    Entry(ZH, c, m, WfsBranch, 0, ABSTRACT, Of(ReplacedOrBlank(Just(Abstract), Crlf)));
    AbstractOrBlank(Crlf, c, m, Final(ZH, c, m)[ABSTRACT]);
  }

  /** The WMS GROUP is the parent layer's name, or "" for a top layer. */
  lemma WmsGroup(c: Call, m: map<Key, Value>)
    requires Complete(m) && Returns(ZH, c, m) && Dispatch(ZH, c) == Ok(WmsBranch)
    ensures LayerOf(c).Ok? && !LayerOf(c).value.parent.Absent?
    ensures var p := LayerOf(c).value.parent; Final(ZH, c, m)[GROUP] == if p.Val? then Of1(p.v.name) else Text("")
  {
    WmsGroupPlaced();
    LayerEntry(ZH, c, m, WmsBranch, 0, GROUP, ParentNameOrBlank);
    ParentNameRead(LayerOf(c).value, c, Final(ZH, c, m)[GROUP]);
  }

  /** METADATA is the URL of the sole metadata entry, or "". */
  lemma WmsMetadata(c: Call, m: map<Key, Value>)
    requires Complete(m) && Returns(ZH, c, m) && Dispatch(ZH, c) == Ok(WmsBranch)
    ensures LayerOf(c).Ok? && LayerOf(c).value.metadataUrls.Val?
    ensures var us := LayerOf(c).value.metadataUrls.v; var v := Final(ZH, c, m)[METADATA];
      && (|us| != 1 ==> v == Text(""))
      && (|us| == 1 ==> us[0].url.Some? && v == Text(us[0].url.value))
  {
    WmsMetadataPlaced();
    LayerEntry(ZH, c, m, WmsBranch, 1, METADATA, SoleMetadataUrl);
    SoleMetadataRead(LayerOf(c).value, c, Final(ZH, c, m)[METADATA]);
  }

  lemma WfsMetadata(c: Call, m: map<Key, Value>)
    requires Complete(m) && Returns(ZH, c, m) && Dispatch(ZH, c) == Ok(WfsBranch)
    ensures LayerOf(c).Ok? && LayerOf(c).value.metadataUrls.Val?
    ensures var us := LayerOf(c).value.metadataUrls.v; var v := Final(ZH, c, m)[METADATA];
      && (|us| != 1 ==> v == Text(""))
      && (|us| == 1 ==> us[0].url.Some? && v == Text(us[0].url.value))
  {
    WfsMetadataPlaced();
    LayerEntry(ZH, c, m, WfsBranch, 1, METADATA, SoleMetadataUrl);
    SoleMetadataRead(LayerOf(c).value, c, Final(ZH, c, m)[METADATA]);
  }

  /** A WFS layer has no legend. */
  lemma WfsLegend(c: Call, m: map<Key, Value>)
    requires Complete(m) && Returns(ZH, c, m) && Dispatch(ZH, c) == Ok(WfsBranch)
    ensures Final(ZH, c, m)[LEGEND] == Text("")
  {
    WfsLegendPlaced();
    FixedEntry(ZH, c, m, WfsBranch, 1, LEGEND, "");
  }

  /** SERVICETYPE is the service's type. */
  lemma WmtsType(c: Call, m: map<Key, Value>)
    requires Complete(m) && Returns(ZH, c, m) && Dispatch(ZH, c) == Ok(WmtsBranch)
    ensures Final(ZH, c, m)[SERVICETYPE] == Of1(c.service.identification.kind)
  {
    WmtsTypePlaced();
    ReadEntry(ZH, c, m, WmtsBranch, 2, SERVICETYPE, ServiceKind);
    ServiceKindAtom(c, m);
  }

  /** MAX_ZOOM is 7 for WMS and WMTS and "" for WFS. */
  lemma WmsZoom(c: Call, m: map<Key, Value>)
    requires Complete(m) && Returns(ZH, c, m) && Dispatch(ZH, c) == Ok(WmsBranch)
    ensures Final(ZH, c, m)[MAX_ZOOM] == Integer(7)
  {
    WmsZoomPlaced();
    Entry(ZH, c, m, WmsBranch, 2, MAX_ZOOM, Int(7));
  }

  lemma WmtsZoom(c: Call, m: map<Key, Value>)
    requires Complete(m) && Returns(ZH, c, m) && Dispatch(ZH, c) == Ok(WmtsBranch)
    ensures Final(ZH, c, m)[MAX_ZOOM] == Integer(7)
  {
    WmtsZoomPlaced();
    Entry(ZH, c, m, WmtsBranch, 2, MAX_ZOOM, Int(7));
  }

  lemma WfsZoom(c: Call, m: map<Key, Value>)
    requires Complete(m) && Returns(ZH, c, m) && Dispatch(ZH, c) == Ok(WfsBranch)
    ensures Final(ZH, c, m)[MAX_ZOOM] == Text("")
  {
    WfsZoomPlaced();
    FixedEntry(ZH, c, m, WfsBranch, 2, MAX_ZOOM, "");
  }

  /** A WFS layer is named by its id. */
  lemma WfsName(c: Call, m: map<Key, Value>)
    requires Complete(m) && Returns(ZH, c, m) && Dispatch(ZH, c) == Ok(WfsBranch)
    ensures LayerOf(c).Ok? && Final(ZH, c, m)[NAME] == Text(c.layerId)
  {
    WfsNamePlaced();
    ReadEntry(ZH, c, m, WfsBranch, 0, NAME, Id);
    IdAtom(c, m);
    IdText(c, m);
  }

  /** MAPGEO is its link's value on the final record. */
  lemma WmsLinkHolds(c: Call, m: map<Key, Value>)
    requires Complete(m) && Returns(ZH, c, m) && Dispatch(ZH, c) == Ok(WmsBranch)
    ensures Eval(Of(Cat(WmsLink(Title))), c, Final(ZH, c, m)) == Ok(Final(ZH, c, m)[MAPGEO])
  {
    WmsLinkPlaced();
    LateEntry(ZH, c, m, WmsBranch, MAPGEO, Of(Cat(WmsLink(Title))));
  }

  /** The WMS link names the layer by its title and ends with the box's centre at zoom 7. */
  lemma WmsMapgeo(c: Call, m: map<Key, Value>)
    requires Complete(m) && Returns(ZH, c, m) && Dispatch(ZH, c) == Ok(WmsBranch)
    ensures LayerOf(c).Ok? && LayerOf(c).value.title.Some?
    ensures c.service.url.Val? && c.service.identification.version.Some?
    ensures var f := Final(ZH, c, m); f[MAPGEO] == Text(
      (c.prefix + "layers=WMS||" + LayerOf(c).value.title.value + "||" + c.service.url.v + "?||" +
       c.layerId + "||" + c.service.identification.version.value) +
      ("&swisssearch=" + Show(f[CENTER_LAT], c.host) + "%20" + Show(f[CENTER_LON], c.host) + "&zoom=7"))
  {
    WmsLinkHolds(c, m);
    WmsZoom(c, m);
    TitledWmsLinkText(c, Final(ZH, c, m), Final(ZH, c, m)[MAPGEO]);
  }

  /** MAPGEO is its link's value on the final record. */
  lemma WmtsLinkHolds(c: Call, m: map<Key, Value>)
    requires Complete(m) && Returns(ZH, c, m) && Dispatch(ZH, c) == Ok(WmtsBranch)
    ensures Eval(Of(Cat(KindWmtsLink())), c, Final(ZH, c, m)) == Ok(Final(ZH, c, m)[MAPGEO])
  {
    WmtsLinkPlaced();
    LateEntry(ZH, c, m, WmtsBranch, MAPGEO, Of(Cat(KindWmtsLink())));
  }

  /** The WMTS link names the layer by what follows the first space of the service's type, then its id and the service's URL. */
  lemma WmtsMapgeo(c: Call, m: map<Key, Value>)
    requires Complete(m) && Returns(ZH, c, m) && Dispatch(ZH, c) == Ok(WmtsBranch)
    ensures c.service.identification.kind.Some? && LayerOf(c).Ok? && c.service.url.Val?
    ensures var f := Final(ZH, c, m); f[MAPGEO] == Text(
      (c.prefix + "layers=" + AfterFirstSpace(c.service.identification.kind.value) + "||" + c.layerId + "||" + c.service.url.v) +
      ("&swisssearch=" + Show(f[CENTER_LAT], c.host) + "%20" + Show(f[CENTER_LON], c.host) + "&zoom=" + "7"))
  {
    WmtsLinkHolds(c, m);
    WmtsZoom(c, m);
    WmtsType(c, m);
    KindWmtsLinkValue(c, Final(ZH, c, m), Final(ZH, c, m)[MAPGEO]);
    assert Decimal(7) == "7";
  }
}
