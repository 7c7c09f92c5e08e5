// What scraper/KT_ZG.py leaves in a record it returns.
module KtZgFacts {
  import opened Python
  import opened Capabilities
  import opened Cleaning
  import opened Record
  import opened Script
  import opened ExprFacts
  import opened Links
  import opened Owners
  import KtZg

  // ---------------------------------------------------------------- dispatch

  /** The branch is chosen on source['URL']: "WMS", "WMTS", "WFS", then "STAC". */
  lemma Routes(c: Call)
    ensures Dispatch(ZG, c) == Ok(WmsBranch) <==> Contains(c.source.url, "WMS")
    ensures Dispatch(ZG, c) == Ok(WmtsBranch) <==> !Contains(c.source.url, "WMS") && Contains(c.source.url, "WMTS")
    ensures Dispatch(ZG, c) == Ok(WfsBranch) <==>
      !Contains(c.source.url, "WMS") && !Contains(c.source.url, "WMTS") && Contains(c.source.url, "WFS")
    ensures Dispatch(ZG, c) == Ok(StacBranch) <==>
      !Contains(c.source.url, "WMS") && !Contains(c.source.url, "WMTS") && !Contains(c.source.url, "WFS") && Contains(c.source.url, "STAC")
    ensures Dispatch(ZG, c).Ok?
  {
  }

  // ---------------------------------------------------------------- placements

  /** The four groups of the WMTS branch. */
  lemma WmtsParts()
    ensures Part(ZG, WmtsBranch, 0) == KtZg.WmtsIdentity() &&
      Part(ZG, WmtsBranch, 1) == KtZg.WmtsDescription() &&
      Part(ZG, WmtsBranch, 2) == KtZg.WmtsPosition() &&
      Part(ZG, WmtsBranch, 3) == KtZg.WmtsMap()
  {
  }

  /** The four groups of the WFS branch. */
  lemma WfsParts()
    ensures Part(ZG, WfsBranch, 0) == KtZg.WfsIdentity() &&
      Part(ZG, WfsBranch, 1) == KtZg.WfsDescription() &&
      Part(ZG, WfsBranch, 2) == KtZg.WfsPosition() &&
      Part(ZG, WfsBranch, 3) == Nil
  {
  }

  /** The four groups of the WMS branch. */
  lemma WmsParts()
    ensures Part(ZG, WmsBranch, 0) == KtZg.WmsIdentity() &&
      Part(ZG, WmsBranch, 1) == KtZg.WmsDescription() &&
      Part(ZG, WmsBranch, 2) == KtZg.WmsPosition() &&
      Part(ZG, WmsBranch, 3) == KtZg.WmsMap()
  {
  }

  lemma WmsAbstractFree()
    ensures ExprFree(Of(Cleaned(ControlsOnlyCleaner, WithParentAbstract(Just(ServiceAbstract)))))
  {
  }

  lemma WmsAbstractLast()
    ensures LastStore(KtZg.WmsIdentity(), ABSTRACT, Of(Cleaned(ControlsOnlyCleaner, WithParentAbstract(Just(ServiceAbstract)))))
  {
  }

  lemma WmsAbstractLater()
    ensures !WritesAny(KtZg.WmsDescription(), ABSTRACT) && !WritesAny(KtZg.WmsPosition(), ABSTRACT) && !WritesAny(KtZg.WmsMap(), ABSTRACT)
  {
  }

  lemma WmsAbstractPlaced()
    ensures Placed(ZG, WmsBranch, 0, ABSTRACT, Of(Cleaned(ControlsOnlyCleaner, WithParentAbstract(Just(ServiceAbstract)))))
  {
    WmsAbstractFree();
    WmsAbstractLast();
    WmsAbstractLater();
    WmsParts();
  }

  lemma WfsAbstractFree()
    ensures ExprFree(Of(ReplacedOrBlank(WithParentAbstract(Just(ServiceAbstract)), Newline)))
  {
  }

  lemma WfsAbstractLast()
    ensures LastStore(KtZg.WfsIdentity(), ABSTRACT, Of(ReplacedOrBlank(WithParentAbstract(Just(ServiceAbstract)), Newline)))
  {
  }

  lemma WfsAbstractLater()
    ensures !WritesAny(KtZg.WfsDescription(), ABSTRACT) && !WritesAny(KtZg.WfsPosition(), ABSTRACT)
  {
  }

  lemma WfsAbstractPlaced()
    ensures Placed(ZG, WfsBranch, 0, ABSTRACT, Of(ReplacedOrBlank(WithParentAbstract(Just(ServiceAbstract)), Newline)))
  {
    WfsAbstractFree();
    WfsAbstractLast();
    WfsAbstractLater();
    WfsParts();
  }

  lemma WmtsAbstractFree()
    ensures ExprFree(Of(Cleaned(ControlsOnlyCleaner, ServiceAbstractAndConstraints())))
  {
  }

  lemma WmtsAbstractLast()
    ensures LastStore(KtZg.WmtsIdentity(), ABSTRACT, Of(Cleaned(ControlsOnlyCleaner, ServiceAbstractAndConstraints())))
  {
  }

  lemma WmtsAbstractLater()
    ensures !WritesAny(KtZg.WmtsDescription(), ABSTRACT) && !WritesAny(KtZg.WmtsPosition(), ABSTRACT) && !WritesAny(KtZg.WmtsMap(), ABSTRACT)
  {
  }

  lemma WmtsAbstractPlaced()
    ensures Placed(ZG, WmtsBranch, 0, ABSTRACT, Of(Cleaned(ControlsOnlyCleaner, ServiceAbstractAndConstraints())))
  {
    WmtsAbstractFree();
    WmtsAbstractLast();
    WmtsAbstractLater();
    WmtsParts();
  }

  lemma WmsGroupFree()
    ensures ExprFree(ParentNameOrBlank)
  {
  }

  lemma WmsGroupLast()
    ensures LastStore(KtZg.WmsIdentity(), GROUP, ParentNameOrBlank)
  {
  }

  lemma WmsGroupLater()
    ensures !WritesAny(KtZg.WmsDescription(), GROUP) && !WritesAny(KtZg.WmsPosition(), GROUP) && !WritesAny(KtZg.WmsMap(), GROUP)
  {
  }

  lemma WmsGroupPlaced()
    ensures Placed(ZG, WmsBranch, 0, GROUP, ParentNameOrBlank)
  {
    WmsGroupFree();
    WmsGroupLast();
    WmsGroupLater();
    WmsParts();
  }

  lemma WmsMetadataFree()
    ensures ExprFree(MetadataUrlIfZero)
  {
  }

  lemma WmsMetadataLast()
    ensures LastStore(KtZg.WmsDescription(), METADATA, MetadataUrlIfZero)
  {
  }

  lemma WmsMetadataLater()
    ensures !WritesAny(KtZg.WmsPosition(), METADATA) && !WritesAny(KtZg.WmsMap(), METADATA)
  {
  }

  lemma WmsMetadataPlaced()
    ensures Placed(ZG, WmsBranch, 1, METADATA, MetadataUrlIfZero)
  {
    WmsMetadataFree();
    WmsMetadataLast();
    WmsMetadataLater();
    WmsParts();
  }

  lemma WfsLegendFree()
    ensures ExprFree(Of(Just(Lit(""))))
  {
  }

  lemma WfsLegendLast()
    ensures LastStore(KtZg.WfsDescription(), LEGEND, Of(Just(Lit(""))))
  {
  }

  lemma WfsLegendLater()
    ensures !WritesAny(KtZg.WfsPosition(), LEGEND)
  {
  }

  lemma WfsLegendPlaced()
    ensures Placed(ZG, WfsBranch, 1, LEGEND, Of(Just(Lit(""))))
  {
    WfsLegendFree();
    WfsLegendLast();
    WfsLegendLater();
    WfsParts();
  }

  lemma WmsZoomFree()
    ensures ExprFree(Int(7))
  {
  }

  lemma WmsZoomLast()
    ensures LastStore(KtZg.WmsPosition(), MAX_ZOOM, Int(7))
  {
  }

  lemma WmsZoomLater()
    ensures !WritesAny(KtZg.WmsMap(), MAX_ZOOM)
  {
  }

  lemma WmsZoomPlaced()
    ensures Placed(ZG, WmsBranch, 2, MAX_ZOOM, Int(7))
  {
    WmsZoomFree();
    WmsZoomLast();
    WmsZoomLater();
    WmsParts();
  }

  lemma WmtsZoomFree()
    ensures ExprFree(Int(7))
  {
  }

  lemma WmtsZoomLast()
    ensures LastStore(KtZg.WmtsPosition(), MAX_ZOOM, Int(7))
  {
  }

  lemma WmtsZoomLater()
    ensures !WritesAny(KtZg.WmtsMap(), MAX_ZOOM)
  {
  }

  lemma WmtsZoomPlaced()
    ensures Placed(ZG, WmtsBranch, 2, MAX_ZOOM, Int(7))
  {
    WmtsZoomFree();
    WmtsZoomLast();
    WmtsZoomLater();
    WmtsParts();
  }

  lemma WfsZoomFree()
    ensures ExprFree(Of(Just(Lit(""))))
  {
  }

  lemma WfsZoomLast()
    ensures LastStore(KtZg.WfsPosition(), MAX_ZOOM, Of(Just(Lit(""))))
  {
  }

  lemma WfsZoomPlaced()
    ensures Placed(ZG, WfsBranch, 2, MAX_ZOOM, Of(Just(Lit(""))))
  {
    WfsZoomFree();
    WfsZoomLast();
    WfsParts();
  }

  lemma WfsNameFree()
    ensures ExprFree(Of(Just(Id)))
  {
  }

  lemma WfsNameLast()
    ensures LastStore(KtZg.WfsIdentity(), NAME, Of(Just(Id)))
  {
  }

  lemma WfsNameLater()
    ensures !WritesAny(KtZg.WfsDescription(), NAME) && !WritesAny(KtZg.WfsPosition(), NAME)
  {
  }

  lemma WfsNamePlaced()
    ensures Placed(ZG, WfsBranch, 0, NAME, Of(Just(Id)))
  {
    WfsNameFree();
    WfsNameLast();
    WfsNameLater();
    WfsParts();
  }

  lemma WmsLinkLate()
    ensures LastLate(KtZg.WmsMap(), MAPGEO, Of(Cat(WmsLink(Title))))
  {
    WmsLinkFree(Title);
    MapLate(WmsLink(Title));
  }

  lemma WmsLinkPlaced()
    ensures LastLate(Part(ZG, WmsBranch, 3), MAPGEO, Of(Cat(WmsLink(Title))))
  {
    WmsLinkLate();
    WmsParts();
  }

  lemma WmtsLinkLate()
    ensures LastLate(KtZg.WmtsMap(), MAPGEO, Of(Cat(WmtsLink(Id))))
  {
    WmtsLinkFree(Id);
    MapLate(WmtsLink(Id));
  }

  lemma WmtsLinkPlaced()
    ensures LastLate(Part(ZG, WmtsBranch, 3), MAPGEO, Of(Cat(WmtsLink(Id))))
  {
    WmtsLinkLate();
    WmtsParts();
  }

  lemma WfsMetadataFree()
    ensures ExprFree(MetadataUrlIfZero)
  {
  }

  lemma WfsMetadataLast()
    ensures LastStore(KtZg.WfsDescription(), METADATA, MetadataUrlIfZero)
  {
  }

  lemma WfsMetadataLater()
    ensures !WritesAny(KtZg.WfsPosition(), METADATA)
  {
  }

  lemma WfsMetadataPlaced()
    ensures Placed(ZG, WfsBranch, 1, METADATA, MetadataUrlIfZero)
  {
    WfsMetadataFree();
    WfsMetadataLast();
    WfsMetadataLater();
    WfsParts();
  }

  // ---------------------------------------------------------------- entries

  /** The WMS abstract joins the layer's and its parent's when the parent has one, else it is the service's abstract; control characters become spaces. */
  lemma WmsAbstract(c: Call, m: map<Key, Value>)
    requires Complete(m) && Returns(ZG, c, m) && Dispatch(ZG, c) == Ok(WmsBranch)
    ensures LayerOf(c).Ok?
    ensures Final(ZG, c, m)[ABSTRACT] == Text(ControlsOnly(WithParent(LayerOf(c).value, c.service.identification.abstractText)))
  {
    WmsAbstractPlaced();
    Entry(ZG, c, m, WmsBranch, 0, ABSTRACT, Of(Cleaned(ControlsOnlyCleaner, WithParentAbstract(Just(ServiceAbstract)))));
    ServiceWithParentControls(c, m, Final(ZG, c, m)[ABSTRACT]);
  }

  /** The WFS abstract is the same choice with every "\n" deleted, and "" when it is None. */
  lemma WfsAbstract(c: Call, m: map<Key, Value>)
    requires Complete(m) && Returns(ZG, c, m) && Dispatch(ZG, c) == Ok(WfsBranch)
    ensures LayerOf(c).Ok?
    ensures var t := WithParent(LayerOf(c).value, c.service.identification.abstractText);
      Final(ZG, c, m)[ABSTRACT] == Text(if t.None? then "" else Replace(t.value, "\n", ""))
  {
    WfsAbstractPlaced();
    Entry(ZG, c, m, WfsBranch, 0, ABSTRACT, Of(ReplacedOrBlank(WithParentAbstract(Just(ServiceAbstract)), Newline)));
    ServiceWithParentOrBlank(c, m, Final(ZG, c, m)[ABSTRACT]);
  }

  /** The WMTS abstract is the service's abstract and access constraints with control characters made spaces. */
  lemma WmtsAbstract(c: Call, m: map<Key, Value>)
    requires Complete(m) && Returns(ZG, c, m) && Dispatch(ZG, c) == Ok(WmtsBranch)
    ensures var id := c.service.identification;
      id.abstractText.Some? && id.accessConstraints.Some? &&
      Final(ZG, c, m)[ABSTRACT] == Text(ControlsOnly(Some(id.abstractText.value + " " + id.accessConstraints.value)))
  {
    WmtsAbstractPlaced();
    Entry(ZG, c, m, WmtsBranch, 0, ABSTRACT, Of(Cleaned(ControlsOnlyCleaner, ServiceAbstractAndConstraints())));
    ServiceTextCleaned(ControlsOnlyCleaner, c, m, Final(ZG, c, m)[ABSTRACT]);
  }

  /** The WMS GROUP is the parent layer's name, or "" for a top layer. */
  lemma WmsGroup(c: Call, m: map<Key, Value>)
    requires Complete(m) && Returns(ZG, c, m) && Dispatch(ZG, c) == Ok(WmsBranch)
    ensures LayerOf(c).Ok? && !LayerOf(c).value.parent.Absent?
    ensures var p := LayerOf(c).value.parent; Final(ZG, c, m)[GROUP] == if p.Val? then Of1(p.v.name) else Text("")
  {
    WmsGroupPlaced();
    LayerEntry(ZG, c, m, WmsBranch, 0, GROUP, ParentNameOrBlank);
    ParentNameRead(LayerOf(c).value, c, Final(ZG, c, m)[GROUP]);
  }

  /** The metadata test `0 in metadataUrls` never holds, so METADATA is "". */
  lemma WmsMetadata(c: Call, m: map<Key, Value>)
    requires Complete(m) && Returns(ZG, c, m) && Dispatch(ZG, c) == Ok(WmsBranch)
    ensures LayerOf(c).Ok? && LayerOf(c).value.metadataUrls.Val?
    ensures Final(ZG, c, m)[METADATA] == Text("")
  {
    WmsMetadataPlaced();
    LayerEntry(ZG, c, m, WmsBranch, 1, METADATA, MetadataUrlIfZero);
    MetadataUrlIfZeroRead(LayerOf(c).value, c, Final(ZG, c, m)[METADATA]);
  }

  /** A WFS layer has no legend. */
  lemma WfsLegend(c: Call, m: map<Key, Value>)
    requires Complete(m) && Returns(ZG, c, m) && Dispatch(ZG, c) == Ok(WfsBranch)
    ensures Final(ZG, c, m)[LEGEND] == Text("")
  {
    WfsLegendPlaced();
    FixedEntry(ZG, c, m, WfsBranch, 1, LEGEND, "");
  }

  /** MAX_ZOOM is 7 for WMS and WMTS and "" for WFS. */
  lemma WmsZoom(c: Call, m: map<Key, Value>)
    requires Complete(m) && Returns(ZG, c, m) && Dispatch(ZG, c) == Ok(WmsBranch)
    ensures Final(ZG, c, m)[MAX_ZOOM] == Integer(7)
  {
    WmsZoomPlaced();
    Entry(ZG, c, m, WmsBranch, 2, MAX_ZOOM, Int(7));
  }

  lemma WmtsZoom(c: Call, m: map<Key, Value>)
    requires Complete(m) && Returns(ZG, c, m) && Dispatch(ZG, c) == Ok(WmtsBranch)
    ensures Final(ZG, c, m)[MAX_ZOOM] == Integer(7)
  {
    WmtsZoomPlaced();
    Entry(ZG, c, m, WmtsBranch, 2, MAX_ZOOM, Int(7));
  }

  lemma WfsZoom(c: Call, m: map<Key, Value>)
    requires Complete(m) && Returns(ZG, c, m) && Dispatch(ZG, c) == Ok(WfsBranch)
    ensures Final(ZG, c, m)[MAX_ZOOM] == Text("")
  {
    WfsZoomPlaced();
    FixedEntry(ZG, c, m, WfsBranch, 2, MAX_ZOOM, "");
  }

  /** A WFS layer is named by its id. */
  lemma WfsName(c: Call, m: map<Key, Value>)
    requires Complete(m) && Returns(ZG, c, m) && Dispatch(ZG, c) == Ok(WfsBranch)
    ensures LayerOf(c).Ok? && Final(ZG, c, m)[NAME] == Text(c.layerId)
  {
    WfsNamePlaced();
    ReadEntry(ZG, c, m, WfsBranch, 0, NAME, Id);
    IdAtom(c, m);
    IdText(c, m);
  }

  /** MAPGEO is its link's value on the final record. */
  lemma WmsLinkHolds(c: Call, m: map<Key, Value>)
    requires Complete(m) && Returns(ZG, c, m) && Dispatch(ZG, c) == Ok(WmsBranch)
    ensures Eval(Of(Cat(WmsLink(Title))), c, Final(ZG, c, m)) == Ok(Final(ZG, c, m)[MAPGEO])
  {
    WmsLinkPlaced();
    LateEntry(ZG, c, m, WmsBranch, MAPGEO, Of(Cat(WmsLink(Title))));
  }

  /** The WMS link names the layer by its title and ends with the box's centre at zoom 7. */
  lemma WmsMapgeo(c: Call, m: map<Key, Value>)
    requires Complete(m) && Returns(ZG, c, m) && Dispatch(ZG, c) == Ok(WmsBranch)
    ensures LayerOf(c).Ok? && LayerOf(c).value.title.Some?
    ensures c.service.url.Val? && c.service.identification.version.Some?
    ensures var f := Final(ZG, c, m); f[MAPGEO] == Text(
      (c.prefix + "layers=WMS||" + LayerOf(c).value.title.value + "||" + c.service.url.v + "?||" +
       c.layerId + "||" + c.service.identification.version.value) +
      ("&swisssearch=" + Show(f[CENTER_LAT], c.host) + "%20" + Show(f[CENTER_LON], c.host) + "&zoom=7"))
  {
    WmsLinkHolds(c, m);
    WmsZoom(c, m);
    TitledWmsLinkText(c, Final(ZG, c, m), Final(ZG, c, m)[MAPGEO]);
  }

  /** MAPGEO is its link's value on the final record. */
  lemma WmtsLinkHolds(c: Call, m: map<Key, Value>)
    requires Complete(m) && Returns(ZG, c, m) && Dispatch(ZG, c) == Ok(WmtsBranch)
    ensures Eval(Of(Cat(WmtsLink(Id))), c, Final(ZG, c, m)) == Ok(Final(ZG, c, m)[MAPGEO])
  {
    WmtsLinkPlaced();
    LateEntry(ZG, c, m, WmtsBranch, MAPGEO, Of(Cat(WmtsLink(Id))));
  }

  /** The WMTS link names the layer by its id. */
  lemma WmtsMapgeo(c: Call, m: map<Key, Value>)
    requires Complete(m) && Returns(ZG, c, m) && Dispatch(ZG, c) == Ok(WmtsBranch)
    ensures LayerOf(c).Ok? && c.service.url.Val?
    ensures var f := Final(ZG, c, m); f[MAPGEO] == Text(
      (c.prefix + "layers=WMTS||" + c.layerId + "||" + c.service.url.v) +
      ("&swisssearch=" + Show(f[CENTER_LAT], c.host) + "%20" + Show(f[CENTER_LON], c.host) + "&zoom=7"))
  {
    WmtsLinkHolds(c, m);
    WmtsZoom(c, m);
    IdWmtsLinkText(c, Final(ZG, c, m), Final(ZG, c, m)[MAPGEO]);
  }

  lemma WfsMetadata(c: Call, m: map<Key, Value>)
    requires Complete(m) && Returns(ZG, c, m) && Dispatch(ZG, c) == Ok(WfsBranch)
    ensures LayerOf(c).Ok? && LayerOf(c).value.metadataUrls.Val?
    ensures Final(ZG, c, m)[METADATA] == Text("")
  {
    WfsMetadataPlaced();
    LayerEntry(ZG, c, m, WfsBranch, 1, METADATA, MetadataUrlIfZero);
    MetadataUrlIfZeroRead(LayerOf(c).value, c, Final(ZG, c, m)[METADATA]);
  }
}
