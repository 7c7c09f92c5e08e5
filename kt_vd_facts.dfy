// What scraper/KT_VD.py leaves in a record it returns.
module KtVdFacts {
  import opened Python
  import opened Capabilities
  import opened Cleaning
  import opened Record
  import opened Script
  import opened ExprFacts
  import opened Links
  import opened Owners
  import KtVd

  // ---------------------------------------------------------------- dispatch

  /** The branch is chosen on the service's type; testing a type that is None raises. */
  lemma Routes(c: Call)
    ensures Dispatch(VD, c).Err? <==> c.service.identification.kind.None?
    ensures c.service.identification.kind.Some? ==> var t := c.service.identification.kind.value;
      && (Dispatch(VD, c) == Ok(WmsBranch) <==> Contains(t, "WMS"))
      && (Dispatch(VD, c) == Ok(WmtsBranch) <==> !Contains(t, "WMS") && Contains(t, "WMTS"))
      && (Dispatch(VD, c) == Ok(WfsBranch) <==> !Contains(t, "WMS") && !Contains(t, "WMTS") && Contains(t, "WFS"))
  {
  }

  /** A service without a type raises before the record is touched. */
  lemma NoKind(c: Call, m: map<Key, Value>)
    requires Complete(m) && c.service.identification.kind.None?
    ensures Final(VD, c, m) == m && Run(Plan(VD, c), c, m).returned.Raised?
  {
    Refused(VD, c, m);
  }

  // ---------------------------------------------------------------- placements

  /** The four groups of the WFS branch. */
  lemma WfsParts()
    ensures Part(VD, WfsBranch, 0) == KtVd.WfsIdentity() &&
      Part(VD, WfsBranch, 1) == KtVd.WfsDescription() &&
      Part(VD, WfsBranch, 2) == KtVd.WfsPosition() &&
      Part(VD, WfsBranch, 3) == Nil
  {
  }

  /** The four groups of the WMTS branch. */
  lemma WmtsParts()
    ensures Part(VD, WmtsBranch, 0) == KtVd.WmtsIdentity() &&
      Part(VD, WmtsBranch, 1) == KtVd.WmtsDescription() &&
      Part(VD, WmtsBranch, 2) == KtVd.WmtsPosition() &&
      Part(VD, WmtsBranch, 3) == KtVd.WmtsMap()
  {
  }

  /** The four groups of the WMS branch. */
  lemma WmsParts()
    ensures Part(VD, WmsBranch, 0) == KtVd.WmsIdentity() &&
      Part(VD, WmsBranch, 1) == KtVd.WmsDescription() &&
      Part(VD, WmsBranch, 2) == KtVd.WmsPosition() &&
      Part(VD, WmsBranch, 3) == KtVd.WmsMap()
  {
  }

  lemma WmsGroupFree()
    ensures ExprFree(ParentNameOrBlank)
  {
  }

  lemma WmsGroupLast()
    ensures LastStore(KtVd.WmsIdentity(), GROUP, ParentNameOrBlank)
  {
  }

  lemma WmsGroupLater()
    ensures !WritesAny(KtVd.WmsDescription(), GROUP) && !WritesAny(KtVd.WmsPosition(), GROUP) && !WritesAny(KtVd.WmsMap(), GROUP)
  {
  }

  lemma WmsGroupPlaced()
    ensures Placed(VD, WmsBranch, 0, GROUP, ParentNameOrBlank)
  {
    WmsGroupFree();
    WmsGroupLast();
    WmsGroupLater();
    WmsParts();
  }

  lemma WmsAbstractFree()
    ensures ExprFree(Of(IfSome(Abstract, Cleaned(ControlsOnlyCleaner, WithoutUrls(Just(Abstract))), Just(Lit(" ")))))
  {
  }

  lemma WmsAbstractLast()
    ensures LastStore(KtVd.WmsIdentity(), ABSTRACT, Of(IfSome(Abstract, Cleaned(ControlsOnlyCleaner, WithoutUrls(Just(Abstract))), Just(Lit(" ")))))
  {
  }

  lemma WmsAbstractLater()
    ensures !WritesAny(KtVd.WmsDescription(), ABSTRACT) && !WritesAny(KtVd.WmsPosition(), ABSTRACT) && !WritesAny(KtVd.WmsMap(), ABSTRACT)
  {
  }

  lemma WmsAbstractPlaced()
    ensures Placed(VD, WmsBranch, 0, ABSTRACT, Of(IfSome(Abstract, Cleaned(ControlsOnlyCleaner, WithoutUrls(Just(Abstract))), Just(Lit(" ")))))
  {
    WmsAbstractFree();
    WmsAbstractLast();
    WmsAbstractLater();
    WmsParts();
  }

  lemma WmtsAbstractFree()
    ensures ExprFree(Of(Cleaned(ControlsOnlyCleaner, ServiceAbstractAndConstraints())))
  {
  }

  lemma WmtsAbstractLast()
    ensures LastStore(KtVd.WmtsIdentity(), ABSTRACT, Of(Cleaned(ControlsOnlyCleaner, ServiceAbstractAndConstraints())))
  {
  }

  lemma WmtsAbstractLater()
    ensures !WritesAny(KtVd.WmtsDescription(), ABSTRACT) && !WritesAny(KtVd.WmtsPosition(), ABSTRACT) && !WritesAny(KtVd.WmtsMap(), ABSTRACT)
  {
  }

  lemma WmtsAbstractPlaced()
    ensures Placed(VD, WmtsBranch, 0, ABSTRACT, Of(Cleaned(ControlsOnlyCleaner, ServiceAbstractAndConstraints())))
  {
    WmtsAbstractFree();
    WmtsAbstractLast();
    WmtsAbstractLater();
    WmtsParts();
  }

  lemma WfsAbstractFree()
    ensures ExprFree(Of(Cleaned(ControlsOnlyCleaner, Just(Abstract))))
  {
  }

  lemma WfsAbstractLast()
    ensures LastStore(KtVd.WfsIdentity(), ABSTRACT, Of(Cleaned(ControlsOnlyCleaner, Just(Abstract))))
  {
  }

  lemma WfsAbstractLater()
    ensures !WritesAny(KtVd.WfsDescription(), ABSTRACT) && !WritesAny(KtVd.WfsPosition(), ABSTRACT)
  {
  }

  lemma WfsAbstractPlaced()
    ensures Placed(VD, WfsBranch, 0, ABSTRACT, Of(Cleaned(ControlsOnlyCleaner, Just(Abstract))))
  {
    WfsAbstractFree();
    WfsAbstractLast();
    WfsAbstractLater();
    WfsParts();
  }

  lemma WmsMetadataFree()
    ensures ExprFree(Attempt(Of(SoleUrlIn(Just(Abstract))), Of(Just(Lit(" ")))))
  {
  }

  lemma WmsMetadataLast()
    ensures LastStore(KtVd.WmsDescription(), METADATA, Attempt(Of(SoleUrlIn(Just(Abstract))), Of(Just(Lit(" ")))))
  {
  }

  lemma WmsMetadataLater()
    ensures !WritesAny(KtVd.WmsPosition(), METADATA) && !WritesAny(KtVd.WmsMap(), METADATA)
  {
  }

  lemma WmsMetadataPlaced()
    ensures Placed(VD, WmsBranch, 1, METADATA, Attempt(Of(SoleUrlIn(Just(Abstract))), Of(Just(Lit(" ")))))
  {
    WmsMetadataFree();
    WmsMetadataLast();
    WmsMetadataLater();
    WmsParts();
  }

  lemma WfsMetadataFree()
    ensures ExprFree(MetadataUrlIfZero)
  {
  }

  lemma WfsMetadataLast()
    ensures LastStore(KtVd.WfsDescription(), METADATA, MetadataUrlIfZero)
  {
  }

  lemma WfsMetadataLater()
    ensures !WritesAny(KtVd.WfsPosition(), METADATA)
  {
  }

  lemma WfsMetadataPlaced()
    ensures Placed(VD, WfsBranch, 1, METADATA, MetadataUrlIfZero)
  {
    WfsMetadataFree();
    WfsMetadataLast();
    WfsMetadataLater();
    WfsParts();
  }

  lemma WfsLegendFree()
    ensures ExprFree(Of(Just(Lit(""))))
  {
  }

  lemma WfsLegendLast()
    ensures LastStore(KtVd.WfsDescription(), LEGEND, Of(Just(Lit(""))))
  {
  }

  lemma WfsLegendLater()
    ensures !WritesAny(KtVd.WfsPosition(), LEGEND)
  {
  }

  lemma WfsLegendPlaced()
    ensures Placed(VD, WfsBranch, 1, LEGEND, Of(Just(Lit(""))))
  {
    WfsLegendFree();
    WfsLegendLast();
    WfsLegendLater();
    WfsParts();
  }

  lemma WmtsLegendFree()
    ensures ExprFree(LegendIfLegendKey)
  {
  }

  lemma WmtsLegendLast()
    ensures LastStore(KtVd.WmtsDescription(), LEGEND, LegendIfLegendKey)
  {
  }

  lemma WmtsLegendLater()
    ensures !WritesAny(KtVd.WmtsPosition(), LEGEND) && !WritesAny(KtVd.WmtsMap(), LEGEND)
  {
  }

  lemma WmtsLegendPlaced()
    ensures Placed(VD, WmtsBranch, 1, LEGEND, LegendIfLegendKey)
  {
    WmtsLegendFree();
    WmtsLegendLast();
    WmtsLegendLater();
    WmtsParts();
  }

  lemma WmsZoomFree()
    ensures ExprFree(Int(7))
  {
  }

  lemma WmsZoomLast()
    ensures LastStore(KtVd.WmsPosition(), MAX_ZOOM, Int(7))
  {
  }

  lemma WmsZoomLater()
    ensures !WritesAny(KtVd.WmsMap(), MAX_ZOOM)
  {
  }

  lemma WmsZoomPlaced()
    ensures Placed(VD, WmsBranch, 2, MAX_ZOOM, Int(7))
  {
    WmsZoomFree();
    WmsZoomLast();
    WmsZoomLater();
    WmsParts();
  }

  lemma WmtsZoomFree()
    ensures ExprFree(Int(7))
  {
  }

  lemma WmtsZoomLast()
    ensures LastStore(KtVd.WmtsPosition(), MAX_ZOOM, Int(7))
  {
  }

  lemma WmtsZoomLater()
    ensures !WritesAny(KtVd.WmtsMap(), MAX_ZOOM)
  {
  }

  lemma WmtsZoomPlaced()
    ensures Placed(VD, WmtsBranch, 2, MAX_ZOOM, Int(7))
  {
    WmtsZoomFree();
    WmtsZoomLast();
    WmtsZoomLater();
    WmtsParts();
  }

  lemma WfsZoomFree()
    ensures ExprFree(Of(Just(Lit(""))))
  {
  }

  lemma WfsZoomLast()
    ensures LastStore(KtVd.WfsPosition(), MAX_ZOOM, Of(Just(Lit(""))))
  {
  }

  lemma WfsZoomPlaced()
    ensures Placed(VD, WfsBranch, 2, MAX_ZOOM, Of(Just(Lit(""))))
  {
    WfsZoomFree();
    WfsZoomLast();
    WfsParts();
  }

  lemma WfsNameFree()
    ensures ExprFree(Of(Just(Id)))
  {
  }

  lemma WfsNameLast()
    ensures LastStore(KtVd.WfsIdentity(), NAME, Of(Just(Id)))
  {
  }

  lemma WfsNameLater()
    ensures !WritesAny(KtVd.WfsDescription(), NAME) && !WritesAny(KtVd.WfsPosition(), NAME)
  {
  }

  lemma WfsNamePlaced()
    ensures Placed(VD, WfsBranch, 0, NAME, Of(Just(Id)))
  {
    WfsNameFree();
    WfsNameLast();
    WfsNameLater();
    WfsParts();
  }

  lemma WmsLinkLate()
    ensures LastLate(KtVd.WmsMap(), MAPGEO, Of(Cat(WmsLink(Title))))
  {
    WmsLinkFree(Title);
    MapLate(WmsLink(Title));
  }

  lemma WmsLinkPlaced()
    ensures LastLate(Part(VD, WmsBranch, 3), MAPGEO, Of(Cat(WmsLink(Title))))
  {
    WmsLinkLate();
    WmsParts();
  }

  lemma WmtsLinkLate()
    ensures LastLate(KtVd.WmtsMap(), MAPGEO, Of(Cat(WmtsLink(Id))))
  {
    WmtsLinkFree(Id);
    MapLate(WmtsLink(Id));
  }

  lemma WmtsLinkPlaced()
    ensures LastLate(Part(VD, WmtsBranch, 3), MAPGEO, Of(Cat(WmtsLink(Id))))
  {
    WmtsLinkLate();
    WmtsParts();
  }

  lemma WmtsMetadataFree()
    ensures ExprFree(Of(Just(ServiceMetadataUrl)))
  {
  }

  lemma WmtsMetadataLast()
    ensures LastStore(KtVd.WmtsDescription(), METADATA, Of(Just(ServiceMetadataUrl)))
  {
  }

  lemma WmtsMetadataLater()
    ensures !WritesAny(KtVd.WmtsPosition(), METADATA) && !WritesAny(KtVd.WmtsMap(), METADATA)
  {
  }

  lemma WmtsMetadataPlaced()
    ensures Placed(VD, WmtsBranch, 1, METADATA, Of(Just(ServiceMetadataUrl)))
  {
    WmtsMetadataFree();
    WmtsMetadataLast();
    WmtsMetadataLater();
    WmtsParts();
  }

  // ---------------------------------------------------------------- entries

  /** The WMS GROUP is the parent layer's name, or "" for a top layer. */
  lemma WmsGroup(c: Call, m: map<Key, Value>)
    requires Complete(m) && Returns(VD, c, m) && Dispatch(VD, c) == Ok(WmsBranch)
    ensures LayerOf(c).Ok? && !LayerOf(c).value.parent.Absent?
    ensures var p := LayerOf(c).value.parent; Final(VD, c, m)[GROUP] == if p.Val? then Of1(p.v.name) else Text("")
  {
    WmsGroupPlaced();
    LayerEntry(VD, c, m, WmsBranch, 0, GROUP, ParentNameOrBlank);
    ParentNameRead(LayerOf(c).value, c, Final(VD, c, m)[GROUP]);
  }

  /** The WMS abstract is " " for a layer without one, else the layer's abstract without its URLs and with control characters made spaces. */
  lemma WmsAbstract(c: Call, m: map<Key, Value>)
    requires Complete(m) && Returns(VD, c, m) && Dispatch(VD, c) == Ok(WmsBranch)
    ensures LayerOf(c).Ok?
    ensures var a := LayerOf(c).value.abstractText;
      Final(VD, c, m)[ABSTRACT] == Text(if a.None? then " " else ControlsOnly(Some(c.host.stripUrls(a.value))))
  {
    WmsAbstractPlaced();
    Entry(VD, c, m, WmsBranch, 0, ABSTRACT, Of(IfSome(Abstract, Cleaned(ControlsOnlyCleaner, WithoutUrls(Just(Abstract))), Just(Lit(" ")))));
    StrippedAbstractValue(c, m, Final(VD, c, m)[ABSTRACT]);
  }

  /** The WMTS abstract is the service's abstract and access constraints with control characters made spaces; the WFS one is the layer's own, cleaned alike. */
  lemma WmtsAbstract(c: Call, m: map<Key, Value>)
    requires Complete(m) && Returns(VD, c, m) && Dispatch(VD, c) == Ok(WmtsBranch)
    ensures var id := c.service.identification;
      id.abstractText.Some? && id.accessConstraints.Some? &&
      Final(VD, c, m)[ABSTRACT] == Text(ControlsOnly(Some(id.abstractText.value + " " + id.accessConstraints.value)))
  {
    WmtsAbstractPlaced();
    Entry(VD, c, m, WmtsBranch, 0, ABSTRACT, Of(Cleaned(ControlsOnlyCleaner, ServiceAbstractAndConstraints())));
    ServiceTextCleaned(ControlsOnlyCleaner, c, m, Final(VD, c, m)[ABSTRACT]);
  }

  lemma WfsAbstract(c: Call, m: map<Key, Value>)
    requires Complete(m) && Returns(VD, c, m) && Dispatch(VD, c) == Ok(WfsBranch)
    ensures LayerOf(c).Ok? && Final(VD, c, m)[ABSTRACT] == Text(ControlsOnly(LayerOf(c).value.abstractText))
  {
    WfsAbstractPlaced();
    Entry(VD, c, m, WfsBranch, 0, ABSTRACT, Of(Cleaned(ControlsOnlyCleaner, Just(Abstract))));
    AbstractCleaned(ControlsOnlyCleaner, c, m, Final(VD, c, m)[ABSTRACT]);
  }

  /** The WMS METADATA is the only URL in the layer's abstract, and " " when looking for it raises. */
  lemma WmsMetadata(c: Call, m: map<Key, Value>)
    requires Complete(m) && Returns(VD, c, m) && Dispatch(VD, c) == Ok(WmsBranch)
    ensures LayerOf(c).Ok? && LayerOf(c).value.abstractText.Some? ==>
      Final(VD, c, m)[METADATA] == Text(SoleUrl(c.host, LayerOf(c).value.abstractText.value))
    ensures !(LayerOf(c).Ok? && LayerOf(c).value.abstractText.Some?) ==> Final(VD, c, m)[METADATA] == Text(" ")
  {
    WmsMetadataPlaced();
    Entry(VD, c, m, WmsBranch, 1, METADATA, Attempt(Of(SoleUrlIn(Just(Abstract))), Of(Just(Lit(" ")))));
    SoleUrlOrSpace(c, m, Final(VD, c, m)[METADATA]);
  }

  /** The WFS metadata test `0 in metadataUrls` never holds, so METADATA is "". */
  lemma WfsMetadata(c: Call, m: map<Key, Value>)
    requires Complete(m) && Returns(VD, c, m) && Dispatch(VD, c) == Ok(WfsBranch)
    ensures LayerOf(c).Ok? && LayerOf(c).value.metadataUrls.Val?
    ensures Final(VD, c, m)[METADATA] == Text("")
  {
    WfsMetadataPlaced();
    LayerEntry(VD, c, m, WfsBranch, 1, METADATA, MetadataUrlIfZero);
    MetadataUrlIfZeroRead(LayerOf(c).value, c, Final(VD, c, m)[METADATA]);
  }

  /** A WFS layer has no legend. */
  lemma WfsLegend(c: Call, m: map<Key, Value>)
    requires Complete(m) && Returns(VD, c, m) && Dispatch(VD, c) == Ok(WfsBranch)
    ensures Final(VD, c, m)[LEGEND] == Text("")
  {
    WfsLegendPlaced();
    FixedEntry(VD, c, m, WfsBranch, 1, LEGEND, "");
  }

  /** The WMTS legend tests for a style named "legend" but reads the style named "default". */
  lemma WmtsLegend(c: Call, m: map<Key, Value>)
    requires Complete(m) && Returns(VD, c, m) && Dispatch(VD, c) == Ok(WmtsBranch)
    ensures LayerOf(c).Ok? && LayerOf(c).value.styles.Val?
    ensures var ss := LayerOf(c).value.styles.v; var v := Final(VD, c, m)[LEGEND];
      && (StyleNamed(ss, "legend").None? ==> v == Text(""))
      && (StyleNamed(ss, "legend").Some? ==>
            StyleNamed(ss, "default").Some? && StyleNamed(ss, "default").value.legend.Some? &&
            v == Text(StyleNamed(ss, "default").value.legend.value))
  {
    WmtsLegendPlaced();
    LayerEntry(VD, c, m, WmtsBranch, 1, LEGEND, LegendIfLegendKey);
    LegendIfLegendKeyRead(LayerOf(c).value, c, Final(VD, c, m)[LEGEND]);
  }

  /** MAX_ZOOM is 7 for WMS and WMTS and "" for WFS. */
  lemma WmsZoom(c: Call, m: map<Key, Value>)
    requires Complete(m) && Returns(VD, c, m) && Dispatch(VD, c) == Ok(WmsBranch)
    ensures Final(VD, c, m)[MAX_ZOOM] == Integer(7)
  {
    WmsZoomPlaced();
    Entry(VD, c, m, WmsBranch, 2, MAX_ZOOM, Int(7));
  }

  lemma WmtsZoom(c: Call, m: map<Key, Value>)
    requires Complete(m) && Returns(VD, c, m) && Dispatch(VD, c) == Ok(WmtsBranch)
    ensures Final(VD, c, m)[MAX_ZOOM] == Integer(7)
  {
    WmtsZoomPlaced();
    Entry(VD, c, m, WmtsBranch, 2, MAX_ZOOM, Int(7));
  }

  lemma WfsZoom(c: Call, m: map<Key, Value>)
    requires Complete(m) && Returns(VD, c, m) && Dispatch(VD, c) == Ok(WfsBranch)
    ensures Final(VD, c, m)[MAX_ZOOM] == Text("")
  {
    WfsZoomPlaced();
    FixedEntry(VD, c, m, WfsBranch, 2, MAX_ZOOM, "");
  }

  /** A WFS layer is named by its id. */
  lemma WfsName(c: Call, m: map<Key, Value>)
    requires Complete(m) && Returns(VD, c, m) && Dispatch(VD, c) == Ok(WfsBranch)
    ensures LayerOf(c).Ok? && Final(VD, c, m)[NAME] == Text(c.layerId)
  {
    WfsNamePlaced();
    ReadEntry(VD, c, m, WfsBranch, 0, NAME, Id);
    IdAtom(c, m);
    IdText(c, m);
  }

  /** MAPGEO is its link's value on the final record. */
  lemma WmsLinkHolds(c: Call, m: map<Key, Value>)
    requires Complete(m) && Returns(VD, c, m) && Dispatch(VD, c) == Ok(WmsBranch)
    ensures Eval(Of(Cat(WmsLink(Title))), c, Final(VD, c, m)) == Ok(Final(VD, c, m)[MAPGEO])
  {
    WmsLinkPlaced();
    LateEntry(VD, c, m, WmsBranch, MAPGEO, Of(Cat(WmsLink(Title))));
  }

  /** The WMS link names the layer by its title and ends with the box's centre at zoom 7. */
  lemma WmsMapgeo(c: Call, m: map<Key, Value>)
    requires Complete(m) && Returns(VD, c, m) && Dispatch(VD, c) == Ok(WmsBranch)
    ensures LayerOf(c).Ok? && LayerOf(c).value.title.Some?
    ensures c.service.url.Val? && c.service.identification.version.Some?
    ensures var f := Final(VD, c, m); f[MAPGEO] == Text(
      (c.prefix + "layers=WMS||" + LayerOf(c).value.title.value + "||" + c.service.url.v + "?||" +
       c.layerId + "||" + c.service.identification.version.value) +
      ("&swisssearch=" + Show(f[CENTER_LAT], c.host) + "%20" + Show(f[CENTER_LON], c.host) + "&zoom=7"))
  {
    WmsLinkHolds(c, m);
    WmsZoom(c, m);
    TitledWmsLinkText(c, Final(VD, c, m), Final(VD, c, m)[MAPGEO]);
  }

  /** MAPGEO is its link's value on the final record. */
  lemma WmtsLinkHolds(c: Call, m: map<Key, Value>)
    requires Complete(m) && Returns(VD, c, m) && Dispatch(VD, c) == Ok(WmtsBranch)
    ensures Eval(Of(Cat(WmtsLink(Id))), c, Final(VD, c, m)) == Ok(Final(VD, c, m)[MAPGEO])
  {
    WmtsLinkPlaced();
    LateEntry(VD, c, m, WmtsBranch, MAPGEO, Of(Cat(WmtsLink(Id))));
  }

  /** The WMTS link names the layer by its id. */
  lemma WmtsMapgeo(c: Call, m: map<Key, Value>)
    requires Complete(m) && Returns(VD, c, m) && Dispatch(VD, c) == Ok(WmtsBranch)
    ensures LayerOf(c).Ok? && c.service.url.Val?
    ensures var f := Final(VD, c, m); f[MAPGEO] == Text(
      (c.prefix + "layers=WMTS||" + c.layerId + "||" + c.service.url.v) +
      ("&swisssearch=" + Show(f[CENTER_LAT], c.host) + "%20" + Show(f[CENTER_LON], c.host) + "&zoom=7"))
  {
    WmtsLinkHolds(c, m);
    WmtsZoom(c, m);
    IdWmtsLinkText(c, Final(VD, c, m), Final(VD, c, m)[MAPGEO]);
  }

  /** The WMTS METADATA is the service's serviceMetadataURL. */
  lemma WmtsMetadata(c: Call, m: map<Key, Value>)
    requires Complete(m) && Returns(VD, c, m) && Dispatch(VD, c) == Ok(WmtsBranch)
    ensures var u := c.service.metadataUrl;
      !u.Absent? && Final(VD, c, m)[METADATA] == (if u.Val? then Text(u.v) else Nothing)
  {
    WmtsMetadataPlaced();
    ReadEntry(VD, c, m, WmtsBranch, 1, METADATA, ServiceMetadataUrl);
    ServiceMetadataUrlAtom(c, m);
  }
}
