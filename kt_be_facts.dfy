// What scraper/KT_BE.py leaves in a record it returns.
module KtBeFacts {
  import opened Python
  import opened Capabilities
  import opened Cleaning
  import opened Record
  import opened Script
  import opened ExprFacts
  import opened Links
  import opened Owners
  import KtBe

  // ---------------------------------------------------------------- dispatch

  /** The branch is chosen on the service's type, compared with "WMS", "WMTS" and
      "STAC" for equality. */
  lemma Routes(c: Call)
    ensures Dispatch(BE, c) == Ok(WmsBranch) <==> c.service.identification.kind == Some("WMS")
    ensures Dispatch(BE, c) == Ok(WmtsBranch) <==> c.service.identification.kind == Some("WMTS")
    ensures Dispatch(BE, c) == Ok(StacBranch) <==> c.service.identification.kind == Some("STAC")
    ensures Dispatch(BE, c).Ok?
  {
  }

  /** Only a WMS service gives a record: a WMTS or STAC service gives None and any
      other False, and neither touches the record. */
  lemma OnlyWms(c: Call, m: map<Key, Value>)
    requires Complete(m) && c.service.identification.kind != Some("WMS")
    ensures Final(BE, c, m) == m
    ensures var k := c.service.identification.kind;
      Run(Plan(BE, c), c, m).returned == if k == Some("WMTS") || k == Some("STAC") then NoneValue else FalseValue
  {
    var b := Dispatch(BE, c).value;
    assert Idle(BE, b);
    Silent(BE, c, m, b);
  }

  // ---------------------------------------------------------------- placements

  /** The four groups of the WMS branch. */
  lemma WmsParts()
    ensures Part(BE, WmsBranch, 0) == KtBe.WmsIdentity() &&
      Part(BE, WmsBranch, 1) == KtBe.WmsDescription() &&
      Part(BE, WmsBranch, 2) == KtBe.WmsPosition() &&
      Part(BE, WmsBranch, 3) == KtBe.WmsMap()
  {
  }

  lemma WmsGroupFree()
    ensures ExprFree(GroupOrBlank)
  {
  }

  lemma WmsGroupLast()
    ensures LastStore(KtBe.WmsIdentity(), GROUP, GroupOrBlank)
  {
  }

  lemma WmsGroupLater()
    ensures !WritesAny(KtBe.WmsDescription(), GROUP) && !WritesAny(KtBe.WmsPosition(), GROUP) && !WritesAny(KtBe.WmsMap(), GROUP)
  {
  }

  lemma WmsGroupPlaced()
    ensures Placed(BE, WmsBranch, 0, GROUP, GroupOrBlank)
  {
    WmsGroupFree();
    WmsGroupLast();
    WmsGroupLater();
    WmsParts();
  }

  lemma WmsAbstractFree()
    ensures ExprFree(Of(Replaced(Cat(Plus(Abstract, Plus(Lit(" "), Plus(ParentAbstract, Done)))), Newline)))
  {
  }

  lemma WmsAbstractLast()
    ensures LastStore(KtBe.WmsIdentity(), ABSTRACT, Of(Replaced(Cat(Plus(Abstract, Plus(Lit(" "), Plus(ParentAbstract, Done)))), Newline)))
  {
  }

  lemma WmsAbstractLater()
    ensures !WritesAny(KtBe.WmsDescription(), ABSTRACT) && !WritesAny(KtBe.WmsPosition(), ABSTRACT) && !WritesAny(KtBe.WmsMap(), ABSTRACT)
  {
  }

  lemma WmsAbstractPlaced()
    ensures Placed(BE, WmsBranch, 0, ABSTRACT, Of(Replaced(Cat(Plus(Abstract, Plus(Lit(" "), Plus(ParentAbstract, Done)))), Newline)))
  {
    WmsAbstractFree();
    WmsAbstractLast();
    WmsAbstractLater();
    WmsParts();
  }

  lemma WmsKeywordsFree()
    ensures ExprFree(LayerKeywords)
  {
  }

  lemma WmsKeywordsLast()
    ensures LastStore(KtBe.WmsDescription(), KEYWORDS, LayerKeywords)
  {
  }

  lemma WmsKeywordsLater()
    ensures !WritesAny(KtBe.WmsPosition(), KEYWORDS) && !WritesAny(KtBe.WmsMap(), KEYWORDS)
  {
  }

  lemma WmsKeywordsPlaced()
    ensures Placed(BE, WmsBranch, 1, KEYWORDS, LayerKeywords)
  {
    WmsKeywordsFree();
    WmsKeywordsLast();
    WmsKeywordsLater();
    WmsParts();
  }

  lemma WmsLegendFree()
    ensures ExprFree(LegendIfDefault)
  {
  }

  lemma WmsLegendLast()
    ensures LastStore(KtBe.WmsDescription(), LEGEND, LegendIfDefault)
  {
  }

  lemma WmsLegendLater()
    ensures !WritesAny(KtBe.WmsPosition(), LEGEND) && !WritesAny(KtBe.WmsMap(), LEGEND)
  {
  }

  lemma WmsLegendPlaced()
    ensures Placed(BE, WmsBranch, 1, LEGEND, LegendIfDefault)
  {
    WmsLegendFree();
    WmsLegendLast();
    WmsLegendLater();
    WmsParts();
  }

  lemma WmsMetadataFree()
    ensures ExprFree(MetadataUrlIfZero)
  {
  }

  lemma WmsMetadataLast()
    ensures LastStore(KtBe.WmsDescription(), METADATA, MetadataUrlIfZero)
  {
  }

  lemma WmsMetadataLater()
    ensures !WritesAny(KtBe.WmsPosition(), METADATA) && !WritesAny(KtBe.WmsMap(), METADATA)
  {
  }

  lemma WmsMetadataPlaced()
    ensures Placed(BE, WmsBranch, 1, METADATA, MetadataUrlIfZero)
  {
    WmsMetadataFree();
    WmsMetadataLast();
    WmsMetadataLater();
    WmsParts();
  }

  lemma WmsTypeFree()
    ensures ExprFree(Of(Just(ServiceKind)))
  {
  }

  lemma WmsTypeLast()
    ensures LastStore(KtBe.WmsPosition(), SERVICETYPE, Of(Just(ServiceKind)))
  {
  }

  lemma WmsTypeLater()
    ensures !WritesAny(KtBe.WmsMap(), SERVICETYPE)
  {
  }

  lemma WmsTypePlaced()
    ensures Placed(BE, WmsBranch, 2, SERVICETYPE, Of(Just(ServiceKind)))
  {
    WmsTypeFree();
    WmsTypeLast();
    WmsTypeLater();
    WmsParts();
  }

  lemma WmsZoomFree()
    ensures ExprFree(Int(7))
  {
  }

  lemma WmsZoomLast()
    ensures LastStore(KtBe.WmsPosition(), MAX_ZOOM, Int(7))
  {
  }

  lemma WmsZoomLater()
    ensures !WritesAny(KtBe.WmsMap(), MAX_ZOOM)
  {
  }

  lemma WmsZoomPlaced()
    ensures Placed(BE, WmsBranch, 2, MAX_ZOOM, Int(7))
  {
    WmsZoomFree();
    WmsZoomLast();
    WmsZoomLater();
    WmsParts();
  }

  lemma WmsKeepsBboxUnwritten()
    ensures !WritesAny(Part(BE, WmsBranch, 0), BBOX) && !WritesAny(Part(BE, WmsBranch, 1), BBOX) && !WritesAny(Part(BE, WmsBranch, 2), BBOX) && !WritesAny(Part(BE, WmsBranch, 3), BBOX)
  {
    WmsKeepsBboxIn0();
    WmsKeepsBboxIn1();
    WmsKeepsBboxIn2();
    WmsKeepsBboxIn3();
    WmsParts();
  }

  lemma WmsKeepsBboxIn0()
    ensures !WritesAny(KtBe.WmsIdentity(), BBOX)
  {
  }

  lemma WmsKeepsBboxIn1()
    ensures !WritesAny(KtBe.WmsDescription(), BBOX)
  {
  }

  lemma WmsKeepsBboxIn2()
    ensures !WritesAny(KtBe.WmsPosition(), BBOX)
  {
  }

  lemma WmsKeepsBboxIn3()
    ensures !WritesAny(KtBe.WmsMap(), BBOX)
  {
  }

  lemma WmsLinkLate()
    ensures LastLate(KtBe.WmsMap(), MAPGEO, Of(Cat(TypedWmsLink())))
  {
    TypedWmsLinkFree();
    MapLate(TypedWmsLink());
  }

  lemma WmsLinkPlaced()
    ensures LastLate(Part(BE, WmsBranch, 3), MAPGEO, Of(Cat(TypedWmsLink())))
  {
    WmsLinkLate();
    WmsParts();
  }

  // ---------------------------------------------------------------- entries

  /** GROUP is the group the caller passed, or "". */
  lemma WmsGroup(c: Call, m: map<Key, Value>)
    requires Complete(m) && Returns(BE, c, m) && Dispatch(BE, c) == Ok(WmsBranch)
    ensures Final(BE, c, m)[GROUP] == if c.group.Under? then Text(c.group.parent) else Text("")
  {
    WmsGroupPlaced();
    Entry(BE, c, m, WmsBranch, 0, GROUP, GroupOrBlank);
    GroupOrBlankValue(c, m, Final(BE, c, m)[GROUP]);
  }

  /** The abstract joins the layer's and its parent's, both required, and deletes every "\n". */
  lemma WmsAbstract(c: Call, m: map<Key, Value>)
    requires Complete(m) && Returns(BE, c, m) && Dispatch(BE, c) == Ok(WmsBranch)
    ensures LayerOf(c).Ok? && LayerOf(c).value.abstractText.Some?
    ensures LayerOf(c).value.parent.Val? && LayerOf(c).value.parent.v.abstractText.Some?
    ensures var l := LayerOf(c).value;
      Final(BE, c, m)[ABSTRACT] == Text(Replace(l.abstractText.value + " " + l.parent.v.abstractText.value, "\n", ""))
  {
    WmsAbstractPlaced();
    Entry(BE, c, m, WmsBranch, 0, ABSTRACT, Of(Replaced(Cat(Plus(Abstract, Plus(Lit(" "), Plus(ParentAbstract, Done)))), Newline)));
    JointAbstractReplaced(c, m, Final(BE, c, m)[ABSTRACT]);
  }

  /** KEYWORDS is the layer's keyword list as it is. */
  lemma WmsKeywords(c: Call, m: map<Key, Value>)
    requires Complete(m) && Returns(BE, c, m) && Dispatch(BE, c) == Ok(WmsBranch)
    ensures LayerOf(c).Ok?
    ensures var ks := LayerOf(c).value.keywords; Final(BE, c, m)[KEYWORDS] == if ks.Some? then Words(ks.value) else Nothing
  {
    WmsKeywordsPlaced();
    LayerEntry(BE, c, m, WmsBranch, 1, KEYWORDS, LayerKeywords);
    LayerKeywordsRead(LayerOf(c).value, c, Final(BE, c, m)[KEYWORDS]);
  }

  /** The legend is the legend of the style named "default", or "". */
  lemma WmsLegend(c: Call, m: map<Key, Value>)
    requires Complete(m) && Returns(BE, c, m) && Dispatch(BE, c) == Ok(WmsBranch)
    ensures LayerOf(c).Ok? && LayerOf(c).value.styles.Val?
    ensures var ss := LayerOf(c).value.styles.v; var v := Final(BE, c, m)[LEGEND];
      && (StyleNamed(ss, "default").None? ==> v == Text(""))
      && (StyleNamed(ss, "default").Some? ==>
            StyleNamed(ss, "default").value.legend.Some? && v == Text(StyleNamed(ss, "default").value.legend.value))
  {
    WmsLegendPlaced();
    LayerEntry(BE, c, m, WmsBranch, 1, LEGEND, LegendIfDefault);
    LegendIfDefaultRead(LayerOf(c).value, c, Final(BE, c, m)[LEGEND]);
  }

  /** The metadata test `0 in metadataUrls` never holds, so METADATA is "". */
  lemma WmsMetadata(c: Call, m: map<Key, Value>)
    requires Complete(m) && Returns(BE, c, m) && Dispatch(BE, c) == Ok(WmsBranch)
    ensures LayerOf(c).Ok? && LayerOf(c).value.metadataUrls.Val?
    ensures Final(BE, c, m)[METADATA] == Text("")
  {
    WmsMetadataPlaced();
    LayerEntry(BE, c, m, WmsBranch, 1, METADATA, MetadataUrlIfZero);
    MetadataUrlIfZeroRead(LayerOf(c).value, c, Final(BE, c, m)[METADATA]);
  }

  /** SERVICETYPE is the service's type, which is "WMS" on this branch. */
  lemma WmsType(c: Call, m: map<Key, Value>)
    requires Complete(m) && Returns(BE, c, m) && Dispatch(BE, c) == Ok(WmsBranch)
    ensures Final(BE, c, m)[SERVICETYPE] == Text("WMS")
  {
    WmsTypePlaced();
    ReadEntry(BE, c, m, WmsBranch, 2, SERVICETYPE, ServiceKind);
    ServiceKindAtom(c, m);
    Routes(c);
  }

  lemma WmsZoom(c: Call, m: map<Key, Value>)
    requires Complete(m) && Returns(BE, c, m) && Dispatch(BE, c) == Ok(WmsBranch)
    ensures Final(BE, c, m)[MAX_ZOOM] == Integer(7)
  {
    WmsZoomPlaced();
    Entry(BE, c, m, WmsBranch, 2, MAX_ZOOM, Int(7));
  }

  /** The branch assigns no BBOX, so BBOX keeps the value it came with. */
  lemma WmsKeepsBbox(c: Call, m: map<Key, Value>)
    requires Complete(m) && Returns(BE, c, m) && Dispatch(BE, c) == Ok(WmsBranch)
    ensures Final(BE, c, m)[BBOX] == m[BBOX]
  {
    WmsKeepsBboxUnwritten();
    KeptEntry(BE, c, m, WmsBranch, BBOX);
  }

  /** MAPGEO is its link's value on the final record. */
  lemma WmsLinkHolds(c: Call, m: map<Key, Value>)
    requires Complete(m) && Returns(BE, c, m) && Dispatch(BE, c) == Ok(WmsBranch)
    ensures Eval(Of(Cat(TypedWmsLink())), c, Final(BE, c, m)) == Ok(Final(BE, c, m)[MAPGEO])
  {
    WmsLinkPlaced();
    LateEntry(BE, c, m, WmsBranch, MAPGEO, Of(Cat(TypedWmsLink())));
  }

  /** The link names the layer "WMS||" and its id, then the service's URL, the id and the version. */
  lemma WmsMapgeo(c: Call, m: map<Key, Value>)
    requires Complete(m) && Returns(BE, c, m) && Dispatch(BE, c) == Ok(WmsBranch)
    ensures LayerOf(c).Ok? && c.service.url.Val? && c.service.identification.version.Some?
    ensures var f := Final(BE, c, m); f[MAPGEO] == Text(
      (c.prefix + "layers=" + "WMS" + "||" + c.layerId + "||") +
      (c.service.url.v + "?||" + c.layerId + "||" + c.service.identification.version.value) +
      ("&swisssearch=" + Show(f[CENTER_LAT], c.host) + "%20" + Show(f[CENTER_LON], c.host) + "&zoom=" + "7"))
  {
    WmsLinkHolds(c, m);
    WmsZoom(c, m);
    WmsType(c, m);
    TypedWmsLinkValue(c, Final(BE, c, m), Final(BE, c, m)[MAPGEO]);
    assert Decimal(7) == "7";
  }
}
