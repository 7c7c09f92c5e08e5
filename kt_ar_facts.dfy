// What scraper/KT_AR.py leaves in a record it returns.
module KtArFacts {
  import opened Python
  import opened Capabilities
  import opened Cleaning
  import opened Record
  import opened Script
  import opened ExprFacts
  import opened Links
  import opened Owners
  import KtAr

  // ---------------------------------------------------------------- dispatch

  /** The branch is chosen on source['URL']: "WMS" first, then "WMTS", "WFS" and "STAC". */
  lemma Routes(c: Call)
    ensures Dispatch(AR, c) == Ok(WmsBranch) <==> Contains(c.source.url, "WMS")
    ensures Dispatch(AR, c) == Ok(WmtsBranch) <==> !Contains(c.source.url, "WMS") && Contains(c.source.url, "WMTS")
    ensures Dispatch(AR, c) == Ok(WfsBranch) <==>
      !Contains(c.source.url, "WMS") && !Contains(c.source.url, "WMTS") && Contains(c.source.url, "WFS")
    ensures Dispatch(AR, c) == Ok(StacBranch) <==>
      !Contains(c.source.url, "WMS") && !Contains(c.source.url, "WMTS") && !Contains(c.source.url, "WFS") && Contains(c.source.url, "STAC")
    ensures Dispatch(AR, c).Ok?
  {
  }

  /** The WMTS branch calls `remove_newline`, which KT_AR.py does not define, before
      anything else: a WMTS source never gives a record. */
  lemma WmtsFails(c: Call, m: map<Key, Value>)
    requires Complete(m) && Dispatch(AR, c) == Ok(WmtsBranch)
    ensures Run(Plan(AR, c), c, m).returned.Raised? && !Returns(AR, c, m)
  {
    assert AnyDoomed(Part(AR, WmtsBranch, 0)) by {
      assert Part(AR, WmtsBranch, 0) == KtAr.WmtsIdentity();
    }
    DoomedFirst(AR, c, m, WmtsBranch);
  }

  // ---------------------------------------------------------------- placements

  /** The four groups of the WFS branch. */
  lemma WfsParts()
    ensures Part(AR, WfsBranch, 0) == KtAr.WfsIdentity() &&
      Part(AR, WfsBranch, 1) == KtAr.WfsDescription() &&
      Part(AR, WfsBranch, 2) == KtAr.WfsPosition() &&
      Part(AR, WfsBranch, 3) == Nil
  {
  }

  /** The four groups of the WMS branch. */
  lemma WmsParts()
    ensures Part(AR, WmsBranch, 0) == KtAr.WmsIdentity() &&
      Part(AR, WmsBranch, 1) == KtAr.WmsDescription() &&
      Part(AR, WmsBranch, 2) == KtAr.WmsPosition() &&
      Part(AR, WmsBranch, 3) == KtAr.WmsMap()
  {
  }

  lemma WmsTypeFree()
    ensures ExprFree(Of(Just(Lit("OGC:WMS"))))
  {
  }

  lemma WmsTypeLast()
    ensures LastStore(KtAr.WmsPosition(), SERVICETYPE, Of(Just(Lit("OGC:WMS"))))
  {
  }

  lemma WmsTypeLater()
    ensures !WritesAny(KtAr.WmsMap(), SERVICETYPE)
  {
  }

  lemma WmsTypePlaced()
    ensures Placed(AR, WmsBranch, 2, SERVICETYPE, Of(Just(Lit("OGC:WMS"))))
  {
    WmsTypeFree();
    WmsTypeLast();
    WmsTypeLater();
    WmsParts();
  }

  lemma WfsTypeFree()
    ensures ExprFree(Of(Just(Lit("OGC:WFS"))))
  {
  }

  lemma WfsTypeLast()
    ensures LastStore(KtAr.WfsPosition(), SERVICETYPE, Of(Just(Lit("OGC:WFS"))))
  {
  }

  lemma WfsTypePlaced()
    ensures Placed(AR, WfsBranch, 2, SERVICETYPE, Of(Just(Lit("OGC:WFS"))))
  {
    WfsTypeFree();
    WfsTypeLast();
    WfsParts();
  }

  lemma WmsZoomFree()
    ensures ExprFree(Int(7))
  {
  }

  lemma WmsZoomLast()
    ensures LastStore(KtAr.WmsPosition(), MAX_ZOOM, Int(7))
  {
  }

  lemma WmsZoomLater()
    ensures !WritesAny(KtAr.WmsMap(), MAX_ZOOM)
  {
  }

  lemma WmsZoomPlaced()
    ensures Placed(AR, WmsBranch, 2, MAX_ZOOM, Int(7))
  {
    WmsZoomFree();
    WmsZoomLast();
    WmsZoomLater();
    WmsParts();
  }

  lemma WfsZoomFree()
    ensures ExprFree(Of(Just(Lit(""))))
  {
  }

  lemma WfsZoomLast()
    ensures LastStore(KtAr.WfsPosition(), MAX_ZOOM, Of(Just(Lit(""))))
  {
  }

  lemma WfsZoomPlaced()
    ensures Placed(AR, WfsBranch, 2, MAX_ZOOM, Of(Just(Lit(""))))
  {
    WfsZoomFree();
    WfsZoomLast();
    WfsParts();
  }

  lemma WmsAbstractFree()
    ensures ExprFree(Of(Replaced(WithParentAbstract(Just(Abstract)), Newline)))
  {
  }

  lemma WmsAbstractLast()
    ensures LastStore(KtAr.WmsIdentity(), ABSTRACT, Of(Replaced(WithParentAbstract(Just(Abstract)), Newline)))
  {
  }

  lemma WmsAbstractLater()
    ensures !WritesAny(KtAr.WmsDescription(), ABSTRACT) && !WritesAny(KtAr.WmsPosition(), ABSTRACT) && !WritesAny(KtAr.WmsMap(), ABSTRACT)
  {
  }

  lemma WmsAbstractPlaced()
    ensures Placed(AR, WmsBranch, 0, ABSTRACT, Of(Replaced(WithParentAbstract(Just(Abstract)), Newline)))
  {
    WmsAbstractFree();
    WmsAbstractLast();
    WmsAbstractLater();
    WmsParts();
  }

  lemma WmsKeywordsFree()
    ensures ExprFree(KeywordsUnlessBrackets)
  {
  }

  lemma WmsKeywordsLast()
    ensures LastStore(KtAr.WmsDescription(), KEYWORDS, KeywordsUnlessBrackets)
  {
  }

  lemma WmsKeywordsLater()
    ensures !WritesAny(KtAr.WmsPosition(), KEYWORDS) && !WritesAny(KtAr.WmsMap(), KEYWORDS)
  {
  }

  lemma WmsKeywordsPlaced()
    ensures Placed(AR, WmsBranch, 1, KEYWORDS, KeywordsUnlessBrackets)
  {
    WmsKeywordsFree();
    WmsKeywordsLast();
    WmsKeywordsLater();
    WmsParts();
  }

  lemma WmsMetadataFree()
    ensures ExprFree(SoleMetadataUrl)
  {
  }

  lemma WmsMetadataLast()
    ensures LastStore(KtAr.WmsDescription(), METADATA, SoleMetadataUrl)
  {
  }

  lemma WmsMetadataLater()
    ensures !WritesAny(KtAr.WmsPosition(), METADATA) && !WritesAny(KtAr.WmsMap(), METADATA)
  {
  }

  lemma WmsMetadataPlaced()
    ensures Placed(AR, WmsBranch, 1, METADATA, SoleMetadataUrl)
  {
    WmsMetadataFree();
    WmsMetadataLast();
    WmsMetadataLater();
    WmsParts();
  }

  lemma WfsAbstractFree()
    ensures ExprFree(Of(Replaced(WithParentAbstract(Just(Abstract)), Newline)))
  {
  }

  lemma WfsAbstractLast()
    ensures LastStore(KtAr.WfsIdentity(), ABSTRACT, Of(Replaced(WithParentAbstract(Just(Abstract)), Newline)))
  {
  }

  lemma WfsAbstractLater()
    ensures !WritesAny(KtAr.WfsDescription(), ABSTRACT) && !WritesAny(KtAr.WfsPosition(), ABSTRACT)
  {
  }

  lemma WfsAbstractPlaced()
    ensures Placed(AR, WfsBranch, 0, ABSTRACT, Of(Replaced(WithParentAbstract(Just(Abstract)), Newline)))
  {
    WfsAbstractFree();
    WfsAbstractLast();
    WfsAbstractLater();
    WfsParts();
  }

  lemma WfsKeywordsFree()
    ensures ExprFree(KeywordsUnlessBrackets)
  {
  }

  lemma WfsKeywordsLast()
    ensures LastStore(KtAr.WfsDescription(), KEYWORDS, KeywordsUnlessBrackets)
  {
  }

  lemma WfsKeywordsLater()
    ensures !WritesAny(KtAr.WfsPosition(), KEYWORDS)
  {
  }

  lemma WfsKeywordsPlaced()
    ensures Placed(AR, WfsBranch, 1, KEYWORDS, KeywordsUnlessBrackets)
  {
    WfsKeywordsFree();
    WfsKeywordsLast();
    WfsKeywordsLater();
    WfsParts();
  }

  lemma WfsMetadataFree()
    ensures ExprFree(SoleMetadataUrl)
  {
  }

  lemma WfsMetadataLast()
    ensures LastStore(KtAr.WfsDescription(), METADATA, SoleMetadataUrl)
  {
  }

  lemma WfsMetadataLater()
    ensures !WritesAny(KtAr.WfsPosition(), METADATA)
  {
  }

  lemma WfsMetadataPlaced()
    ensures Placed(AR, WfsBranch, 1, METADATA, SoleMetadataUrl)
  {
    WfsMetadataFree();
    WfsMetadataLast();
    WfsMetadataLater();
    WfsParts();
  }

  lemma WmsLegendFree()
    ensures ExprFree(LegendIfDefault)
  {
  }

  lemma WmsLegendLast()
    ensures LastStore(KtAr.WmsDescription(), LEGEND, LegendIfDefault)
  {
  }

  lemma WmsLegendLater()
    ensures !WritesAny(KtAr.WmsPosition(), LEGEND) && !WritesAny(KtAr.WmsMap(), LEGEND)
  {
  }

  lemma WmsLegendPlaced()
    ensures Placed(AR, WmsBranch, 1, LEGEND, LegendIfDefault)
  {
    WmsLegendFree();
    WmsLegendLast();
    WmsLegendLater();
    WmsParts();
  }

  lemma WfsLegendFree()
    ensures ExprFree(LegendIfSingle)
  {
  }

  lemma WfsLegendLast()
    ensures LastStore(KtAr.WfsDescription(), LEGEND, LegendIfSingle)
  {
  }

  lemma WfsLegendLater()
    ensures !WritesAny(KtAr.WfsPosition(), LEGEND)
  {
  }

  lemma WfsLegendPlaced()
    ensures Placed(AR, WfsBranch, 1, LEGEND, LegendIfSingle)
  {
    WfsLegendFree();
    WfsLegendLast();
    WfsLegendLater();
    WfsParts();
  }

  lemma WmsGroupFree()
    ensures ExprFree(ParentNameOrBlank)
  {
  }

  lemma WmsGroupLast()
    ensures LastStore(KtAr.WmsIdentity(), GROUP, ParentNameOrBlank)
  {
  }

  lemma WmsGroupLater()
    ensures !WritesAny(KtAr.WmsDescription(), GROUP) && !WritesAny(KtAr.WmsPosition(), GROUP) && !WritesAny(KtAr.WmsMap(), GROUP)
  {
  }

  lemma WmsGroupPlaced()
    ensures Placed(AR, WmsBranch, 0, GROUP, ParentNameOrBlank)
  {
    WmsGroupFree();
    WmsGroupLast();
    WmsGroupLater();
    WmsParts();
  }

  lemma WfsNameFree()
    ensures ExprFree(Of(Just(Id)))
  {
  }

  lemma WfsNameLast()
    ensures LastStore(KtAr.WfsIdentity(), NAME, Of(Just(Id)))
  {
  }

  lemma WfsNameLater()
    ensures !WritesAny(KtAr.WfsDescription(), NAME) && !WritesAny(KtAr.WfsPosition(), NAME)
  {
  }

  lemma WfsNamePlaced()
    ensures Placed(AR, WfsBranch, 0, NAME, Of(Just(Id)))
  {
    WfsNameFree();
    WfsNameLast();
    WfsNameLater();
    WfsParts();
  }

  lemma WfsKeepsMapgeoUnwritten()
    ensures !WritesAny(Part(AR, WfsBranch, 0), MAPGEO) && !WritesAny(Part(AR, WfsBranch, 1), MAPGEO) && !WritesAny(Part(AR, WfsBranch, 2), MAPGEO) && !WritesAny(Part(AR, WfsBranch, 3), MAPGEO)
  {
    WfsKeepsMapgeoIn0();
    WfsKeepsMapgeoIn1();
    WfsKeepsMapgeoIn2();
    WfsParts();
  }

  lemma WfsKeepsMapgeoIn0()
    ensures !WritesAny(KtAr.WfsIdentity(), MAPGEO)
  {
  }

  lemma WfsKeepsMapgeoIn1()
    ensures !WritesAny(KtAr.WfsDescription(), MAPGEO)
  {
  }

  lemma WfsKeepsMapgeoIn2()
    ensures !WritesAny(KtAr.WfsPosition(), MAPGEO)
  {
  }

  lemma WmsLinkLate()
    ensures LastLate(KtAr.WmsMap(), MAPGEO, Of(Cat(WmsLink(Title))))
  {
    WmsLinkFree(Title);
    MapLate(WmsLink(Title));
  }

  lemma WmsLinkPlaced()
    ensures LastLate(Part(AR, WmsBranch, 3), MAPGEO, Of(Cat(WmsLink(Title))))
  {
    WmsLinkLate();
    WmsParts();
  }

  // ---------------------------------------------------------------- entries

  /** SERVICETYPE is "OGC:WMS" and "OGC:WFS"; MAX_ZOOM is 7 and "". */
  lemma WmsType(c: Call, m: map<Key, Value>)
    requires Complete(m) && Returns(AR, c, m) && Dispatch(AR, c) == Ok(WmsBranch)
    ensures Final(AR, c, m)[SERVICETYPE] == Text("OGC:WMS")
  {
    WmsTypePlaced();
    FixedEntry(AR, c, m, WmsBranch, 2, SERVICETYPE, "OGC:WMS");
  }

  lemma WfsType(c: Call, m: map<Key, Value>)
    requires Complete(m) && Returns(AR, c, m) && Dispatch(AR, c) == Ok(WfsBranch)
    ensures Final(AR, c, m)[SERVICETYPE] == Text("OGC:WFS")
  {
    WfsTypePlaced();
    FixedEntry(AR, c, m, WfsBranch, 2, SERVICETYPE, "OGC:WFS");
  }

  lemma WmsZoom(c: Call, m: map<Key, Value>)
    requires Complete(m) && Returns(AR, c, m) && Dispatch(AR, c) == Ok(WmsBranch)
    ensures Final(AR, c, m)[MAX_ZOOM] == Integer(7)
  {
    WmsZoomPlaced();
    Entry(AR, c, m, WmsBranch, 2, MAX_ZOOM, Int(7));
  }

  lemma WfsZoom(c: Call, m: map<Key, Value>)
    requires Complete(m) && Returns(AR, c, m) && Dispatch(AR, c) == Ok(WfsBranch)
    ensures Final(AR, c, m)[MAX_ZOOM] == Text("")
  {
    WfsZoomPlaced();
    FixedEntry(AR, c, m, WfsBranch, 2, MAX_ZOOM, "");
  }

  /** The abstract is the layer's and its parent's when the parent has one, else the layer's own, with every "\n" deleted. */
  lemma WmsAbstract(c: Call, m: map<Key, Value>)
    requires Complete(m) && Returns(AR, c, m) && Dispatch(AR, c) == Ok(WmsBranch)
    ensures LayerOf(c).Ok?
    ensures var t := WithParent(LayerOf(c).value, LayerOf(c).value.abstractText);
      t.Some? && Final(AR, c, m)[ABSTRACT] == Text(Replace(t.value, "\n", ""))
  {
    WmsAbstractPlaced();
    Entry(AR, c, m, WmsBranch, 0, ABSTRACT, Of(Replaced(WithParentAbstract(Just(Abstract)), Newline)));
    AbstractWithParentReplaced(c, m, Final(AR, c, m)[ABSTRACT]);
  }

  /** `keywords != "[]"` always holds, so KEYWORDS is the service's keyword list as it is. */
  lemma WmsKeywords(c: Call, m: map<Key, Value>)
    requires Complete(m) && Returns(AR, c, m) && Dispatch(AR, c) == Ok(WmsBranch)
    ensures var ks := c.service.identification.keywords; Final(AR, c, m)[KEYWORDS] == if ks.Some? then Words(ks.value) else Nothing
  {
    WmsKeywordsPlaced();
    Entry(AR, c, m, WmsBranch, 1, KEYWORDS, KeywordsUnlessBrackets);
    KeywordsUnlessBracketsValue(c, m, Final(AR, c, m)[KEYWORDS]);
  }

  /** METADATA is the URL of the sole metadata entry, or "". */
  lemma WmsMetadata(c: Call, m: map<Key, Value>)
    requires Complete(m) && Returns(AR, c, m) && Dispatch(AR, c) == Ok(WmsBranch)
    ensures LayerOf(c).Ok? && LayerOf(c).value.metadataUrls.Val?
    ensures var us := LayerOf(c).value.metadataUrls.v; var v := Final(AR, c, m)[METADATA];
      && (|us| != 1 ==> v == Text(""))
      && (|us| == 1 ==> us[0].url.Some? && v == Text(us[0].url.value))
  {
    WmsMetadataPlaced();
    LayerEntry(AR, c, m, WmsBranch, 1, METADATA, SoleMetadataUrl);
    SoleMetadataRead(LayerOf(c).value, c, Final(AR, c, m)[METADATA]);
  }

  lemma WfsAbstract(c: Call, m: map<Key, Value>)
    requires Complete(m) && Returns(AR, c, m) && Dispatch(AR, c) == Ok(WfsBranch)
    ensures LayerOf(c).Ok?
    ensures var t := WithParent(LayerOf(c).value, LayerOf(c).value.abstractText);
      t.Some? && Final(AR, c, m)[ABSTRACT] == Text(Replace(t.value, "\n", ""))
  {
    WfsAbstractPlaced();
    Entry(AR, c, m, WfsBranch, 0, ABSTRACT, Of(Replaced(WithParentAbstract(Just(Abstract)), Newline)));
    AbstractWithParentReplaced(c, m, Final(AR, c, m)[ABSTRACT]);
  }

  lemma WfsKeywords(c: Call, m: map<Key, Value>)
    requires Complete(m) && Returns(AR, c, m) && Dispatch(AR, c) == Ok(WfsBranch)
    ensures var ks := c.service.identification.keywords; Final(AR, c, m)[KEYWORDS] == if ks.Some? then Words(ks.value) else Nothing
  {
    WfsKeywordsPlaced();
    Entry(AR, c, m, WfsBranch, 1, KEYWORDS, KeywordsUnlessBrackets);
    KeywordsUnlessBracketsValue(c, m, Final(AR, c, m)[KEYWORDS]);
  }

  lemma WfsMetadata(c: Call, m: map<Key, Value>)
    requires Complete(m) && Returns(AR, c, m) && Dispatch(AR, c) == Ok(WfsBranch)
    ensures LayerOf(c).Ok? && LayerOf(c).value.metadataUrls.Val?
    ensures var us := LayerOf(c).value.metadataUrls.v; var v := Final(AR, c, m)[METADATA];
      && (|us| != 1 ==> v == Text(""))
      && (|us| == 1 ==> us[0].url.Some? && v == Text(us[0].url.value))
  {
    WfsMetadataPlaced();
    LayerEntry(AR, c, m, WfsBranch, 1, METADATA, SoleMetadataUrl);
    SoleMetadataRead(LayerOf(c).value, c, Final(AR, c, m)[METADATA]);
  }

  /** The WMS legend is the legend of the style named "default", or "". */
  lemma WmsLegend(c: Call, m: map<Key, Value>)
    requires Complete(m) && Returns(AR, c, m) && Dispatch(AR, c) == Ok(WmsBranch)
    ensures LayerOf(c).Ok? && LayerOf(c).value.styles.Val?
    ensures var ss := LayerOf(c).value.styles.v; var v := Final(AR, c, m)[LEGEND];
      && (StyleNamed(ss, "default").None? ==> v == Text(""))
      && (StyleNamed(ss, "default").Some? ==>
            StyleNamed(ss, "default").value.legend.Some? && v == Text(StyleNamed(ss, "default").value.legend.value))
  {
    WmsLegendPlaced();
    LayerEntry(AR, c, m, WmsBranch, 1, LEGEND, LegendIfDefault);
    LegendIfDefaultRead(LayerOf(c).value, c, Final(AR, c, m)[LEGEND]);
  }

  /** The WFS legend is the legend of the only style, which must be named "default", or "". */
  lemma WfsLegend(c: Call, m: map<Key, Value>)
    requires Complete(m) && Returns(AR, c, m) && Dispatch(AR, c) == Ok(WfsBranch)
    ensures LayerOf(c).Ok? && LayerOf(c).value.styles.Val?
    ensures var ss := LayerOf(c).value.styles.v; var v := Final(AR, c, m)[LEGEND];
      && (|ss| != 1 ==> v == Text(""))
      && (|ss| == 1 ==> ss[0].name == "default" && ss[0].legend.Some? && v == Text(ss[0].legend.value))
  {
    WfsLegendPlaced();
    LayerEntry(AR, c, m, WfsBranch, 1, LEGEND, LegendIfSingle);
    LegendIfSingleRead(LayerOf(c).value, c, Final(AR, c, m)[LEGEND]);
  }

  /** GROUP is the parent layer's name, or "" for a top layer. */
  lemma WmsGroup(c: Call, m: map<Key, Value>)
    requires Complete(m) && Returns(AR, c, m) && Dispatch(AR, c) == Ok(WmsBranch)
    ensures LayerOf(c).Ok? && !LayerOf(c).value.parent.Absent?
    ensures var p := LayerOf(c).value.parent; Final(AR, c, m)[GROUP] == if p.Val? then Of1(p.v.name) else Text("")
  {
    WmsGroupPlaced();
    LayerEntry(AR, c, m, WmsBranch, 0, GROUP, ParentNameOrBlank);
    ParentNameRead(LayerOf(c).value, c, Final(AR, c, m)[GROUP]);
  }

  /** A WFS layer is named by its id. */
  lemma WfsName(c: Call, m: map<Key, Value>)
    requires Complete(m) && Returns(AR, c, m) && Dispatch(AR, c) == Ok(WfsBranch)
    ensures LayerOf(c).Ok? && Final(AR, c, m)[NAME] == Text(c.layerId)
  {
    WfsNamePlaced();
    ReadEntry(AR, c, m, WfsBranch, 0, NAME, Id);
    IdAtom(c, m);
    IdText(c, m);
  }

  /** The WFS branch leaves MAPGEO as it was. */
  lemma WfsKeepsMapgeo(c: Call, m: map<Key, Value>)
    requires Complete(m) && Returns(AR, c, m) && Dispatch(AR, c) == Ok(WfsBranch)
    ensures Final(AR, c, m)[MAPGEO] == m[MAPGEO]
  {
    WfsKeepsMapgeoUnwritten();
    KeptEntry(AR, c, m, WfsBranch, MAPGEO);
  }

  /** MAPGEO is its link's value on the final record. */
  lemma WmsLinkHolds(c: Call, m: map<Key, Value>)
    requires Complete(m) && Returns(AR, c, m) && Dispatch(AR, c) == Ok(WmsBranch)
    ensures Eval(Of(Cat(WmsLink(Title))), c, Final(AR, c, m)) == Ok(Final(AR, c, m)[MAPGEO])
  {
    WmsLinkPlaced();
    LateEntry(AR, c, m, WmsBranch, MAPGEO, Of(Cat(WmsLink(Title))));
  }

  /** The WMS link names the layer by its title and ends with the box's centre at zoom 7. */
  lemma WmsMapgeo(c: Call, m: map<Key, Value>)
    requires Complete(m) && Returns(AR, c, m) && Dispatch(AR, c) == Ok(WmsBranch)
    ensures LayerOf(c).Ok? && LayerOf(c).value.title.Some?
    ensures c.service.url.Val? && c.service.identification.version.Some?
    ensures var f := Final(AR, c, m); f[MAPGEO] == Text(
      (c.prefix + "layers=WMS||" + LayerOf(c).value.title.value + "||" + c.service.url.v + "?||" +
       c.layerId + "||" + c.service.identification.version.value) +
      ("&swisssearch=" + Show(f[CENTER_LAT], c.host) + "%20" + Show(f[CENTER_LON], c.host) + "&zoom=7"))
  {
    WmsLinkHolds(c, m);
    WmsZoom(c, m);
    TitledWmsLinkText(c, Final(AR, c, m), Final(AR, c, m)[MAPGEO]);
  }
}
