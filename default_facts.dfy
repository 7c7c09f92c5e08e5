// What scraper/default.py's `scrape` leaves in the record, entry by entry.
module DefaultFacts {
  import opened Python
  import opened Capabilities
  import opened Cleaning
  import opened Record
  import opened Script
  import opened DefaultScraper
  import opened Links

  // ---------------------------------------------------------------- layout

  /** The shared groups in order. */
  function SharedGroup(i: nat): Stmts
    requires i < 3
  {
    if i == 0 then Identity() else if i == 1 then Description() else Position()
  }

  /** The entries each group assigns: the shared groups assign disjoint sets of
      entries, and a branch's own statements assign only SERVICETYPE and MAPGEO. */
  lemma IdentityWrites(k: Key)
    ensures WritesAny(Identity(), k) <==> k in {OWNER, TITLE, NAME, TREE, GROUP, ABSTRACT}
  {
  }

  lemma DescriptionWrites(k: Key)
    ensures WritesAny(Description(), k) <==> k in {KEYWORDS, LEGEND, CONTACT, SERVICELINK, METADATA, UPDATE}
  {
  }

  lemma PositionWrites(k: Key)
    ensures WritesAny(Position(), k) <==> k in {MAX_ZOOM, CENTER_LAT, CENTER_LON, BBOX}
  {
  }

  lemma TailWrites(c: Call, k: Key)
    ensures WritesAny(Tail(c), k) ==> k == SERVICETYPE || k == MAPGEO
  {
  }

  /** An entry a shared group assigns is not one a branch assigns. */
  lemma SharedKey(i: nat, k: Key, e: Expr)
    requires i < 3 && LastIn(SharedGroup(i), k, e)
    ensures WritesAny(SharedGroup(i), k) && k != SERVICETYPE && k != MAPGEO
  {
    LastInWrites(SharedGroup(i), k, e);
    IdentityWrites(k);
    DescriptionWrites(k);
    PositionWrites(k);
  }

  /** Each shared entry's last assignment, and whether its expression reads an entry. */
  lemma NameLayout()
    ensures LastStore(Identity(), NAME, NameOrId) && ExprFree(NameOrId)
  {
  }

  lemma GroupLayout()
    ensures LastStore(Identity(), GROUP, ParentOrGroup) && ExprFree(ParentOrGroup)
  {
  }

  lemma AbstractLayout()
    ensures LastStore(Identity(), ABSTRACT, Of(Cleaned(TagsAndControlsCleaner, Just(Abstract))))
    ensures ExprFree(Of(Cleaned(TagsAndControlsCleaner, Just(Abstract))))
  {
  }

  lemma KeywordsLayout()
    ensures LastStore(Description(), KEYWORDS, PresentKeywords) && ExprFree(PresentKeywords)
  {
  }

  lemma LegendLayout()
    ensures LastStore(Description(), LEGEND, LegendChain) && ExprFree(LegendChain)
  {
  }

  /** The contact chain reads CONTACT itself, which no earlier statement assigns. */
  lemma ContactLayout()
    ensures LastIn(Description(), CONTACT, ContactChain) && !DisturbsAny(Identity(), ContactChain)
  {
  }

  lemma ServiceLinkLayout()
    ensures LastStore(Description(), SERVICELINK, ServiceLinkChain) && ExprFree(ServiceLinkChain)
  {
  }

  lemma MetadataLayout()
    ensures LastStore(Description(), METADATA, MetadataFallbacks()) && ExprFree(MetadataFallbacks())
  {
  }

  lemma UpdateLayout()
    ensures LastStore(Description(), UPDATE, Of(Just(Lit("")))) && ExprFree(Of(Just(Lit(""))))
  {
  }

  lemma ZoomLayout()
    ensures LastStore(Position(), MAX_ZOOM, Int(7)) && ExprFree(Int(7))
  {
  }

  lemma CentreLayout(lat: bool)
    ensures LastStore(Position(), if lat then CENTER_LAT else CENTER_LON, CentreOr(lat)) && ExprFree(CentreOr(lat))
  {
  }

  lemma BoxLayout()
    ensures LastStore(Position(), BBOX, BoxOrDefault) && ExprFree(BoxOrDefault)
  {
  }

  /** The last assignment to `k` is in shared group `i`, and no group before it
      writes what `e` reads: then `k` is last assigned there in the whole body. */
  lemma SharedLast(tail: Stmts, i: nat, k: Key, e: Expr)
    requires i < 3 && LastIn(SharedGroup(i), k, e) && !WritesAny(tail, k)
    requires i >= 1 ==> !DisturbsAny(Identity(), e)
    requires i == 2 ==> !DisturbsAny(Description(), e)
    ensures LastIs(Body(tail), i, k, e)
  {
    SharedKey(i, k, e);
    IdentityWrites(k);
    DescriptionWrites(k);
    PositionWrites(k);
    LastOfFour(Identity(), Description(), Position(), tail, i, k, e);
  }

  /** The same, for the branch a call takes. */
  lemma SharedPlace(c: Call, i: nat, k: Key, e: Expr)
    requires i < 3 && LastIn(SharedGroup(i), k, e)
    requires i >= 1 ==> !DisturbsAny(Identity(), e)
    requires i == 2 ==> !DisturbsAny(Description(), e)
    ensures LastIs(Body(Tail(c)), i, k, e)
  {
    SharedKey(i, k, e);
    TailWrites(c, k);
    SharedLast(Tail(c), i, k, e);
  }

  /** A record that was returned comes from a body that raised nothing. */
  lemma Ran(c: Call, m: map<Key, Value>)
    requires Complete(m) && Returns(c, m)
    ensures Exec(Flatten(Body(Tail(c))), c, m).fault.None?
    ensures Final(c, m) == Exec(Flatten(Body(Tail(c))), c, m).values
  {
  }

  /** A shared entry of a record that was returned is its last assignment's value on
      the incoming record. */
  lemma SharedEntry(c: Call, m: map<Key, Value>, i: nat, k: Key, e: Expr)
    requires Complete(m) && Returns(c, m)
    requires i < 3 && LastIn(SharedGroup(i), k, e)
    requires i >= 1 ==> !DisturbsAny(Identity(), e)
    requires i == 2 ==> !DisturbsAny(Description(), e)
    ensures Eval(e, c, m) == Ok(Final(c, m)[k])
  {
    SharedPlace(c, i, k, e);
    Ran(c, m);
    Settled(Body(Tail(c)), i, k, e, c, m);
  }

  /** An expression that reads no entry is undisturbed by the groups before it. */
  lemma FreeShared(i: nat, k: Key, e: Expr)
    requires i < 3 && LastStore(SharedGroup(i), k, e) && ExprFree(e)
    ensures LastIn(SharedGroup(i), k, e) && !DisturbsAny(Identity(), e) && !DisturbsAny(Description(), e)
  {
    FreeLastIn(SharedGroup(i), k, e);
    Undisturbing(Identity(), e);
    Undisturbing(Description(), e);
  }

  /** The same for an expression that reads no entry. */
  lemma FreeEntry(c: Call, m: map<Key, Value>, i: nat, k: Key, e: Expr)
    requires Complete(m) && Returns(c, m)
    requires i < 3 && LastStore(SharedGroup(i), k, e) && ExprFree(e)
    ensures Eval(e, c, m) == Ok(Final(c, m)[k])
  {
    FreeShared(i, k, e);
    SharedEntry(c, m, i, k, e);
  }

  /** Where each branch's own entries are assigned. */
  lemma TailLayout()
    ensures LastLate(WmsTail(), SERVICETYPE, Of(Just(Lit("WMS"))))
    ensures LastLate(BundWmsTail(), SERVICETYPE, Of(Just(Lit("WMS"))))
    ensures LastLate(WmtsTail(), SERVICETYPE, Of(Just(Lit("WMTS"))))
    ensures LastLate(BundWmtsTail(), SERVICETYPE, Of(Just(Lit("WMTS"))))
    ensures LastLate(WfsTail(), SERVICETYPE, Of(Just(Lit("WFS"))))
  {
  }

  /** No part of a link reads MAPGEO, so its assignment can be read on the final record. */
  lemma WmsLinkLayout()
    ensures LastLate(WmsTail(), MAPGEO, Of(Cat(WmsLink(Title))))
  {
    WmsLinkFree(Title);
    LateOfPair(SERVICETYPE, Of(Just(Lit("WMS"))), MAPGEO, Of(Cat(WmsLink(Title))));
  }

  lemma BundWmsLinkLayout()
    ensures LastLate(BundWmsTail(), MAPGEO, Of(Cat(BundWmsLink())))
  {
    WmsLeadFree(Title, ProviderUrl);
    LateOfPair(SERVICETYPE, Of(Just(Lit("WMS"))), MAPGEO, Of(Cat(BundWmsLink())));
  }

  lemma WmtsLinkLayout()
    ensures LastLate(WmtsTail(), MAPGEO, Of(Cat(WmtsLink(Id))))
  {
    WmtsLinkFree(Id);
    LateOfPair(SERVICETYPE, Of(Just(Lit("WMTS"))), MAPGEO, Of(Cat(WmtsLink(Id))));
  }

  lemma BundWmtsLinkLayout()
    ensures LastLate(BundWmtsTail(), MAPGEO, Of(Cat(BundWmtsLink())))
  {
    LateOfPair(SERVICETYPE, Of(Just(Lit("WMTS"))), MAPGEO, Of(Cat(BundWmtsLink())));
  }

  /** A branch's own assignment is the last of the body. */
  lemma TailPlace(tail: Stmts, k: Key, e: Expr)
    requires LastLate(tail, k, e)
    ensures LastReadsEarlier(Body(tail), 3, k, e)
  {
    LateOfFour(Identity(), Description(), Position(), tail, k, e);
  }

  /** A branch entry of a record that was returned is its assignment's value on the
      final record. */
  lemma TailEntry(c: Call, m: map<Key, Value>, tail: Stmts, k: Key, e: Expr)
    requires Complete(m) && Returns(c, m)
    requires Tail(c) == tail && LastLate(tail, k, e)
    ensures Eval(e, c, Final(c, m)) == Ok(Final(c, m)[k])
  {
    TailPlace(tail, k, e);
    Ran(c, m);
    SettledLate(Body(tail), 3, k, e, c, m);
  }

  // ---------------------------------------------------------------- values

  /** `service.contents[i].name` when the layer has that attribute, else its id. */
  lemma NameValue(c: Call, m: map<Key, Value>, v: Value)
    requires Complete(m) && Eval(NameOrId, c, m) == Ok(v)
    ensures LayerOf(c).Ok?
    ensures var l := LayerOf(c).value;
      v == (if l.name.Val? then Text(l.name.v) else if l.name.Null? then Nothing else Text(l.id))
  {
  }

  lemma GroupValue(c: Call, m: map<Key, Value>, v: Value)
    requires Complete(m) && Eval(ParentOrGroup, c, m) == Ok(v)
    ensures LayerOf(c).Ok?
    ensures var l := LayerOf(c).value;
      v == (if l.parent.Val? then (if l.parent.v.name.Some? then Text(l.parent.v.name.value) else Nothing)
            else if c.group.Under? then Text(c.group.parent)
            else Text(""))
  {
  }

  lemma AbstractValue(c: Call, m: map<Key, Value>, v: Value)
    requires Complete(m) && Eval(Of(Cleaned(TagsAndControlsCleaner, Just(Abstract))), c, m) == Ok(v)
    ensures LayerOf(c).Ok?
    ensures v == Text(TagsAndControls(LayerOf(c).value.abstractText))
  {
    assert EvalStr(Just(Abstract), c, m) == EvalAtom(Abstract, c, m);
  }

  lemma KeywordsValue(c: Call, m: map<Key, Value>, v: Value)
    requires Complete(m) && Eval(PresentKeywords, c, m) == Ok(v)
    ensures LayerOf(c).Ok? && LayerOf(c).value.keywords.Some?
    ensures v == Text(Join(", ", Present(LayerOf(c).value.keywords.value)))
  {
  }

  /** The value of the legend chain, case by case. */
  lemma LegendValue(c: Call, m: map<Key, Value>, v: Value)
    requires Complete(m) && Eval(LegendChain, c, m) == Ok(v)
    ensures LayerOf(c).Ok? && !LayerOf(c).value.styles.Absent?
    ensures var l := LayerOf(c).value;
      && (l.styles.Null? ==> v == Text(""))
      && (l.styles.Val? && StyleNamed(l.styles.v, "default").Some? ==>
            v == (var st := StyleNamed(l.styles.v, "default").value;
                  if st.legend.Some? then Text(st.legend.value) else Text("")))
      && (l.styles.Val? && StyleNamed(l.styles.v, "default").None? && |l.styles.v| == 1 ==>
            v == (if l.styles.v[0].legend.Some? then Text(l.styles.v[0].legend.value) else Text("")))
      && ((l.styles.Val? && StyleNamed(l.styles.v, "default").None? && |l.styles.v| != 1 &&
           l.children.Val? && l.children.v != [] && l.children.v[0].styles.Val? &&
           StyleNamed(l.children.v[0].styles.v, "default").Some?) ==>
            v == (var st := StyleNamed(l.children.v[0].styles.v, "default").value;
                  if st.legend.Some? then Text(st.legend.value) else Text("")))
      && ((l.styles.Val? && StyleNamed(l.styles.v, "default").None? && |l.styles.v| != 1 &&
           !(l.children.Val? && l.children.v != [])) ==> v == Text(""))
  {
  }

  lemma ContactValue(c: Call, m: map<Key, Value>, v: Value)
    requires Complete(m) && Eval(ContactChain, c, m) == Ok(v)
    ensures var s := c.service;
      && (s.provider.Absent? ==> v == Text(""))
      && (s.provider.Null? ==> v == m[CONTACT])
      && (s.provider.Val? && HasEmail(s.provider.v) && s.provider.v.contact.v.email.Val? ==>
            v == Text(s.provider.v.contact.v.email.v))
      && (s.provider.Val? && !HasEmail(s.provider.v) && s.provider.v.name.Val? ==> v == Text(s.provider.v.name.v))
      && (s.provider.Val? && !HasEmail(s.provider.v) && s.provider.v.name.Absent? ==> v == m[CONTACT])
  {
  }

  lemma ServiceLinkValue(c: Call, m: map<Key, Value>, v: Value)
    requires Complete(m) && Eval(ServiceLinkChain, c, m) == Ok(v)
    ensures var s := c.service;
      && (s.request.Val? ==> v == Text(s.request.v))
      && (s.request.Null? ==> v == Nothing)
      && (s.request.Absent? && s.url.Val? ==> v == Text(s.url.v))
      && (s.request.Absent? && s.url.Null? ==> v == Nothing)
      && (s.request.Absent? && s.url.Absent? ==> v == Text(""))
  {
  }

  /** The first sub-layer's first metadata URL, or "" when there is none. */
  function SubLayerUrl(l: Layer): Value
  {
    if l.sublayers.Val? && |l.sublayers.v| > 0 && l.sublayers.v[0].metadataUrls.Val? &&
       |l.sublayers.v[0].metadataUrls.v| > 0 && l.sublayers.v[0].metadataUrls.v[0].url.Some?
    then Text(l.sublayers.v[0].metadataUrls.v[0].url.value)
    else Text("")
  }

  /** The abstract search always raises NameError, so its handler's "" is kept. */
  lemma AbstractUrlValue(c: Call, m: map<Key, Value>)
    requires Complete(m)
    ensures Eval(AbstractUrlFallback(), c, m) == Ok(Text(""))
  {
  }

  lemma SubLayerValue(c: Call, m: map<Key, Value>, l: Layer)
    requires Complete(m) && LayerOf(c) == Ok(l)
    ensures Eval(SubLayerFallback(), c, m) == Ok(SubLayerUrl(l))
  {
    AbstractUrlValue(c, m);
    AttemptEval(SubLayerMetadataUrl, AbstractUrlFallback(), c, m);
    LayerEval(SubLayerMetadataUrl, l, c, m);
    SubLayerRead(l, c);
  }

  lemma SubLayerRead(l: Layer, c: Call)
    ensures LayerExpr(SubLayerMetadataUrl, l, c).Ok? ==> LayerExpr(SubLayerMetadataUrl, l, c) == Ok(SubLayerUrl(l))
    ensures LayerExpr(SubLayerMetadataUrl, l, c).Err? ==> SubLayerUrl(l) == Text("")
  {
  }

  lemma ServiceMetadataValue(c: Call, m: map<Key, Value>, l: Layer)
    requires Complete(m) && LayerOf(c) == Ok(l)
    ensures c.service.metadataUrl.Val? ==> Eval(ServiceMetadataFallback(), c, m) == Ok(Text(c.service.metadataUrl.v))
    ensures c.service.metadataUrl.Null? ==> Eval(ServiceMetadataFallback(), c, m) == Ok(Nothing)
    ensures c.service.metadataUrl.Absent? ==> Eval(ServiceMetadataFallback(), c, m) == Ok(SubLayerUrl(l))
  {
    AttemptEval(Of(Just(ServiceMetadataUrl)), SubLayerFallback(), c, m);
    ServiceUrlRead(c, m);
    SubLayerValue(c, m, l);
  }

  lemma ServiceUrlRead(c: Call, m: map<Key, Value>)
    requires Complete(m)
    ensures c.service.metadataUrl.Val? ==> Eval(Of(Just(ServiceMetadataUrl)), c, m) == Ok(Text(c.service.metadataUrl.v))
    ensures c.service.metadataUrl.Null? ==> Eval(Of(Just(ServiceMetadataUrl)), c, m) == Ok(Nothing)
    ensures c.service.metadataUrl.Absent? ==> Eval(Of(Just(ServiceMetadataUrl)), c, m).Err?
  {
  }

  /** The first step of the METADATA chain raises: `metadataUrls` is missing or None,
      or its only entry has no 'url' key. */
  predicate SoleRaises(l: Layer)
  {
    !l.metadataUrls.Val? || (|l.metadataUrls.v| == 1 && l.metadataUrls.v[0].url.None?)
  }

  lemma SoleRead(l: Layer, c: Call)
    ensures l.metadataUrls.Val? && |l.metadataUrls.v| == 1 && l.metadataUrls.v[0].url.Some? ==>
      LayerExpr(SoleMetadataUrl, l, c) == Ok(Text(l.metadataUrls.v[0].url.value))
    ensures l.metadataUrls.Val? && |l.metadataUrls.v| != 1 ==> LayerExpr(SoleMetadataUrl, l, c) == Ok(Text(""))
    ensures SoleRaises(l) ==> LayerExpr(SoleMetadataUrl, l, c).Err?
  {
  }

  /** METADATA: the layer's URL when it has exactly one, "" when it has another number,
      else the service's metadata URL, else the first sub-layer's, else "". */
  lemma MetadataValue(c: Call, m: map<Key, Value>, l: Layer, v: Value)
    requires Complete(m) && LayerOf(c) == Ok(l) && Eval(MetadataFallbacks(), c, m) == Ok(v)
    ensures l.metadataUrls.Val? && |l.metadataUrls.v| == 1 && l.metadataUrls.v[0].url.Some? ==>
      v == Text(l.metadataUrls.v[0].url.value)
    ensures l.metadataUrls.Val? && |l.metadataUrls.v| != 1 ==> v == Text("")
    ensures SoleRaises(l) && c.service.metadataUrl.Val? ==> v == Text(c.service.metadataUrl.v)
    ensures SoleRaises(l) && c.service.metadataUrl.Null? ==> v == Nothing
    ensures SoleRaises(l) && c.service.metadataUrl.Absent? ==> v == SubLayerUrl(l)
  {
    AttemptEval(SoleMetadataUrl, ServiceMetadataFallback(), c, m);
    LayerEval(SoleMetadataUrl, l, c, m);
    SoleRead(l, c);
    ServiceMetadataValue(c, m, l);
  }

  lemma CentreValue(c: Call, m: map<Key, Value>, lat: bool, v: Value)
    requires Complete(m) && Eval(CentreOr(lat), c, m) == Ok(v)
    ensures LayerOf(c).Ok?
    ensures var l := LayerOf(c).value; var i := if lat then 1 else 0;
      && (FourItems(l.wgs84) ==>
            l.wgs84.v[i].Ordinate? && l.wgs84.v[i + 2].Ordinate? &&
            v == Number((l.wgs84.v[i].x + l.wgs84.v[i + 2].x) / 2.0))
      && (!FourItems(l.wgs84) && FourItems(l.bbox) ==>
            l.bbox.v[i].Ordinate? && l.bbox.v[i + 2].Ordinate? &&
            v == Number((l.bbox.v[i].x + l.bbox.v[i + 2].x) / 2.0))
      && (!FourItems(l.wgs84) && !FourItems(l.bbox) ==>
            v == Number(if lat then FallbackLat else FallbackLon))
  {
  }

  lemma BoxValue(c: Call, m: map<Key, Value>, v: Value)
    requires Complete(m) && Eval(BoxOrDefault, c, m) == Ok(v)
    ensures LayerOf(c).Ok?
    ensures var l := LayerOf(c).value;
      && (FourItems(l.wgs84) ==> v == Text(Join(" ", ShowItems(l.wgs84.v, c.host))))
      && (l.wgs84.Null? || (l.wgs84.Val? && |l.wgs84.v| != 4) ==> v == Text(FallbackBox))
      && (l.wgs84.Absent? && (l.bbox.Absent? || (l.bbox.Val? && l.bbox.v == [])) ==> v == Text(FallbackBox))
      && !(l.wgs84.Absent? && l.bbox.Null?)
      && (l.wgs84.Absent? && l.bbox.Val? && l.bbox.v != [] ==> ExtentBox(l, c.host, v))
  {
  }

  /** The native-box path of default.py:190-194: the first box's extent, stripped of
      its parentheses and split on ',', parses to numbers; four of them are joined
      by spaces, any other count gives the fixed box. */
  predicate ExtentBox(l: Layer, h: Host, v: Value)
  {
    && ExtentParts(l, h).Ok?
    && ParseAll(ExtentParts(l, h).value, h).Ok?
    && var xs := ParseAll(ExtentParts(l, h).value, h).value;
       v == (if |xs| == 4 then Text(Join(" ", ShowItems(xs, h))) else Text(FallbackBox))
  }

  // ---------------------------------------------------------------- fields

  /** NAME is the layer's name when it has that attribute, else its id. */
  lemma NameFallback(c: Call, m: map<Key, Value>)
    requires Complete(m) && Returns(c, m)
    ensures LayerOf(c).Ok?
    ensures var l := LayerOf(c).value;
      Final(c, m)[NAME] == (if l.name.Val? then Text(l.name.v) else if l.name.Null? then Nothing else Text(l.id))
  {
    NameLayout();
    FreeEntry(c, m, 0, NAME, NameOrId);
    NameValue(c, m, Final(c, m)[NAME]);
  }

  /** GROUP is the parent's name when there is a parent, else the `group` argument
      unless it is 0, else "". */
  lemma GroupFallback(c: Call, m: map<Key, Value>)
    requires Complete(m) && Returns(c, m)
    ensures LayerOf(c).Ok?
    ensures var l := LayerOf(c).value;
      Final(c, m)[GROUP] ==
        (if l.parent.Val? then (if l.parent.v.name.Some? then Text(l.parent.v.name.value) else Nothing)
         else if c.group.Under? then Text(c.group.parent)
         else Text(""))
  {
    GroupLayout();
    FreeEntry(c, m, 0, GROUP, ParentOrGroup);
    GroupValue(c, m, Final(c, m)[GROUP]);
  }

  /** ABSTRACT is the layer's own abstract, cleaned: "" when it is None or empty,
      and never holding a control character or a tag. */
  lemma AbstractCleaned(c: Call, m: map<Key, Value>)
    requires Complete(m) && Returns(c, m)
    ensures LayerOf(c).Ok?
    ensures var a := LayerOf(c).value.abstractText;
      && Final(c, m)[ABSTRACT] == Text(TagsAndControls(a))
      && (!Truthy(a) ==> Final(c, m)[ABSTRACT] == Text(""))
      && NoControl(Final(c, m)[ABSTRACT].text)
      && NoTag(Final(c, m)[ABSTRACT].text)
  {
    AbstractLayout();
    FreeEntry(c, m, 0, ABSTRACT, Of(Cleaned(TagsAndControlsCleaner, Just(Abstract))));
    AbstractValue(c, m, Final(c, m)[ABSTRACT]);
    TagsAndControlsSpec(LayerOf(c).value.abstractText);
  }

  /** KEYWORDS is the layer's keywords without the None entries, in order, joined
      by ", "; a layer whose keywords are None makes `scrape` raise. */
  lemma KeywordsJoined(c: Call, m: map<Key, Value>)
    requires Complete(m) && Returns(c, m)
    ensures LayerOf(c).Ok? && LayerOf(c).value.keywords.Some?
    ensures Final(c, m)[KEYWORDS] == Text(Join(", ", Present(LayerOf(c).value.keywords.value)))
  {
    KeywordsLayout();
    FreeEntry(c, m, 1, KEYWORDS, PresentKeywords);
    KeywordsValue(c, m, Final(c, m)[KEYWORDS]);
  }

  /** LEGEND: "" when styles is None; a 'default' style decides alone (its legend, or "");
      else the only style's legend; else the first child's 'default' legend; else "". */
  lemma LegendOrder(c: Call, m: map<Key, Value>)
    requires Complete(m) && Returns(c, m)
    ensures LayerOf(c).Ok? && !LayerOf(c).value.styles.Absent?
    ensures var l := LayerOf(c).value; var f := Final(c, m)[LEGEND];
      && (l.styles.Null? ==> f == Text(""))
      && (l.styles.Val? && StyleNamed(l.styles.v, "default").Some? ==>
            f == (var st := StyleNamed(l.styles.v, "default").value;
                  if st.legend.Some? then Text(st.legend.value) else Text("")))
      && (l.styles.Val? && StyleNamed(l.styles.v, "default").None? && |l.styles.v| == 1 ==>
            f == (if l.styles.v[0].legend.Some? then Text(l.styles.v[0].legend.value) else Text("")))
      && ((l.styles.Val? && StyleNamed(l.styles.v, "default").None? && |l.styles.v| != 1 &&
           l.children.Val? && l.children.v != [] && l.children.v[0].styles.Val? &&
           StyleNamed(l.children.v[0].styles.v, "default").Some?) ==>
            f == (var st := StyleNamed(l.children.v[0].styles.v, "default").value;
                  if st.legend.Some? then Text(st.legend.value) else Text("")))
      && ((l.styles.Val? && StyleNamed(l.styles.v, "default").None? && |l.styles.v| != 1 &&
           !(l.children.Val? && l.children.v != [])) ==> f == Text(""))
  {
    LegendLayout();
    FreeEntry(c, m, 1, LEGEND, LegendChain);
    LegendValue(c, m, Final(c, m)[LEGEND]);
  }

  /** The provider has a contact that has an email attribute. */
  predicate HasEmail(p: Provider)
  {
    p.contact.Val? && !p.contact.v.email.Absent?
  }

  /** CONTACT: the contact's email when the provider's contact has one, else the
      provider's name; with neither, or with a provider that is None, the entry is
      not assigned; with no provider attribute, "". */
  lemma ContactFallback(c: Call, m: map<Key, Value>)
    requires Complete(m) && Returns(c, m)
    ensures var s := c.service; var f := Final(c, m)[CONTACT];
      && (s.provider.Absent? ==> f == Text(""))
      && (s.provider.Null? ==> f == m[CONTACT])
      && (s.provider.Val? && HasEmail(s.provider.v) && s.provider.v.contact.v.email.Val? ==>
            f == Text(s.provider.v.contact.v.email.v))
      && (s.provider.Val? && !HasEmail(s.provider.v) && s.provider.v.name.Val? ==> f == Text(s.provider.v.name.v))
      && (s.provider.Val? && !HasEmail(s.provider.v) && s.provider.v.name.Absent? ==> f == m[CONTACT])
  {
    ContactLayout();
    SharedEntry(c, m, 1, CONTACT, ContactChain);
    ContactValue(c, m, Final(c, m)[CONTACT]);
  }

  /** SERVICELINK is the service's `request` when it has that attribute, else its `url`,
      else ""; an attribute that is None gives a None entry. */
  lemma ServiceLinkFallback(c: Call, m: map<Key, Value>)
    requires Complete(m) && Returns(c, m)
    ensures var s := c.service; var f := Final(c, m)[SERVICELINK];
      && (s.request.Val? ==> f == Text(s.request.v))
      && (s.request.Null? ==> f == Nothing)
      && (s.request.Absent? && s.url.Val? ==> f == Text(s.url.v))
      && (s.request.Absent? && s.url.Null? ==> f == Nothing)
      && (s.request.Absent? && s.url.Absent? ==> f == Text(""))
  {
    ServiceLinkLayout();
    FreeEntry(c, m, 1, SERVICELINK, ServiceLinkChain);
    ServiceLinkValue(c, m, Final(c, m)[SERVICELINK]);
  }

  /** METADATA is the layer's only metadata URL, or "" when it has none or several;
      the service metadata URL is tried only when that raises (no `metadataUrls`, or
      an only entry without 'url'); and when every
      fallback raises the result is "", since the abstract search names `regex`. */
  lemma MetadataChain(c: Call, m: map<Key, Value>)
    requires Complete(m) && Returns(c, m)
    ensures LayerOf(c).Ok?
    ensures var l := LayerOf(c).value; var f := Final(c, m)[METADATA];
      && (l.metadataUrls.Val? && |l.metadataUrls.v| == 1 && l.metadataUrls.v[0].url.Some? ==>
            f == Text(l.metadataUrls.v[0].url.value))
      && (l.metadataUrls.Val? && |l.metadataUrls.v| != 1 ==> f == Text(""))
      && (SoleRaises(l) && c.service.metadataUrl.Val? ==> f == Text(c.service.metadataUrl.v))
      && (SoleRaises(l) && c.service.metadataUrl.Null? ==> f == Nothing)
      && (SoleRaises(l) && c.service.metadataUrl.Absent? ==> f == SubLayerUrl(l))
  {
    NameFallback(c, m);
    MetadataLayout();
    FreeEntry(c, m, 1, METADATA, MetadataFallbacks());
    MetadataValue(c, m, LayerOf(c).value, Final(c, m)[METADATA]);
  }

  /** UPDATE is "". */
  lemma UpdateBlank(c: Call, m: map<Key, Value>)
    requires Complete(m) && Returns(c, m)
    ensures Final(c, m)[UPDATE] == Text("")
  {
    UpdateLayout();
    FreeEntry(c, m, 1, UPDATE, Of(Just(Lit(""))));
  }

  /** MAX_ZOOM is 7, the map.geo.admin.ch zoom level of about 1:20000. */
  lemma ZoomSeven(c: Call, m: map<Key, Value>)
    requires Complete(m) && Returns(c, m)
    ensures Final(c, m)[MAX_ZOOM] == Integer(7)
  {
    ZoomLayout();
    FreeEntry(c, m, 2, MAX_ZOOM, Int(7));
  }

  /** The centre is the midpoint of a four-element WGS84 box, else of a four-element
      native box, else 46.78485 / 7.88932: CENTER_LAT from the second and fourth
      elements, CENTER_LON from the first and third. */
  lemma CentreFallback(c: Call, m: map<Key, Value>, lat: bool)
    requires Complete(m) && Returns(c, m)
    ensures LayerOf(c).Ok?
    ensures var l := LayerOf(c).value; var i := if lat then 1 else 0;
      var f := Final(c, m)[if lat then CENTER_LAT else CENTER_LON];
      && (FourItems(l.wgs84) ==>
            l.wgs84.v[i].Ordinate? && l.wgs84.v[i + 2].Ordinate? &&
            f == Number((l.wgs84.v[i].x + l.wgs84.v[i + 2].x) / 2.0))
      && (!FourItems(l.wgs84) && FourItems(l.bbox) ==>
            l.bbox.v[i].Ordinate? && l.bbox.v[i + 2].Ordinate? &&
            f == Number((l.bbox.v[i].x + l.bbox.v[i + 2].x) / 2.0))
      && (!FourItems(l.wgs84) && !FourItems(l.bbox) ==> f == Number(if lat then FallbackLat else FallbackLon))
  {
    var k := if lat then CENTER_LAT else CENTER_LON;
    CentreLayout(lat);
    FreeEntry(c, m, 2, k, CentreOr(lat));
    CentreValue(c, m, lat, Final(c, m)[k]);
  }

  /** BBOX is the WGS84 box joined by spaces when it has four elements; a WGS84
      attribute that is None or not four long gives the fixed box even when a
      native box exists, and so does a layer with neither box. Without a WGS84
      attribute, a non-empty native box is read from its first extent; a native box
      that is None raises, so a returned record never has one. */
  lemma BoxFallback(c: Call, m: map<Key, Value>)
    requires Complete(m) && Returns(c, m)
    ensures LayerOf(c).Ok?
    ensures var l := LayerOf(c).value;
      && (FourItems(l.wgs84) ==> Final(c, m)[BBOX] == Text(Join(" ", ShowItems(l.wgs84.v, c.host))))
      && (l.wgs84.Null? || (l.wgs84.Val? && |l.wgs84.v| != 4) ==> Final(c, m)[BBOX] == Text(FallbackBox))
      && (l.wgs84.Absent? && (l.bbox.Absent? || (l.bbox.Val? && l.bbox.v == [])) ==>
            Final(c, m)[BBOX] == Text(FallbackBox))
      && !(l.wgs84.Absent? && l.bbox.Null?)
      && (l.wgs84.Absent? && l.bbox.Val? && l.bbox.v != [] ==> ExtentBox(l, c.host, Final(c, m)[BBOX]))
  {
    BoxLayout();
    FreeEntry(c, m, 2, BBOX, BoxOrDefault);
    BoxValue(c, m, Final(c, m)[BBOX]);
  }

  // ---------------------------------------------------------------- dispatch

  /** A URL naming WMS takes the WMS branch whatever else it names, then WMTS, then WFS. */
  lemma DispatchOrder(t: string)
    ensures (Contains(t, "WMS") || Contains(t, "wms")) <==> BranchOf(t) == WmsBranch
    ensures BranchOf(t) == WmtsBranch <==>
      !(Contains(t, "WMS") || Contains(t, "wms")) && (Contains(t, "WMTS") || Contains(t, "wmts"))
    ensures BranchOf(t) == WfsBranch <==>
      !(Contains(t, "WMS") || Contains(t, "wms")) && !(Contains(t, "WMTS") || Contains(t, "wmts")) &&
      (Contains(t, "WFS") || Contains(t, "wfs"))
  {
  }

  /** SERVICETYPE names the branch taken, and only the three OGC branches return the record. */
  lemma ServiceTypeByUrl(c: Call, m: map<Key, Value>)
    requires Complete(m) && Returns(c, m)
    ensures BranchOf(c.source.url) in {WmsBranch, WmtsBranch, WfsBranch}
    ensures Final(c, m)[SERVICETYPE] ==
      Text(match BranchOf(c.source.url) case WmsBranch => "WMS" case WmtsBranch => "WMTS" case _ => "WFS")
  {
    if BranchOf(c.source.url) in {StacBranch, NoBranch} {
      OtherSources(c, m);
    }
    TailTyped(c);
    TypeOfTail(c, m, Tail(c), TypeName(BranchOf(c.source.url)));
  }

  /** The SERVICETYPE text of an OGC branch. */
  function TypeName(b: Branch): string
  {
    match b case WmsBranch => "WMS" case WmtsBranch => "WMTS" case _ => "WFS"
  }

  /** Every OGC tail, federal or not, ends its SERVICETYPE assignments with its branch's name. */
  lemma TailTyped(c: Call)
    requires BranchOf(c.source.url) in {WmsBranch, WmtsBranch, WfsBranch}
    ensures LastLate(Tail(c), SERVICETYPE, Of(Just(Lit(TypeName(BranchOf(c.source.url))))))
  {
    TailLayout();
  }

  /** A tail whose last SERVICETYPE assignment stores the literal `t` leaves `t` there. */
  lemma TypeOfTail(c: Call, m: map<Key, Value>, tail: Stmts, t: string)
    requires Complete(m) && Returns(c, m)
    requires Tail(c) == tail && LastLate(tail, SERVICETYPE, Of(Just(Lit(t))))
    ensures Final(c, m)[SERVICETYPE] == Text(t)
  {
    TailEntry(c, m, tail, SERVICETYPE, Of(Just(Lit(t))));
  }

  /** A source URL naming none of the OGC protocols gives None for STAC and False
      otherwise, unless a shared statement raised first; the record is never returned. */
  lemma OtherSources(c: Call, m: map<Key, Value>)
    requires Complete(m)
    requires BranchOf(c.source.url) in {StacBranch, NoBranch}
    ensures var r := Run(Plan(c), c, m).returned;
      r.Raised? || r == (if BranchOf(c.source.url) == StacBranch then NoneValue else FalseValue)
    ensures !Returns(c, m)
  {
  }

  /** No shared statement assigns MAPGEO, and neither does the WFS branch. */
  lemma MapgeoShared()
    ensures !WritesAny(Identity(), MAPGEO) && !WritesAny(Description(), MAPGEO)
    ensures !WritesAny(Position(), MAPGEO) && !WritesAny(WfsTail(), MAPGEO)
  {
  }

  /** The WFS branch leaves MAPGEO as it was. */
  lemma WfsKeepsMapgeo(c: Call, m: map<Key, Value>)
    requires Complete(m)
    requires BranchOf(c.source.url) == WfsBranch
    ensures Final(c, m)[MAPGEO] == m[MAPGEO]
  {
    MapgeoShared();
    NoneOfFour(Identity(), Description(), Position(), WfsTail(), MAPGEO);
    Untouched(Body(WfsTail()), MAPGEO, c, m);
  }

  /** The zoom level as the link shows it. */
  lemma ZoomText(c: Call, m: map<Key, Value>)
    requires Complete(m) && Returns(c, m)
    ensures Show(Final(c, m)[MAX_ZOOM], c.host) == "7"
  {
    ZoomSeven(c, m);
    assert Decimal(7) == "7";
  }

  /** Each branch's MAPGEO is its link's value on the final record. */
  lemma WmsMapgeo(c: Call, m: map<Key, Value>)
    requires Complete(m) && Returns(c, m)
    requires BranchOf(c.source.url) == WmsBranch && !IsBund(c)
    ensures Eval(Of(Cat(WmsLink(Title))), c, Final(c, m)) == Ok(Final(c, m)[MAPGEO])
  {
    WmsLinkLayout();
    TailEntry(c, m, WmsTail(), MAPGEO, Of(Cat(WmsLink(Title))));
  }

  lemma BundWmsMapgeo(c: Call, m: map<Key, Value>)
    requires Complete(m) && Returns(c, m)
    requires BranchOf(c.source.url) == WmsBranch && IsBund(c)
    ensures Eval(Of(Cat(BundWmsLink())), c, Final(c, m)) == Ok(Final(c, m)[MAPGEO])
  {
    BundWmsLinkLayout();
    TailEntry(c, m, BundWmsTail(), MAPGEO, Of(Cat(BundWmsLink())));
  }

  lemma WmtsMapgeo(c: Call, m: map<Key, Value>)
    requires Complete(m) && Returns(c, m)
    requires BranchOf(c.source.url) == WmtsBranch && !IsBund(c)
    ensures Eval(Of(Cat(WmtsLink(Id))), c, Final(c, m)) == Ok(Final(c, m)[MAPGEO])
  {
    WmtsLinkLayout();
    TailEntry(c, m, WmtsTail(), MAPGEO, Of(Cat(WmtsLink(Id))));
  }

  lemma BundWmtsMapgeo(c: Call, m: map<Key, Value>)
    requires Complete(m) && Returns(c, m)
    requires BranchOf(c.source.url) == WmtsBranch && IsBund(c)
    ensures Eval(Of(Cat(BundWmtsLink())), c, Final(c, m)) == Ok(Final(c, m)[MAPGEO])
  {
    BundWmtsLinkLayout();
    TailEntry(c, m, BundWmtsTail(), MAPGEO, Of(Cat(BundWmtsLink())));
  }

  /** The WMS map.geo.admin.ch link: prefix, "layers=WMS||", title, "||", service URL,
      "?||", id, "||", version, then "&swisssearch=" with the centre and "&zoom=7". */
  lemma WmsLinkText(c: Call, m: map<Key, Value>)
    requires Complete(m) && Returns(c, m)
    requires BranchOf(c.source.url) == WmsBranch && !IsBund(c)
    ensures LayerOf(c).Ok? && LayerOf(c).value.title.Some?
    ensures c.service.url.Val? && c.service.identification.version.Some?
    ensures Final(c, m)[MAPGEO] == Text(
      (c.prefix + "layers=WMS||" + LayerOf(c).value.title.value + "||" + c.service.url.v + "?||" +
       c.layerId + "||" + c.service.identification.version.value) +
      ("&swisssearch=" + Show(Final(c, m)[CENTER_LAT], c.host) + "%20" + Show(Final(c, m)[CENTER_LON], c.host) +
       "&zoom=7"))
  {
    WmsMapgeo(c, m);
    WmsLinkValue(Title, c, Final(c, m), Final(c, m)[MAPGEO]);
    TitleText(c, Final(c, m));
    ZoomText(c, m);
  }

  /** For the owner "Bund" the WMS link uses the provider's URL and stops after the version. */
  lemma BundWmsLinkText(c: Call, m: map<Key, Value>)
    requires Complete(m) && Returns(c, m)
    requires BranchOf(c.source.url) == WmsBranch && IsBund(c)
    ensures LayerOf(c).Ok? && LayerOf(c).value.title.Some?
    ensures c.service.provider.Val? && c.service.provider.v.url.Some? && c.service.identification.version.Some?
    ensures Final(c, m)[MAPGEO] == Text(
      (c.prefix + "layers=WMS||" + LayerOf(c).value.title.value + "||") +
      (c.service.provider.v.url.value + "?||" + c.layerId + "||" + c.service.identification.version.value))
  {
    BundWmsMapgeo(c, m);
    BundWmsLinkValue(c, Final(c, m), Final(c, m)[MAPGEO]);
  }

  /** The WMTS link: prefix, "layers=WMTS||", id, "||", service URL, then the centre and zoom. */
  lemma WmtsLinkText(c: Call, m: map<Key, Value>)
    requires Complete(m) && Returns(c, m)
    requires BranchOf(c.source.url) == WmtsBranch && !IsBund(c)
    ensures c.service.url.Val?
    ensures Final(c, m)[MAPGEO] == Text(
      (c.prefix + "layers=WMTS||" + c.layerId + "||" + c.service.url.v) +
      ("&swisssearch=" + Show(Final(c, m)[CENTER_LAT], c.host) + "%20" + Show(Final(c, m)[CENTER_LON], c.host) +
       "&zoom=7"))
  {
    WmtsMapgeo(c, m);
    WmtsLinkValue(Id, c, Final(c, m), Final(c, m)[MAPGEO]);
    IdText(c, Final(c, m));
    ZoomText(c, m);
  }

  /** For "Bund" the WMTS link is only the prefix, "layers=" and the layer id. */
  lemma BundWmtsLinkText(c: Call, m: map<Key, Value>)
    requires Complete(m) && Returns(c, m)
    requires BranchOf(c.source.url) == WmtsBranch && IsBund(c)
    ensures Final(c, m)[MAPGEO] == Text(c.prefix + "layers=" + c.layerId)
  {
    BundWmtsMapgeo(c, m);
    BundWmtsLinkValue(c, Final(c, m), Final(c, m)[MAPGEO]);
  }
}
