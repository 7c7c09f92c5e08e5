// The map.geo.admin.ch links the scrapers store under MAPGEO. Each is
// `r"" + prefix + ...`, which is `prefix + ...`; most end in the same query
// for the centre and the zoom level.
module Links {
  import opened Python
  import opened Capabilities
  import opened Record
  import opened Script

  /** prefix + "layers=WMS||" + tag + "||" + url + "?||" + id + "||" + version, then the
      centre query; the tag is the layer's title in most scrapers and its id in KT_GL. */
  function WmsLink(tag: Atom): Atoms
  {
    Chain(WmsLead(tag, Url), CentreQuery())
  }

  /** The WMS link up to the version, as the layer's part and the service's part. */
  function WmsLead(tag: Atom, url: Atom): Atoms
  {
    Chain(WmsNaming(tag), WmsAddress(url))
  }

  function WmsNaming(tag: Atom): Atoms
  {
    Plus(Prefix, Plus(Lit("layers=WMS||"), Plus(tag, Plus(Lit("||"), Done))))
  }

  function WmsAddress(url: Atom): Atoms
  {
    Plus(url, Plus(Lit("?||"), Plus(Id, Plus(Lit("||"), Plus(Version, Done)))))
  }

  /** "&swisssearch=" + str(CENTER_LAT) + "%20" + str(CENTER_LON) + "&zoom=" + str(MAX_ZOOM). */
  function CentreQuery(): Atoms
  {
    Plus(Lit("&swisssearch="), Plus(ShownField(CENTER_LAT), Plus(Lit("%20"), Plus(ShownField(CENTER_LON),
    Plus(Lit("&zoom="), Plus(ShownField(MAX_ZOOM), Done))))))
  }

  /** For "Bund", default.py names the provider's URL and has no centre query. */
  function BundWmsLink(): Atoms
  {
    WmsLead(Title, ProviderUrl)
  }

  /** prefix + "layers=WMTS||" + tag + "||" + url, then the centre query. */
  function WmtsLink(tag: Atom): Atoms
  {
    Chain(WmtsLead(tag), CentreQuery())
  }

  function WmtsLead(tag: Atom): Atoms
  {
    Plus(Prefix, Plus(Lit("layers=WMTS||"), Plus(tag, Plus(Lit("||"), Plus(Url, Done)))))
  }

  function BundWmtsLink(): Atoms
  {
    Plus(Prefix, Plus(Lit("layers="), Plus(Id, Done)))
  }

  /** KT_BE.py:26-29: the layer kind is the record's SERVICETYPE. */
  function TypedWmsLink(): Atoms
  {
    Chain(Chain(TypedNaming(), WmsAddress(Url)), CentreQuery())
  }

  function TypedNaming(): Atoms
  {
    Plus(Prefix, Plus(Lit("layers="), Plus(FieldText(SERVICETYPE), Plus(Lit("||"), Plus(Id, Plus(Lit("||"), Done))))))
  }

  /** KT_ZH.py:65-67: the layer kind is what follows the first space of SERVICETYPE. */
  function KindWmtsLink(): Atoms
  {
    Chain(KindWmtsLead(), CentreQuery())
  }

  function KindWmtsLead(): Atoms
  {
    Plus(Prefix, Plus(Lit("layers="), Plus(AfterSpaceOf(SERVICETYPE), Plus(Lit("||"), Plus(Id, Plus(Lit("||"),
    Plus(Url, Done)))))))
  }

  // ---------------------------------------------------------------- frames

  /** No link reads MAPGEO, so each can be the last statement of a branch. */
  lemma NamingFree(tag: Atom)
    requires !AtomReads(tag, MAPGEO)
    ensures !AtomsRead(WmsNaming(tag), MAPGEO) && !AtomsRead(WmtsLead(tag), MAPGEO)
  {
    assert !AtomsRead(WmsNaming(tag).more.more, MAPGEO);
    assert !AtomsRead(WmtsLead(tag).more.more, MAPGEO);
  }

  lemma AddressFree(url: Atom)
    requires !AtomReads(url, MAPGEO)
    ensures !AtomsRead(WmsAddress(url), MAPGEO)
  {
  }

  lemma CentreQueryFree()
    ensures !AtomsRead(CentreQuery(), MAPGEO)
  {
  }

  lemma WmsLeadFree(tag: Atom, url: Atom)
    requires !AtomReads(tag, MAPGEO) && !AtomReads(url, MAPGEO)
    ensures !AtomsRead(WmsLead(tag, url), MAPGEO)
  {
    ChainReads(WmsNaming(tag), WmsAddress(url), MAPGEO);
    NamingFree(tag);
    AddressFree(url);
  }

  lemma WmsLinkFree(tag: Atom)
    requires !AtomReads(tag, MAPGEO)
    ensures !AtomsRead(WmsLink(tag), MAPGEO)
  {
    ChainReads(WmsLead(tag, Url), CentreQuery(), MAPGEO);
    WmsLeadFree(tag, Url);
    CentreQueryFree();
  }

  lemma WmtsLinkFree(tag: Atom)
    requires !AtomReads(tag, MAPGEO)
    ensures !AtomsRead(WmtsLink(tag), MAPGEO)
  {
    ChainReads(WmtsLead(tag), CentreQuery(), MAPGEO);
    NamingFree(tag);
    CentreQueryFree();
  }

  lemma TypedWmsLinkFree()
    ensures !AtomsRead(TypedWmsLink(), MAPGEO)
  {
    ChainReads(Chain(TypedNaming(), WmsAddress(Url)), CentreQuery(), MAPGEO);
    ChainReads(TypedNaming(), WmsAddress(Url), MAPGEO);
    AddressFree(Url);
    CentreQueryFree();
  }

  lemma KindWmtsLinkFree()
    ensures !AtomsRead(KindWmtsLink(), MAPGEO)
  {
    ChainReads(KindWmtsLead(), CentreQuery(), MAPGEO);
    CentreQueryFree();
  }

  /** A link group that assigns MAPGEO once, from a link that does not read it. */
  lemma MapLate(link: Atoms)
    requires !AtomsRead(link, MAPGEO)
    ensures LastLate(Cons(Store(MAPGEO, Of(Cat(link))), Nil), MAPGEO, Of(Cat(link)))
  {
  }

  // ---------------------------------------------------------------- text

  /** The centre query as text: it never raises, since it shows every value with str(). */
  lemma CentreQueryText(c: Call, f: map<Key, Value>)
    requires Complete(f)
    ensures AllText(CentreQuery(), c, f)
    ensures TextsOf(CentreQuery(), c, f) ==
      "&swisssearch=" + Show(f[CENTER_LAT], c.host) + "%20" + Show(f[CENTER_LON], c.host) +
      "&zoom=" + Show(f[MAX_ZOOM], c.host)
  {
    Peel(CentreQuery().more.more, c, f);
    Peel(CentreQuery().more.more.more.more, c, f);
  }

  lemma WmsNamingText(tag: Atom, c: Call, f: map<Key, Value>)
    requires Complete(f) && AllText(WmsNaming(tag), c, f)
    ensures EvalAtom(tag, c, f).Ok? && EvalAtom(tag, c, f).value.Some?
    ensures TextsOf(WmsNaming(tag), c, f) == c.prefix + "layers=WMS||" + EvalAtom(tag, c, f).value.value + "||"
  {
    Peel(WmsNaming(tag).more.more, c, f);
  }

  lemma WmsAddressText(url: Atom, c: Call, f: map<Key, Value>)
    requires Complete(f) && AllText(WmsAddress(url), c, f)
    ensures EvalAtom(url, c, f).Ok? && EvalAtom(url, c, f).value.Some?
    ensures LayerOf(c).Ok? && c.service.identification.version.Some?
    ensures TextsOf(WmsAddress(url), c, f) ==
      EvalAtom(url, c, f).value.value + "?||" + c.layerId + "||" + c.service.identification.version.value
  {
    Peel(WmsAddress(url), c, f);
    Peel(WmsAddress(url).more.more, c, f);
    Peel(WmsAddress(url).more.more.more.more, c, f);
  }

  lemma WmsLeadText(tag: Atom, url: Atom, c: Call, f: map<Key, Value>)
    requires Complete(f) && AllText(WmsLead(tag, url), c, f)
    ensures EvalAtom(tag, c, f).Ok? && EvalAtom(tag, c, f).value.Some?
    ensures EvalAtom(url, c, f).Ok? && EvalAtom(url, c, f).value.Some?
    ensures LayerOf(c).Ok? && c.service.identification.version.Some?
    ensures TextsOf(WmsLead(tag, url), c, f) ==
      c.prefix + "layers=WMS||" + EvalAtom(tag, c, f).value.value + "||" + EvalAtom(url, c, f).value.value + "?||" +
      c.layerId + "||" + c.service.identification.version.value
  {
    ChainText(WmsNaming(tag), WmsAddress(url), c, f);
    WmsNamingText(tag, c, f);
    WmsAddressText(url, c, f);
  }

  lemma WmtsLeadText(tag: Atom, c: Call, f: map<Key, Value>)
    requires Complete(f) && AllText(WmtsLead(tag), c, f)
    ensures EvalAtom(tag, c, f).Ok? && EvalAtom(tag, c, f).value.Some?
    ensures c.service.url.Val?
    ensures TextsOf(WmtsLead(tag), c, f) ==
      c.prefix + "layers=WMTS||" + EvalAtom(tag, c, f).value.value + "||" + c.service.url.v
  {
    Peel(WmtsLead(tag).more.more, c, f);
    Peel(WmtsLead(tag).more.more.more.more, c, f);
  }

  lemma TypedNamingText(c: Call, f: map<Key, Value>)
    requires Complete(f) && AllText(TypedNaming(), c, f)
    ensures f[SERVICETYPE].Text? && LayerOf(c).Ok?
    ensures TextsOf(TypedNaming(), c, f) == c.prefix + "layers=" + f[SERVICETYPE].text + "||" + c.layerId + "||"
  {
    Peel(TypedNaming().more.more, c, f);
    Peel(TypedNaming().more.more.more.more, c, f);
  }

  lemma KindWmtsLeadText(c: Call, f: map<Key, Value>)
    requires Complete(f) && AllText(KindWmtsLead(), c, f)
    ensures f[SERVICETYPE].Text? && LayerOf(c).Ok? && c.service.url.Val?
    ensures TextsOf(KindWmtsLead(), c, f) ==
      c.prefix + "layers=" + AfterFirstSpace(f[SERVICETYPE].text) + "||" + c.layerId + "||" + c.service.url.v
  {
    var p := KindWmtsLead();
    Peel(p, c, f);
    Peel(p.more, c, f);
    Peel(p.more.more, c, f);
    Peel(p.more.more.more, c, f);
    Peel(p.more.more.more.more, c, f);
    Peel(p.more.more.more.more.more, c, f);
    Peel(p.more.more.more.more.more.more, c, f);
    FixedTexts(c, f);
    AfterSpaceText(SERVICETYPE, c, f);
    LayerIdText(c, f);
    UrlText(c, f);
  }

  // What the atoms of the links evaluate to, when they give a text.

  lemma FixedTexts(c: Call, f: map<Key, Value>)
    requires Complete(f)
    ensures EvalAtom(Prefix, c, f) == Ok(Some(c.prefix))
    ensures forall t :: EvalAtom(Lit(t), c, f) == Ok(Some(t))
  {
  }

  lemma AfterSpaceText(k: Key, c: Call, f: map<Key, Value>)
    requires Complete(f) && EvalAtom(AfterSpaceOf(k), c, f).Ok?
    ensures f[k].Text? && EvalAtom(AfterSpaceOf(k), c, f).value == Some(AfterFirstSpace(f[k].text))
  {
    var r := EvalAtom(AfterSpaceOf(k), c, f);
    if f[k].Text? {
      var t := AfterFirstSpace(f[k].text);
      assert r == Ok(Some(t));
    }
  }

  lemma LayerIdText(c: Call, f: map<Key, Value>)
    requires Complete(f) && EvalAtom(Id, c, f).Ok?
    ensures LayerOf(c).Ok? && EvalAtom(Id, c, f).value == Some(c.layerId)
  {
  }

  lemma UrlText(c: Call, f: map<Key, Value>)
    requires Complete(f) && EvalAtom(Url, c, f).Ok? && EvalAtom(Url, c, f).value.Some?
    ensures c.service.url.Val? && EvalAtom(Url, c, f).value == Some(c.service.url.v)
  {
  }

  // ---------------------------------------------------------------- values

  /** What each link evaluates to on a record, when it evaluates at all. */
  lemma WmsLinkValue(tag: Atom, c: Call, f: map<Key, Value>, v: Value)
    requires Complete(f) && Eval(Of(Cat(WmsLink(tag))), c, f) == Ok(v)
    ensures EvalAtom(tag, c, f).Ok? && EvalAtom(tag, c, f).value.Some?
    ensures LayerOf(c).Ok? && c.service.url.Val? && c.service.identification.version.Some?
    ensures v == Text(
      (c.prefix + "layers=WMS||" + EvalAtom(tag, c, f).value.value + "||" + c.service.url.v + "?||" +
       c.layerId + "||" + c.service.identification.version.value) +
      ("&swisssearch=" + Show(f[CENTER_LAT], c.host) + "%20" + Show(f[CENTER_LON], c.host) +
       "&zoom=" + Show(f[MAX_ZOOM], c.host)))
  {
    assert WmsLead(tag, Url) == Plus(Prefix, Chain(WmsNaming(tag).more, WmsAddress(Url)));
    assert Chain(WmsNaming(tag).more, WmsAddress(Url)) == Plus(Lit("layers=WMS||"), Chain(WmsNaming(tag).more.more, WmsAddress(Url)));
    CatPairValue(WmsLead(tag, Url), CentreQuery(), c, f, v);
    CentreQueryText(c, f);
    WmsLeadText(tag, Url, c, f);
  }

  lemma BundWmsLinkValue(c: Call, f: map<Key, Value>, v: Value)
    requires Complete(f) && Eval(Of(Cat(BundWmsLink())), c, f) == Ok(v)
    ensures LayerOf(c).Ok? && LayerOf(c).value.title.Some?
    ensures c.service.provider.Val? && c.service.provider.v.url.Some? && c.service.identification.version.Some?
    ensures v == Text(
      (c.prefix + "layers=WMS||" + LayerOf(c).value.title.value + "||") +
      (c.service.provider.v.url.value + "?||" + c.layerId + "||" + c.service.identification.version.value))
  {
    CatPairValue(WmsNaming(Title), WmsAddress(ProviderUrl), c, f, v);
    WmsNamingText(Title, c, f);
    WmsAddressText(ProviderUrl, c, f);
  }

  lemma WmtsLinkValue(tag: Atom, c: Call, f: map<Key, Value>, v: Value)
    requires Complete(f) && Eval(Of(Cat(WmtsLink(tag))), c, f) == Ok(v)
    ensures EvalAtom(tag, c, f).Ok? && EvalAtom(tag, c, f).value.Some?
    ensures c.service.url.Val?
    ensures v == Text(
      (c.prefix + "layers=WMTS||" + EvalAtom(tag, c, f).value.value + "||" + c.service.url.v) +
      ("&swisssearch=" + Show(f[CENTER_LAT], c.host) + "%20" + Show(f[CENTER_LON], c.host) +
       "&zoom=" + Show(f[MAX_ZOOM], c.host)))
  {
    CatPairValue(WmtsLead(tag), CentreQuery(), c, f, v);
    CentreQueryText(c, f);
    WmtsLeadText(tag, c, f);
  }

  lemma BundWmtsLinkValue(c: Call, f: map<Key, Value>, v: Value)
    requires Complete(f) && Eval(Of(Cat(BundWmtsLink())), c, f) == Ok(v)
    ensures LayerOf(c).Ok?
    ensures v == Text(c.prefix + "layers=" + c.layerId)
  {
    CatText(BundWmtsLink(), c, f);
  }

  lemma TypedWmsLinkValue(c: Call, f: map<Key, Value>, v: Value)
    requires Complete(f) && Eval(Of(Cat(TypedWmsLink())), c, f) == Ok(v)
    ensures f[SERVICETYPE].Text? && LayerOf(c).Ok?
    ensures c.service.url.Val? && c.service.identification.version.Some?
    ensures v == Text(
      (c.prefix + "layers=" + f[SERVICETYPE].text + "||" + c.layerId + "||") +
      (c.service.url.v + "?||" + c.layerId + "||" + c.service.identification.version.value) +
      ("&swisssearch=" + Show(f[CENTER_LAT], c.host) + "%20" + Show(f[CENTER_LON], c.host) +
       "&zoom=" + Show(f[MAX_ZOOM], c.host)))
  {
    CatPairValue(Chain(TypedNaming(), WmsAddress(Url)), CentreQuery(), c, f, v);
    ChainText(TypedNaming(), WmsAddress(Url), c, f);
    CentreQueryText(c, f);
    TypedNamingText(c, f);
    WmsAddressText(Url, c, f);
  }

  lemma KindWmtsLinkValue(c: Call, f: map<Key, Value>, v: Value)
    requires Complete(f) && Eval(Of(Cat(KindWmtsLink())), c, f) == Ok(v)
    ensures f[SERVICETYPE].Text? && LayerOf(c).Ok? && c.service.url.Val?
    ensures v == Text(
      (c.prefix + "layers=" + AfterFirstSpace(f[SERVICETYPE].text) + "||" + c.layerId + "||" + c.service.url.v) +
      ("&swisssearch=" + Show(f[CENTER_LAT], c.host) + "%20" + Show(f[CENTER_LON], c.host) +
       "&zoom=" + Show(f[MAX_ZOOM], c.host)))
  {
    CatPairValue(KindWmtsLead(), CentreQuery(), c, f, v);
    CentreQueryText(c, f);
    KindWmtsLeadText(c, f);
  }


  // ---------------------------------------------------------------- links at zoom 7

  /** The WMS link of a record at zoom 7, the layer named by its title. */
  lemma TitledWmsLinkText(c: Call, f: map<Key, Value>, v: Value)
    requires Complete(f) && Eval(Of(Cat(WmsLink(Title))), c, f) == Ok(v) && f[MAX_ZOOM] == Integer(7)
    ensures LayerOf(c).Ok? && LayerOf(c).value.title.Some?
    ensures c.service.url.Val? && c.service.identification.version.Some?
    ensures v == Text(
      (c.prefix + "layers=WMS||" + LayerOf(c).value.title.value + "||" + c.service.url.v + "?||" +
       c.layerId + "||" + c.service.identification.version.value) +
      ("&swisssearch=" + Show(f[CENTER_LAT], c.host) + "%20" + Show(f[CENTER_LON], c.host) + "&zoom=7"))
  {
    WmsLinkValue(Title, c, f, v);
    TitleText(c, f);
    assert Decimal(7) == "7";
  }

  /** The same link with the layer named by its id. */
  lemma IdWmsLinkText(c: Call, f: map<Key, Value>, v: Value)
    requires Complete(f) && Eval(Of(Cat(WmsLink(Id))), c, f) == Ok(v) && f[MAX_ZOOM] == Integer(7)
    ensures LayerOf(c).Ok? && c.service.url.Val? && c.service.identification.version.Some?
    ensures v == Text(
      (c.prefix + "layers=WMS||" + c.layerId + "||" + c.service.url.v + "?||" +
       c.layerId + "||" + c.service.identification.version.value) +
      ("&swisssearch=" + Show(f[CENTER_LAT], c.host) + "%20" + Show(f[CENTER_LON], c.host) + "&zoom=7"))
  {
    WmsLinkValue(Id, c, f, v);
    IdText(c, f);
    assert Decimal(7) == "7";
  }

  /** The WMTS link of a record at zoom 7, the layer named by its title. */
  lemma TitledWmtsLinkText(c: Call, f: map<Key, Value>, v: Value)
    requires Complete(f) && Eval(Of(Cat(WmtsLink(Title))), c, f) == Ok(v) && f[MAX_ZOOM] == Integer(7)
    ensures LayerOf(c).Ok? && LayerOf(c).value.title.Some? && c.service.url.Val?
    ensures v == Text(
      (c.prefix + "layers=WMTS||" + LayerOf(c).value.title.value + "||" + c.service.url.v) +
      ("&swisssearch=" + Show(f[CENTER_LAT], c.host) + "%20" + Show(f[CENTER_LON], c.host) + "&zoom=7"))
  {
    WmtsLinkValue(Title, c, f, v);
    TitleText(c, f);
    assert Decimal(7) == "7";
  }

  /** The same link with the layer named by its id. */
  lemma IdWmtsLinkText(c: Call, f: map<Key, Value>, v: Value)
    requires Complete(f) && Eval(Of(Cat(WmtsLink(Id))), c, f) == Ok(v) && f[MAX_ZOOM] == Integer(7)
    ensures LayerOf(c).Ok? && c.service.url.Val?
    ensures v == Text(
      (c.prefix + "layers=WMTS||" + c.layerId + "||" + c.service.url.v) +
      ("&swisssearch=" + Show(f[CENTER_LAT], c.host) + "%20" + Show(f[CENTER_LON], c.host) + "&zoom=7"))
  {
    WmtsLinkValue(Id, c, f, v);
    IdText(c, f);
    assert Decimal(7) == "7";
  }
  /** The two labels as text. */
  lemma TitleText(c: Call, f: map<Key, Value>)
    requires Complete(f) && EvalAtom(Title, c, f).Ok? && EvalAtom(Title, c, f).value.Some?
    ensures LayerOf(c).Ok? && LayerOf(c).value.title.Some?
    ensures EvalAtom(Title, c, f).value.value == LayerOf(c).value.title.value
  {
  }

  lemma IdText(c: Call, f: map<Key, Value>)
    requires Complete(f) && EvalAtom(Id, c, f).Ok?
    ensures LayerOf(c).Ok? && EvalAtom(Id, c, f) == Ok(Some(c.layerId))
  {
  }
}
