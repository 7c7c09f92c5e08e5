// What the expressions the owner scrapers share evaluate to, when they evaluate.
module ExprFacts {
  import opened Python
  import opened Capabilities
  import opened Cleaning
  import opened Record
  import opened Script

  /** A plain read stores what it read, None as None. */
  lemma ReadValue(a: Atom, c: Call, m: map<Key, Value>, v: Value)
    requires Complete(m) && Eval(Of(Just(a)), c, m) == Ok(v)
    ensures EvalAtom(a, c, m).Ok? && v == Of1(EvalAtom(a, c, m).value)
  {
  }

  // What the plain reads of the service and the layer store, when they succeed.

  lemma ServiceKindAtom(c: Call, m: map<Key, Value>)
    requires Complete(m)
    ensures EvalAtom(ServiceKind, c, m).Ok?
    ensures Of1(EvalAtom(ServiceKind, c, m).value) == Of1(c.service.identification.kind)
  {
  }

  lemma ServiceAbstractAtom(c: Call, m: map<Key, Value>)
    requires Complete(m)
    ensures EvalAtom(ServiceAbstract, c, m).Ok?
    ensures Of1(EvalAtom(ServiceAbstract, c, m).value) == Of1(c.service.identification.abstractText)
  {
  }

  lemma IdAtom(c: Call, m: map<Key, Value>)
    requires Complete(m) && EvalAtom(Id, c, m).Ok?
    ensures LayerOf(c).Ok? && Of1(EvalAtom(Id, c, m).value) == Text(c.layerId)
  {
  }

  lemma ProviderNameAtom(c: Call, m: map<Key, Value>)
    requires Complete(m) && EvalAtom(ProviderName, c, m).Ok?
    ensures var p := c.service.provider;
      p.Val? && !p.v.name.Absent? &&
      Of1(EvalAtom(ProviderName, c, m).value) == (if p.v.name.Val? then Text(p.v.name.v) else Nothing)
  {
  }

  lemma ContactNameAtom(c: Call, m: map<Key, Value>)
    requires Complete(m) && EvalAtom(ContactName, c, m).Ok?
    ensures var p := c.service.provider;
      p.Val? && p.v.contact.Val? && !p.v.contact.v.name.Absent? &&
      Of1(EvalAtom(ContactName, c, m).value) == (if p.v.contact.v.name.Val? then Text(p.v.contact.v.name.v) else Nothing)
  {
  }

  lemma ContactEmailAtom(c: Call, m: map<Key, Value>)
    requires Complete(m) && EvalAtom(ContactEmail, c, m).Ok?
    ensures var p := c.service.provider;
      p.Val? && p.v.contact.Val? && !p.v.contact.v.email.Absent? &&
      Of1(EvalAtom(ContactEmail, c, m).value) == (if p.v.contact.v.email.Val? then Text(p.v.contact.v.email.v) else Nothing)
  {
  }

  lemma ServiceMetadataUrlAtom(c: Call, m: map<Key, Value>)
    requires Complete(m) && EvalAtom(ServiceMetadataUrl, c, m).Ok?
    ensures var u := c.service.metadataUrl;
      !u.Absent? && Of1(EvalAtom(ServiceMetadataUrl, c, m).value) == (if u.Val? then Text(u.v) else Nothing)
  {
  }

  lemma AbstractAtom(c: Call, m: map<Key, Value>)
    requires Complete(m) && EvalAtom(Abstract, c, m).Ok?
    ensures LayerOf(c).Ok? && EvalAtom(Abstract, c, m).value == LayerOf(c).value.abstractText
  {
  }

  lemma ParentAbstractAtom(c: Call, m: map<Key, Value>)
    requires Complete(m) && EvalAtom(ParentAbstract, c, m).Ok?
    ensures LayerOf(c).Ok? && LayerOf(c).value.parent.Val?
    ensures EvalAtom(ParentAbstract, c, m).value == LayerOf(c).value.parent.v.abstractText
  {
  }

  /** A literal stores its text. */
  lemma LitValue(t: string, c: Call, m: map<Key, Value>, v: Value)
    requires Complete(m) && Eval(Of(Just(Lit(t))), c, m) == Ok(v)
    ensures v == Text(t)
  {
  }

  /** `remove_newline(x)` of a read: the read succeeded, the cleaner is defined, and
      the entry is the cleaned text. */
  lemma CleanedValue(how: Cleaner, a: Atom, c: Call, m: map<Key, Value>, v: Value)
    requires Complete(m) && Eval(Of(Cleaned(how, Just(a))), c, m) == Ok(v)
    ensures !how.Missing? && EvalAtom(a, c, m).Ok?
    ensures v == Text(Clean(how, EvalAtom(a, c, m).value).value)
  {
    var r := EvalStr(Cleaned(how, Just(a)), c, m);
    assert r.Ok? && v == Of1(r.value);
    assert EvalStr(Just(a), c, m) == EvalAtom(a, c, m);
  }

  /** An expression on the layer that gave a value: the layer exists and the value
      is the expression's on it. */
  lemma OnLayerValue(e: Expr, c: Call, m: map<Key, Value>, v: Value)
    requires Complete(m) && OnLayer(e) && Eval(e, c, m) == Ok(v)
    ensures LayerOf(c).Ok? && LayerExpr(e, LayerOf(c).value, c) == Ok(v)
  {
  }

  /** `styles['default']['legend'] if 'default' in styles.keys() else ""`. */
  lemma LegendIfDefaultRead(l: Layer, c: Call, v: Value)
    requires LayerExpr(LegendIfDefault, l, c) == Ok(v)
    ensures l.styles.Val?
    ensures StyleNamed(l.styles.v, "default").None? ==> v == Text("")
    ensures StyleNamed(l.styles.v, "default").Some? ==>
      StyleNamed(l.styles.v, "default").value.legend.Some? &&
      v == Text(StyleNamed(l.styles.v, "default").value.legend.value)
  {
  }

  /** `styles['default']['legend'] if 'legend' in styles.keys() else ""`: the test is on a
      style named "legend", the read on the style named "default". */
  lemma LegendIfLegendKeyRead(l: Layer, c: Call, v: Value)
    requires LayerExpr(LegendIfLegendKey, l, c) == Ok(v)
    ensures l.styles.Val?
    ensures StyleNamed(l.styles.v, "legend").None? ==> v == Text("")
    ensures StyleNamed(l.styles.v, "legend").Some? ==>
      StyleNamed(l.styles.v, "default").Some? && StyleNamed(l.styles.v, "default").value.legend.Some? &&
      v == Text(StyleNamed(l.styles.v, "default").value.legend.value)
  {
  }

  /** `styles['default']['legend'] if len(styles) == 1 else ""`. */
  lemma LegendIfSingleRead(l: Layer, c: Call, v: Value)
    requires LayerExpr(LegendIfSingle, l, c) == Ok(v)
    ensures l.styles.Val?
    ensures |l.styles.v| != 1 ==> v == Text("")
    ensures |l.styles.v| == 1 ==>
      l.styles.v[0].name == "default" && l.styles.v[0].legend.Some? && v == Text(l.styles.v[0].legend.value)
  {
  }

  /** `metadataUrls[0]['url'] if 0 in metadataUrls else ""`: a metadata entry is a
      dictionary, never equal to 0, so the result is "" whenever the list exists. */
  lemma MetadataUrlIfZeroRead(l: Layer, c: Call, v: Value)
    requires LayerExpr(MetadataUrlIfZero, l, c) == Ok(v)
    ensures l.metadataUrls.Val? && v == Text("")
  {
  }

  /** `metadataUrls[0]['url'] if len(metadataUrls) == 1 else ""`. */
  lemma SoleMetadataRead(l: Layer, c: Call, v: Value)
    requires LayerExpr(SoleMetadataUrl, l, c) == Ok(v)
    ensures l.metadataUrls.Val?
    ensures |l.metadataUrls.v| != 1 ==> v == Text("")
    ensures |l.metadataUrls.v| == 1 ==> l.metadataUrls.v[0].url.Some? && v == Text(l.metadataUrls.v[0].url.value)
  {
  }

  /** `", ".join(layer.keywords + service.identification.keywords)`: both lists exist,
      hold no None, and are joined in that order. */
  lemma JoinedKeywordsRead(l: Layer, c: Call, v: Value)
    requires LayerExpr(JoinedKeywords, l, c) == Ok(v)
    ensures l.keywords.Some? && c.service.identification.keywords.Some?
    ensures var all := l.keywords.value + c.service.identification.keywords.value;
      (forall k :: 0 <= k < |all| ==> all[k].Some?) && v == Text(Join(", ", Texts(all)))
  {
  }

  /** `layer.keywords`, None as None. */
  lemma LayerKeywordsRead(l: Layer, c: Call, v: Value)
    requires LayerExpr(LayerKeywords, l, c) == Ok(v)
    ensures v == if l.keywords.Some? then Words(l.keywords.value) else Nothing
  {
  }

  /** `layer.parent.name if layer.parent is not None else ""`. */
  lemma ParentNameRead(l: Layer, c: Call, v: Value)
    requires LayerExpr(ParentNameOrBlank, l, c) == Ok(v)
    ensures !l.parent.Absent?
    ensures l.parent.Null? ==> v == Text("")
    ensures l.parent.Val? ==> v == Of1(l.parent.v.name)
  {
  }

  /** `v` is `(box[i] + box[j]) / 2` for a box that has both as numbers. */
  predicate MidIs(v: Value, a: Attr<seq<BoxItem>>, i: nat, j: nat)
  {
    a.Val? && i < |a.v| && j < |a.v| && a.v[i].Ordinate? && a.v[j].Ordinate? &&
    v == Number((a.v[i].x + a.v[j].x) / 2.0)
  }

  /** `(box[i] + box[j]) / 2`: both are numbers of a box that has them. */
  lemma MidRead(b: Box, i: nat, j: nat, l: Layer, c: Call, v: Value)
    requires LayerExpr(Mid(b, i, j), l, c) == Ok(v)
    ensures MidIs(v, BoxOf(l, b), i, j)
  {
  }

  /** `' '.join(str(elem) for elem in box)`. */
  lemma JoinedRead(b: Box, l: Layer, c: Call, v: Value)
    requires LayerExpr(Joined(b), l, c) == Ok(v)
    ensures BoxOf(l, b).Val? && v == Text(Join(" ", ShowItems(BoxOf(l, b).v, c.host)))
  {
  }

  // ---------------------------------------------------------------- composite abstracts

  /** The layer's parent exists and has an abstract. */
  predicate ParentHasAbstract(l: Layer)
  {
    l.parent.Val? && l.parent.v.abstractText.Some?
  }

  /** `str(layer.abstract) + " " + layer.parent.abstract` when the parent has an
      abstract, else `otherwise`. */
  function WithParent(l: Layer, otherwise: Option<string>): Option<string>
  {
    if ParentHasAbstract(l) then Some(Shown(l.abstractText) + " " + l.parent.v.abstractText.value)
    else otherwise
  }

  /** A string expression that gave a value. */
  lemma StrValue(s: Str, c: Call, m: map<Key, Value>, v: Value)
    requires Complete(m) && Eval(Of(s), c, m) == Ok(v)
    ensures EvalStr(s, c, m).Ok? && v == Of1(EvalStr(s, c, m).value)
  {
  }

  /** `s.replace(pat, '')`: `s` was a string. */
  lemma ReplacedValue(s: Str, pat: Pattern, c: Call, m: map<Key, Value>, v: Value)
    requires Complete(m) && Eval(Of(Replaced(s, pat)), c, m) == Ok(v)
    ensures EvalStr(s, c, m).Ok? && EvalStr(s, c, m).value.Some?
    ensures v == Text(Replace(EvalStr(s, c, m).value.value, PatternText(pat), ""))
  {
    StrValue(Replaced(s, pat), c, m, v);
  }

  /** `s.replace(pat, '') if s is not None else ""`. */
  lemma ReplacedOrBlankValue(s: Str, pat: Pattern, c: Call, m: map<Key, Value>, v: Value)
    requires Complete(m) && Eval(Of(ReplacedOrBlank(s, pat)), c, m) == Ok(v)
    ensures EvalStr(s, c, m).Ok?
    ensures var t := EvalStr(s, c, m).value; v == Text(if t.None? then "" else Replace(t.value, PatternText(pat), ""))
  {
    StrValue(ReplacedOrBlank(s, pat), c, m, v);
  }

  /** `remove_newline(s)` of any string expression. */
  lemma CleanedStrValue(how: Cleaner, s: Str, c: Call, m: map<Key, Value>, v: Value)
    requires Complete(m) && Eval(Of(Cleaned(how, s)), c, m) == Ok(v)
    ensures !how.Missing? && EvalStr(s, c, m).Ok?
    ensures v == Text(Clean(how, EvalStr(s, c, m).value).value)
  {
    StrValue(Cleaned(how, s), c, m, v);
  }

  /** The choice between the layer and parent abstracts and `x`: the layer exists and
      its parent attribute too; with a parent abstract the text is the joined one,
      without it is what `x` reads. */
  lemma WithParentOf(x: Atom, c: Call, m: map<Key, Value>, r: Option<string>)
    requires Complete(m) && EvalStr(WithParentAbstract(Just(x)), c, m) == Ok(r)
    ensures LayerOf(c).Ok? && !LayerOf(c).value.parent.Absent?
    ensures ParentHasAbstract(LayerOf(c).value) ==> r == WithParent(LayerOf(c).value, None)
    ensures !ParentHasAbstract(LayerOf(c).value) ==> EvalAtom(x, c, m) == Ok(r)
  {
    var joint := Cat(Plus(ShownAbstract, Plus(Lit(" "), Plus(ParentAbstract, Done))));
    IfParentAbstractOf(joint, Just(x), c, m, r);
    if ParentHasAbstract(LayerOf(c).value) {
      JointOf(c, m);
    }
  }

  /** `yes if layer.parent.abstract is not None else no`, with no parent taking `no`. */
  lemma IfParentAbstractOf(yes: Str, no: Str, c: Call, m: map<Key, Value>, r: Option<string>)
    requires Complete(m) && EvalStr(IfParentAbstract(yes, no), c, m) == Ok(r)
    ensures LayerOf(c).Ok? && !LayerOf(c).value.parent.Absent?
    ensures ParentHasAbstract(LayerOf(c).value) ==> EvalStr(yes, c, m) == Ok(r)
    ensures !ParentHasAbstract(LayerOf(c).value) ==> EvalStr(no, c, m) == Ok(r)
  {
  }

  /** `str(layer.abstract) + " " + layer.parent.abstract` for a parent with an abstract. */
  lemma JointOf(c: Call, m: map<Key, Value>)
    requires Complete(m) && LayerOf(c).Ok? && ParentHasAbstract(LayerOf(c).value)
    ensures EvalStr(Cat(Plus(ShownAbstract, Plus(Lit(" "), Plus(ParentAbstract, Done)))), c, m) ==
      Ok(WithParent(LayerOf(c).value, None))
  {
    var l := LayerOf(c).value;
    assert EvalAtom(ShownAbstract, c, m) == Ok(Some(Shown(l.abstractText)));
    assert EvalAtom(ParentAbstract, c, m) == Ok(l.parent.v.abstractText);
  }

  /** `service.identification.abstract + " " + service.identification.accessconstraints`. */
  lemma ServiceTextOf(c: Call, m: map<Key, Value>, r: Option<string>)
    requires Complete(m) && EvalStr(ServiceAbstractAndConstraints(), c, m) == Ok(r)
    ensures var id := c.service.identification;
      id.abstractText.Some? && id.accessConstraints.Some? &&
      r == Some(id.abstractText.value + " " + id.accessConstraints.value)
  {
  }

  /** `layer.abstract + " " + x`: the layer exists, has an abstract, and `x` is a string. */
  lemma AbstractThenOf(x: Atom, c: Call, m: map<Key, Value>, r: Option<string>)
    requires Complete(m) && EvalStr(Cat(Plus(Abstract, Plus(Lit(" "), Plus(x, Done)))), c, m) == Ok(r)
    ensures LayerOf(c).Ok? && LayerOf(c).value.abstractText.Some?
    ensures EvalAtom(x, c, m).Ok? && EvalAtom(x, c, m).value.Some?
    ensures r == Some(LayerOf(c).value.abstractText.value + " " + EvalAtom(x, c, m).value.value)
  {
    var a := EvalAtom(Abstract, c, m).value;
    assert EvalStr(Cat(Plus(Abstract, Plus(Lit(" "), Plus(x, Done)))), c, m) == CatFrom(a, Plus(Lit(" "), Plus(x, Done)), c, m);
    assert CatFrom(a, Plus(Lit(" "), Plus(x, Done)), c, m) == CatFrom(Some(a.value + " "), Plus(x, Done), c, m);
    var w := EvalAtom(x, c, m).value;
    assert CatFrom(Some(a.value + " "), Plus(x, Done), c, m) == CatFrom(Some(a.value + " " + w.value), Done, c, m);
  }

  /** `yes if test is not None else no`. */
  lemma IfSomeOf(test: Atom, yes: Str, no: Str, c: Call, m: map<Key, Value>, r: Option<string>)
    requires Complete(m) && EvalStr(IfSome(test, yes, no), c, m) == Ok(r)
    ensures EvalAtom(test, c, m).Ok?
    ensures EvalAtom(test, c, m).value.Some? ==> EvalStr(yes, c, m) == Ok(r)
    ensures EvalAtom(test, c, m).value.None? ==> EvalStr(no, c, m) == Ok(r)
  {
  }

  /** The sole URL found in the layer's abstract, else "". */
  lemma SoleUrlOfAbstract(c: Call, m: map<Key, Value>, r: Option<string>)
    requires Complete(m) && EvalStr(SoleUrlIn(Just(Abstract)), c, m) == Ok(r)
    ensures LayerOf(c).Ok? && LayerOf(c).value.abstractText.Some?
    ensures var urls := c.host.findUrls(LayerOf(c).value.abstractText.value);
      r == Some(if |urls| == 1 then urls[0] else "")
  {
  }

  /** The layer's abstract read as it is. */
  lemma AbstractText(c: Call, m: map<Key, Value>)
    requires Complete(m) && EvalAtom(Abstract, c, m).Ok?
    ensures LayerOf(c).Ok? && EvalAtom(Abstract, c, m) == Ok(LayerOf(c).value.abstractText)
  {
  }

  /** `layer.keywords` of the service, unless the layer is missing. */
  lemma KeywordsUnlessBracketsValue(c: Call, m: map<Key, Value>, v: Value)
    requires Complete(m) && Eval(KeywordsUnlessBrackets, c, m) == Ok(v)
    ensures LayerOf(c).Ok?
    ensures var ks := c.service.identification.keywords; v == if ks.Some? then Words(ks.value) else Nothing
  {
  }

  /** The group name the caller passed, or "". */
  lemma GroupOrBlankValue(c: Call, m: map<Key, Value>, v: Value)
    requires Complete(m) && Eval(GroupOrBlank, c, m) == Ok(v)
    ensures v == if c.group.Under? then Text(c.group.parent) else Text("")
  {
  }

  // ---------------------------------------------------------------- abstracts as stored

  /** The layer's abstract joined with its parent's, or the layer's own. */
  lemma LayerWithParent(c: Call, m: map<Key, Value>, r: Option<string>)
    requires Complete(m) && EvalStr(WithParentAbstract(Just(Abstract)), c, m) == Ok(r)
    ensures LayerOf(c).Ok? && r == WithParent(LayerOf(c).value, LayerOf(c).value.abstractText)
  {
    WithParentOf(Abstract, c, m, r);
  }

  /** The layer's abstract joined with its parent's, or the service's abstract. */
  lemma ServiceWithParent(c: Call, m: map<Key, Value>, r: Option<string>)
    requires Complete(m) && EvalStr(WithParentAbstract(Just(ServiceAbstract)), c, m) == Ok(r)
    ensures LayerOf(c).Ok? && r == WithParent(LayerOf(c).value, c.service.identification.abstractText)
  {
    WithParentOf(ServiceAbstract, c, m, r);
  }

  /** KT_AR.py: the joined or own abstract without "\n"; it must not be None. */
  lemma AbstractWithParentReplaced(c: Call, m: map<Key, Value>, v: Value)
    requires Complete(m) && Eval(Of(Replaced(WithParentAbstract(Just(Abstract)), Newline)), c, m) == Ok(v)
    ensures LayerOf(c).Ok?
    ensures var t := WithParent(LayerOf(c).value, LayerOf(c).value.abstractText);
      t.Some? && v == Text(Replace(t.value, "\n", ""))
  {
    ReplacedValue(WithParentAbstract(Just(Abstract)), Newline, c, m, v);
    LayerWithParent(c, m, EvalStr(WithParentAbstract(Just(Abstract)), c, m).value);
  }

  /** geodienste.py: the joined or own abstract without "\n", "" for None. */
  lemma AbstractWithParentOrBlank(c: Call, m: map<Key, Value>, v: Value)
    requires Complete(m) && Eval(Of(ReplacedOrBlank(WithParentAbstract(Just(Abstract)), Newline)), c, m) == Ok(v)
    ensures LayerOf(c).Ok?
    ensures var t := WithParent(LayerOf(c).value, LayerOf(c).value.abstractText);
      v == Text(if t.None? then "" else Replace(t.value, "\n", ""))
  {
    ReplacedOrBlankValue(WithParentAbstract(Just(Abstract)), Newline, c, m, v);
    LayerWithParent(c, m, EvalStr(WithParentAbstract(Just(Abstract)), c, m).value);
  }

  /** KT_ZH.py: the joined or own abstract with control characters made spaces. */
  lemma AbstractWithParentControls(c: Call, m: map<Key, Value>, v: Value)
    requires Complete(m) && Eval(Of(Cleaned(ControlsOnlyCleaner, WithParentAbstract(Just(Abstract)))), c, m) == Ok(v)
    ensures LayerOf(c).Ok?
    ensures v == Text(ControlsOnly(WithParent(LayerOf(c).value, LayerOf(c).value.abstractText)))
  {
    CleanedStrValue(ControlsOnlyCleaner, WithParentAbstract(Just(Abstract)), c, m, v);
    LayerWithParent(c, m, EvalStr(WithParentAbstract(Just(Abstract)), c, m).value);
  }

  /** KT_ZG.py: the joined abstract or the service's, with control characters made spaces. */
  lemma ServiceWithParentControls(c: Call, m: map<Key, Value>, v: Value)
    requires Complete(m) && Eval(Of(Cleaned(ControlsOnlyCleaner, WithParentAbstract(Just(ServiceAbstract)))), c, m) == Ok(v)
    ensures LayerOf(c).Ok?
    ensures v == Text(ControlsOnly(WithParent(LayerOf(c).value, c.service.identification.abstractText)))
  {
    CleanedStrValue(ControlsOnlyCleaner, WithParentAbstract(Just(ServiceAbstract)), c, m, v);
    ServiceWithParent(c, m, EvalStr(WithParentAbstract(Just(ServiceAbstract)), c, m).value);
  }

  /** KT_ZG.py: the joined abstract or the service's without "\n", "" for None. */
  lemma ServiceWithParentOrBlank(c: Call, m: map<Key, Value>, v: Value)
    requires Complete(m) && Eval(Of(ReplacedOrBlank(WithParentAbstract(Just(ServiceAbstract)), Newline)), c, m) == Ok(v)
    ensures LayerOf(c).Ok?
    ensures var t := WithParent(LayerOf(c).value, c.service.identification.abstractText);
      v == Text(if t.None? then "" else Replace(t.value, "\n", ""))
  {
    ReplacedOrBlankValue(WithParentAbstract(Just(ServiceAbstract)), Newline, c, m, v);
    ServiceWithParent(c, m, EvalStr(WithParentAbstract(Just(ServiceAbstract)), c, m).value);
  }

  /** KT_BE.py: the layer's and the parent's abstracts, both required, without "\n". */
  lemma JointAbstractReplaced(c: Call, m: map<Key, Value>, v: Value)
    requires Complete(m) && Eval(Of(Replaced(Cat(Plus(Abstract, Plus(Lit(" "), Plus(ParentAbstract, Done)))), Newline)), c, m) == Ok(v)
    ensures LayerOf(c).Ok? && LayerOf(c).value.abstractText.Some?
    ensures LayerOf(c).value.parent.Val? && LayerOf(c).value.parent.v.abstractText.Some?
    ensures var l := LayerOf(c).value;
      v == Text(Replace(l.abstractText.value + " " + l.parent.v.abstractText.value, "\n", ""))
  {
    var s := Cat(Plus(Abstract, Plus(Lit(" "), Plus(ParentAbstract, Done))));
    ReplacedValue(s, Newline, c, m, v);
    AbstractThenOf(ParentAbstract, c, m, EvalStr(s, c, m).value);
    ParentAbstractAtom(c, m);
  }

  /** KT_BS.py: abstract and access constraints, or the constraints alone for a layer
      without abstract, with every "\r\n" deleted. */
  lemma AbstractOrConstraintsCrlf(c: Call, m: map<Key, Value>, v: Value)
    requires Complete(m)
    requires Eval(Of(Cleaned(CrlfOnlyCleaner, IfSome(Abstract, Cat(Plus(Abstract, Plus(Lit(" "), Plus(AccessConstraints, Done)))),
      Just(AccessConstraints)))), c, m) == Ok(v)
    ensures LayerOf(c).Ok?
    ensures var a := LayerOf(c).value.abstractText; var ac := c.service.identification.accessConstraints;
      && (a.Some? ==> ac.Some? && v == Text(CrlfOnly(Some(a.value + " " + ac.value))))
      && (a.None? ==> v == Text(CrlfOnly(ac)))
  {
    var both := Cat(Plus(Abstract, Plus(Lit(" "), Plus(AccessConstraints, Done))));
    var s := IfSome(Abstract, both, Just(AccessConstraints));
    CleanedStrValue(CrlfOnlyCleaner, s, c, m, v);
    IfSomeOf(Abstract, both, Just(AccessConstraints), c, m, EvalStr(s, c, m).value);
    AbstractText(c, m);
    if LayerOf(c).value.abstractText.Some? {
      AbstractThenOf(AccessConstraints, c, m, EvalStr(s, c, m).value);
    }
  }

  /** The service's abstract and access constraints, both required, cleaned by `how`. */
  lemma ServiceTextCleaned(how: Cleaner, c: Call, m: map<Key, Value>, v: Value)
    requires Complete(m) && Eval(Of(Cleaned(how, ServiceAbstractAndConstraints())), c, m) == Ok(v)
    ensures var id := c.service.identification;
      !how.Missing? && id.abstractText.Some? && id.accessConstraints.Some? &&
      v == Text(Clean(how, Some(id.abstractText.value + " " + id.accessConstraints.value)).value)
  {
    CleanedStrValue(how, ServiceAbstractAndConstraints(), c, m, v);
    ServiceTextOf(c, m, EvalStr(ServiceAbstractAndConstraints(), c, m).value);
  }

  /** The same text with every "\r\n" deleted. */
  lemma ServiceTextCrlf(c: Call, m: map<Key, Value>, v: Value)
    requires Complete(m) && Eval(Of(Cleaned(CrlfOnlyCleaner, ServiceAbstractAndConstraints())), c, m) == Ok(v)
    ensures var id := c.service.identification;
      id.abstractText.Some? && id.accessConstraints.Some? &&
      v == Text(CrlfOnly(Some(id.abstractText.value + " " + id.accessConstraints.value)))
  {
    ServiceTextCleaned(CrlfOnlyCleaner, c, m, v);
  }

  /** The layer's own abstract cleaned by `how`. */
  lemma AbstractCleaned(how: Cleaner, c: Call, m: map<Key, Value>, v: Value)
    requires Complete(m) && Eval(Of(Cleaned(how, Just(Abstract))), c, m) == Ok(v)
    ensures !how.Missing? && LayerOf(c).Ok?
    ensures v == Text(Clean(how, LayerOf(c).value.abstractText).value)
  {
    CleanedValue(how, Abstract, c, m, v);
    AbstractText(c, m);
  }

  /** The layer's own abstract, None as None. */
  lemma AbstractRead(c: Call, m: map<Key, Value>, v: Value)
    requires Complete(m) && Eval(Of(Just(Abstract)), c, m) == Ok(v)
    ensures LayerOf(c).Ok? && v == Of1(LayerOf(c).value.abstractText)
  {
    ReadValue(Abstract, c, m, v);
    AbstractText(c, m);
  }

  /** The parent's abstract: the layer has a parent. */
  lemma ParentAbstractRead(c: Call, m: map<Key, Value>, v: Value)
    requires Complete(m) && Eval(Of(Just(ParentAbstract)), c, m) == Ok(v)
    ensures LayerOf(c).Ok? && LayerOf(c).value.parent.Val?
    ensures v == Of1(LayerOf(c).value.parent.v.abstractText)
  {
  }

  /** `' '` for a layer without abstract, else the abstract without its URLs and with
      control characters made spaces. */
  lemma StrippedAbstractValue(c: Call, m: map<Key, Value>, v: Value)
    requires Complete(m)
    requires Eval(Of(IfSome(Abstract, Cleaned(ControlsOnlyCleaner, WithoutUrls(Just(Abstract))), Just(Lit(" ")))), c, m) == Ok(v)
    ensures LayerOf(c).Ok?
    ensures var a := LayerOf(c).value.abstractText;
      v == Text(if a.None? then " " else ControlsOnly(Some(c.host.stripUrls(a.value))))
  {
    var yes := Cleaned(ControlsOnlyCleaner, WithoutUrls(Just(Abstract)));
    var s := IfSome(Abstract, yes, Just(Lit(" ")));
    StrValue(s, c, m, v);
    IfSomeOf(Abstract, yes, Just(Lit(" ")), c, m, EvalStr(s, c, m).value);
    AbstractText(c, m);
    var a := LayerOf(c).value.abstractText;
    if a.Some? {
      assert EvalStr(WithoutUrls(Just(Abstract)), c, m) == Ok(Some(c.host.stripUrls(a.value)));
    }
  }

  /** The one URL the host finds in `s`, else "". */
  function SoleUrl(h: Host, s: string): string
  {
    var urls := h.findUrls(s);
    if |urls| == 1 then urls[0] else ""
  }

  /** KT_SZ.py: the sole URL in the layer's abstract, "" without abstract. */
  lemma SoleUrlOrBlank(c: Call, m: map<Key, Value>, v: Value)
    requires Complete(m) && Eval(Of(IfSome(Abstract, SoleUrlIn(Just(Abstract)), Just(Lit("")))), c, m) == Ok(v)
    ensures LayerOf(c).Ok?
    ensures var a := LayerOf(c).value.abstractText; v == Text(if a.None? then "" else SoleUrl(c.host, a.value))
  {
    var s := IfSome(Abstract, SoleUrlIn(Just(Abstract)), Just(Lit("")));
    StrValue(s, c, m, v);
    IfSomeOf(Abstract, SoleUrlIn(Just(Abstract)), Just(Lit("")), c, m, EvalStr(s, c, m).value);
    AbstractText(c, m);
  }

  /** KT_VD.py: the sole URL in the layer's abstract, " " when that raises. */
  lemma SoleUrlOrSpace(c: Call, m: map<Key, Value>, v: Value)
    requires Complete(m) && Eval(Attempt(Of(SoleUrlIn(Just(Abstract))), Of(Just(Lit(" ")))), c, m) == Ok(v)
    ensures LayerOf(c).Ok? && LayerOf(c).value.abstractText.Some? ==>
      v == Text(SoleUrl(c.host, LayerOf(c).value.abstractText.value))
    ensures !(LayerOf(c).Ok? && LayerOf(c).value.abstractText.Some?) ==> v == Text(" ")
  {
    var r := Eval(Of(SoleUrlIn(Just(Abstract))), c, m);
    assert v == if r.Ok? then r.value else Text(" ");
    if LayerOf(c).Ok? && LayerOf(c).value.abstractText.Some? {
      var a := LayerOf(c).value.abstractText.value;
      assert EvalStr(SoleUrlIn(Just(Abstract)), c, m) == Ok(Some(SoleUrl(c.host, a)));
    } else {
      assert EvalStr(SoleUrlIn(Just(Abstract)), c, m).Err?;
    }
  }

  /** `abstract.replace(pat, '') if abstract is not None else ""`. */
  lemma AbstractOrBlank(pat: Pattern, c: Call, m: map<Key, Value>, v: Value)
    requires Complete(m) && Eval(Of(ReplacedOrBlank(Just(Abstract), pat)), c, m) == Ok(v)
    ensures LayerOf(c).Ok?
    ensures var a := LayerOf(c).value.abstractText;
      v == Text(if a.None? then "" else Replace(a.value, PatternText(pat), ""))
  {
    ReplacedOrBlankValue(Just(Abstract), pat, c, m, v);
    AbstractText(c, m);
  }

  // ---------------------------------------------------------------- KT_BS try-chains

  /** `l.styles['default']['legend']` can be read. */
  predicate HasDefaultLegend(l: Layer)
  {
    l.styles.Val? && StyleNamed(l.styles.v, "default").Some? && StyleNamed(l.styles.v, "default").value.legend.Some?
  }

  function DefaultLegendText(l: Layer): string
    requires HasDefaultLegend(l)
  {
    StyleNamed(l.styles.v, "default").value.legend.value
  }

  /** `l.metadataUrls[0]['url']` can be read. */
  predicate HasFirstUrl(l: Layer)
  {
    l.metadataUrls.Val? && l.metadataUrls.v != [] && l.metadataUrls.v[0].url.Some?
  }

  function FirstUrlText(l: Layer): string
    requires HasFirstUrl(l)
  {
    l.metadataUrls.v[0].url.value
  }

  /** A list attribute that exists and has a first element. */
  predicate HasFirst(a: Attr<seq<Layer>>)
  {
    a.Val? && a.v != []
  }

  lemma OwnLegendValue(l: Layer)
    ensures OwnLegend(l).Ok? <==> HasDefaultLegend(l)
    ensures HasDefaultLegend(l) ==> OwnLegend(l) == Ok(Text(DefaultLegendText(l)))
  {
  }

  lemma FirstUrlValue(l: Layer)
    ensures FirstUrl(l).Ok? <==> HasFirstUrl(l)
    ensures HasFirstUrl(l) ==> FirstUrl(l) == Ok(Text(FirstUrlText(l)))
  {
  }

  /** KT_BS.py:25-31: the first child's default legend, else the layer's own, else "". */
  lemma LegendTryChain(c: Call, m: map<Key, Value>, v: Value)
    requires Complete(m) && Eval(Attempt(ChildDefaultLegend, Attempt(OwnDefaultLegend, Of(Just(Lit(""))))), c, m) == Ok(v)
    ensures !LayerOf(c).Ok? ==> v == Text("")
    ensures LayerOf(c).Ok? ==>
      var l := LayerOf(c).value;
      v == if HasFirst(l.children) && HasDefaultLegend(l.children.v[0]) then Text(DefaultLegendText(l.children.v[0]))
           else if HasDefaultLegend(l) then Text(DefaultLegendText(l))
           else Text("")
  {
    TryTwice(ChildDefaultLegend, OwnDefaultLegend, Of(Just(Lit(""))), c, m);
    BlankEval(c, m);
    ChildLegendEval(c, m);
    OwnLegendEval(c, m);
  }

  /** The default style's legend URL of the layer. */
  lemma OwnLegendEval(c: Call, m: map<Key, Value>)
    requires Complete(m)
    ensures !LayerOf(c).Ok? ==> !Eval(OwnDefaultLegend, c, m).Ok?
    ensures LayerOf(c).Ok? ==> (Eval(OwnDefaultLegend, c, m).Ok? <==> HasDefaultLegend(LayerOf(c).value))
    ensures LayerOf(c).Ok? && HasDefaultLegend(LayerOf(c).value) ==>
      Eval(OwnDefaultLegend, c, m) == Ok(Text(DefaultLegendText(LayerOf(c).value)))
  {
    if LayerOf(c).Ok? {
      LayerEval(OwnDefaultLegend, LayerOf(c).value, c, m);
      OwnLegendValue(LayerOf(c).value);
    }
  }

  /** The default style's legend URL of the first child. */
  lemma ChildLegendEval(c: Call, m: map<Key, Value>)
    requires Complete(m)
    ensures !LayerOf(c).Ok? ==> !Eval(ChildDefaultLegend, c, m).Ok?
    ensures LayerOf(c).Ok? ==>
      var l := LayerOf(c).value;
      (Eval(ChildDefaultLegend, c, m).Ok? <==> HasFirst(l.children) && HasDefaultLegend(l.children.v[0])) &&
      (HasFirst(l.children) && HasDefaultLegend(l.children.v[0]) ==>
        Eval(ChildDefaultLegend, c, m) == Ok(Text(DefaultLegendText(l.children.v[0]))))
  {
    if LayerOf(c).Ok? {
      var l := LayerOf(c).value;
      LayerEval(ChildDefaultLegend, l, c, m);
      if HasFirst(l.children) {
        OwnLegendValue(l.children.v[0]);
      }
    }
  }

  /** KT_BS.py:34-40 and 92-98: the layer's first metadata URL, else that of the
      first element of `alt` (`layers` or `_children`), else "". */
  lemma MetadataTryChain(alt: Expr, c: Call, m: map<Key, Value>, v: Value)
    requires alt == SubLayerMetadataUrl || alt == ChildMetadataUrl
    requires Complete(m) && Eval(Attempt(FirstMetadataUrl, Attempt(alt, Of(Just(Lit(""))))), c, m) == Ok(v)
    ensures !LayerOf(c).Ok? ==> v == Text("")
    ensures LayerOf(c).Ok? ==>
      var l := LayerOf(c).value;
      var others := if alt == SubLayerMetadataUrl then l.sublayers else l.children;
      v == if HasFirstUrl(l) then Text(FirstUrlText(l))
           else if HasFirst(others) && HasFirstUrl(others.v[0]) then Text(FirstUrlText(others.v[0]))
           else Text("")
  {
    TryTwice(FirstMetadataUrl, alt, Of(Just(Lit(""))), c, m);
    BlankEval(c, m);
    OwnUrlEval(c, m);
    OtherUrlEval(alt, c, m);
  }

  /** `try: x except: try: y except: z`. */
  lemma TryTwice(x: Expr, y: Expr, z: Expr, c: Call, m: map<Key, Value>)
    requires Complete(m)
    ensures Eval(Attempt(x, Attempt(y, z)), c, m) ==
      if Eval(x, c, m).Ok? then Eval(x, c, m) else if Eval(y, c, m).Ok? then Eval(y, c, m) else Eval(z, c, m)
  {
    AttemptEval(x, Attempt(y, z), c, m);
    AttemptEval(y, z, c, m);
  }

  lemma BlankEval(c: Call, m: map<Key, Value>)
    requires Complete(m)
    ensures Eval(Of(Just(Lit(""))), c, m) == Ok(Text(""))
  {
  }

  /** `metadataUrls[0]['url']` on the layer. */
  lemma OwnUrlEval(c: Call, m: map<Key, Value>)
    requires Complete(m)
    ensures !LayerOf(c).Ok? ==> !Eval(FirstMetadataUrl, c, m).Ok?
    ensures LayerOf(c).Ok? ==> (Eval(FirstMetadataUrl, c, m).Ok? <==> HasFirstUrl(LayerOf(c).value))
    ensures LayerOf(c).Ok? && HasFirstUrl(LayerOf(c).value) ==>
      Eval(FirstMetadataUrl, c, m) == Ok(Text(FirstUrlText(LayerOf(c).value)))
  {
    if LayerOf(c).Ok? {
      LayerEval(FirstMetadataUrl, LayerOf(c).value, c, m);
      FirstUrlValue(LayerOf(c).value);
    }
  }

  /** `layers[0].metadataUrls[0]['url']` or `_children[0].metadataUrls[0]['url']` on the layer. */
  lemma OtherUrlEval(alt: Expr, c: Call, m: map<Key, Value>)
    requires alt == SubLayerMetadataUrl || alt == ChildMetadataUrl
    requires Complete(m)
    ensures !LayerOf(c).Ok? ==> !Eval(alt, c, m).Ok?
    ensures LayerOf(c).Ok? ==>
      var l := LayerOf(c).value;
      var others := if alt == SubLayerMetadataUrl then l.sublayers else l.children;
      (Eval(alt, c, m).Ok? <==> HasFirst(others) && HasFirstUrl(others.v[0])) &&
      (HasFirst(others) && HasFirstUrl(others.v[0]) ==> Eval(alt, c, m) == Ok(Text(FirstUrlText(others.v[0]))))
  {
    if LayerOf(c).Ok? {
      var l := LayerOf(c).value;
      LayerEval(alt, l, c, m);
      var others := if alt == SubLayerMetadataUrl then l.sublayers else l.children;
      FirstElement(others, if alt == SubLayerMetadataUrl then "layers" else "_children");
      if HasFirst(others) {
        FirstUrlValue(others.v[0]);
      }
    }
  }

  /** `xs[0]` of a list attribute. */
  lemma FirstElement<T>(a: Attr<seq<T>>, name: string)
    ensures FirstOf(a, name).Ok? <==> a.Val? && a.v != []
    ensures a.Val? && a.v != [] ==> FirstOf(a, name) == Ok(a.v[0])
  {
  }

  // ---------------------------------------------------------------- try blocks on the layer

  /** A box attribute whose first four elements are ordinates. */
  predicate Cornered(a: Attr<seq<BoxItem>>)
  {
    a.Val? && |a.v| >= 4 && a.v[0].Ordinate? && a.v[1].Ordinate? && a.v[2].Ordinate? && a.v[3].Ordinate?
  }

  /** The entries a try block assigns are distinct and its expressions read only the layer. */
  predicate LayerPairs(ps: seq<(Key, Expr)>)
  {
    && (forall j :: 0 <= j < |ps| ==> OnLayer(ps[j].1))
    && (forall i, j :: 0 <= i < j < |ps| ==> ps[i].0 != ps[j].0)
  }

  lemma {:induction false} PairsWriteAt(ps: seq<(Key, Expr)>, q: Key)
    ensures PairsWrite(ps, q) <==> exists j :: 0 <= j < |ps| && ps[j].0 == q
    decreases |ps|
  {
    if ps != [] {
      PairsWriteAt(ps[1..], q);
      if PairsWrite(ps[1..], q) {
        var j :| 0 <= j < |ps[1..]| && ps[1..][j].0 == q;
        assert ps[j + 1].0 == q;
      }
      if exists j :: 0 <= j < |ps| && ps[j].0 == q {
        var j :| 0 <= j < |ps| && ps[j].0 == q;
        if j > 0 {
          assert ps[1..][j - 1].0 == q;
        }
      }
    }
  }

  /** The assignments of a try block on the layer `l`: they all succeed exactly when
      every expression has a value on `l`, and then each entry holds its value. */
  lemma {:induction false} AssignOnLayer(ps: seq<(Key, Expr)>, l: Layer, c: Call, m: map<Key, Value>)
    requires Complete(m) && LayerOf(c) == Ok(l) && LayerPairs(ps)
    ensures Assign(ps, c, m).fault.None? <==> forall j :: 0 <= j < |ps| ==> LayerExpr(ps[j].1, l, c).Ok?
    ensures Assign(ps, c, m).fault.None? ==>
      forall j :: 0 <= j < |ps| ==> LayerExpr(ps[j].1, l, c) == Ok(Assign(ps, c, m).values[ps[j].0])
    decreases |ps|
  {
    if ps != [] {
      LayerEval(ps[0].1, l, c, m);
      var r := Eval(ps[0].1, c, m);
      if r.Ok? {
        var m1 := m[ps[0].0 := r.value];
        var rest := ps[1..];
        assert LayerPairs(rest) by {
          assert forall j :: 0 <= j < |rest| ==> rest[j] == ps[j + 1];
        }
        AssignOnLayer(rest, l, c, m1);
        AssignKeeps(rest, c, m1);
        PairsWriteAt(rest, ps[0].0);
        assert forall j :: 0 <= j < |rest| ==> rest[j] == ps[j + 1];
        assert !PairsWrite(rest, ps[0].0);
        assert Assign(ps, c, m) == Assign(rest, c, m1);
        if Assign(ps, c, m).fault.None? {
          forall j | 0 <= j < |ps|
            ensures LayerExpr(ps[j].1, l, c) == Ok(Assign(ps, c, m).values[ps[j].0])
          {
            if j > 0 {
              assert ps[j] == rest[j - 1];
            }
          }
        } else {
          var j :| 0 <= j < |rest| && !LayerExpr(rest[j].1, l, c).Ok?;
          assert ps[j + 1] == rest[j];
        }
      }
    }
  }

  /** Without a layer both halves of such a try block raise. */
  lemma TryWithoutLayer(body: seq<(Key, Expr)>, handler: seq<(Key, Expr)>, c: Call, m: map<Key, Value>)
    requires Complete(m) && body != [] && handler != [] && LayerPairs(body) && LayerPairs(handler)
    ensures LayerOf(c).Err? ==> Step(Try(body, handler), c, m).fault.Some?
  {
    if LayerOf(c).Err? {
      var r := Assign(body, c, m);
      assert Eval(body[0].1, c, m).Err?;
      assert r.fault.Some?;
      assert Eval(handler[0].1, c, r.values).Err?;
    }
  }

  /** `try: body except: handler` on the layer, when it raised nothing: the layer exists,
      and the entries hold the body's values when every one of them has a value, else
      the handler's. */
  lemma TryOnLayer(body: seq<(Key, Expr)>, handler: seq<(Key, Expr)>, c: Call, m: map<Key, Value>)
    requires Complete(m) && body != [] && handler != [] && LayerPairs(body) && LayerPairs(handler)
    requires Step(Try(body, handler), c, m).fault.None?
    ensures LayerOf(c).Ok?
    ensures var l := LayerOf(c).value; var v := Step(Try(body, handler), c, m).values;
      if forall j :: 0 <= j < |body| ==> LayerExpr(body[j].1, l, c).Ok? then
        forall j :: 0 <= j < |body| ==> LayerExpr(body[j].1, l, c) == Ok(v[body[j].0])
      else
        forall j :: 0 <= j < |handler| ==> LayerExpr(handler[j].1, l, c) == Ok(v[handler[j].0])
  {
    var r := Assign(body, c, m);
    TryWithoutLayer(body, handler, c, m);
    if LayerOf(c).Ok? {
      var l := LayerOf(c).value;
      AssignOnLayer(body, l, c, m);
      if r.fault.Some? {
        AssignOnLayer(handler, l, c, r.values);
      }
    }
  }

  /** TryOnLayer for a try block of three assignments on each side. */
  lemma TryOnLayer3(body: seq<(Key, Expr)>, handler: seq<(Key, Expr)>, c: Call, m: map<Key, Value>)
    requires Complete(m) && |body| == 3 && |handler| == 3 && LayerPairs(body) && LayerPairs(handler)
    requires Step(Try(body, handler), c, m).fault.None?
    ensures LayerOf(c).Ok?
    ensures var l := LayerOf(c).value; var v := Step(Try(body, handler), c, m).values;
      if LayerExpr(body[0].1, l, c).Ok? && LayerExpr(body[1].1, l, c).Ok? && LayerExpr(body[2].1, l, c).Ok? then
        && LayerExpr(body[0].1, l, c) == Ok(v[body[0].0])
        && LayerExpr(body[1].1, l, c) == Ok(v[body[1].0])
        && LayerExpr(body[2].1, l, c) == Ok(v[body[2].0])
      else
        && LayerExpr(handler[0].1, l, c) == Ok(v[handler[0].0])
        && LayerExpr(handler[1].1, l, c) == Ok(v[handler[1].0])
        && LayerExpr(handler[2].1, l, c) == Ok(v[handler[2].0])
  {
    TryOnLayer(body, handler, c, m);
    var l := LayerOf(c).value;
    if LayerExpr(body[0].1, l, c).Ok? && LayerExpr(body[1].1, l, c).Ok? && LayerExpr(body[2].1, l, c).Ok? {
      assert forall j :: 0 <= j < |body| ==> LayerExpr(body[j].1, l, c).Ok?;
    }
  }
}
