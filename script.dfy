// The bodies of the `scrape` functions as data: each branch of a scraper is a
// sequence of `layer_data[KEY] = expression` statements followed by a return.
// The expressions are the reads of the capabilities document and the string
// operations the scrapers use, with Python's evaluation order and exceptions.
module Script {
  import opened Python
  import opened Capabilities
  import opened Cleaning
  import opened Record

  /** The protocol branch a scraper takes. */
  datatype Branch = WmsBranch | WmtsBranch | WfsBranch | StacBranch | NoBranch

  /** Which box a coordinate expression reads: `boundingBoxWGS84` or `boundingBox`. */
  datatype Box = Wgs84 | Native

  /** The substrings the scrapers delete with `str.replace`. */
  datatype Pattern = Newline | Crlf

  /** Reads of one value that is a string or None. */
  datatype Atom =
    | Lit(text: string)
    | Prefix                  // the MAPGEO_PREFIX argument
    | Owner                   // source['Description']
    | Tree                    // layertree
    | Title                   // service.contents[i].title
    | Name                    // service.contents[i].name
    | Id                      // service.contents[i].id
    | Abstract                // service.contents[i].abstract
    | ShownAbstract           // str(service.contents[i].abstract)
    | ParentAbstract          // service.contents[i].parent.abstract
    | ServiceAbstract         // service.identification.abstract
    | AccessConstraints       // service.identification.accessconstraints
    | ServiceKind             // service.identification.type
    | Version                 // service.identification.version
    | Url                     // service.url
    | Request                 // service.request
    | ServiceMetadataUrl      // service.serviceMetadataURL
    | ProviderName            // service.provider.name
    | ProviderUrl             // service.provider.url
    | ContactName             // service.provider.contact.name
    | ContactEmail            // service.provider.contact.email
    | FieldText(key: Key)     // layer_data[key] as an operand of +
    | ShownField(key: Key)    // str(layer_data[key])
    | AfterSpaceOf(key: Key)  // layer_data[key].partition(" ")[2]

  /** The operands of a chain `a + b + ...`. */
  datatype Atoms = Done | Plus(first: Atom, more: Atoms)

  /** String-valued expressions. */
  datatype Str =
    | Just(a: Atom)
    | Cat(parts: Atoms)                        // a + b + ...
    | Replaced(s: Str, pat: Pattern)           // s.replace(pat, '')
    | ReplacedOrBlank(s: Str, pat: Pattern)    // s.replace(pat, '') if s is not None else ""
    | Cleaned(how: Cleaner, s: Str)            // remove_newline(s)
    | WithoutUrls(s: Str)                      // re.sub(regex, "", s)
    | SoleUrlIn(s: Str)                        // the sole URL found in s, else ""
    | IfSome(test: Atom, yes: Str, no: Str)    // yes if test is not None else no
    | IfParentAbstract(yes: Str, no: Str)      // yes if the parent has an abstract else no

  /** The right-hand sides of the assignments to layer_data. */
  datatype Expr =
    | Of(s: Str)
    | Int(n: int)
    | NameOrId                 // default.py:73-78
    | ParentOrGroup            // default.py:85-91
    | GroupOrBlank             // group if group != 0 else ""
    | ParentNameOrBlank        // layer.parent.name if layer.parent is not None else ""
    | PresentKeywords          // ", ".join(k for k in keywords if k is not None)
    | JoinedKeywords           // ", ".join(layer keywords + service keywords)
    | LayerKeywords            // service.contents[i].keywords
    | KeywordsUnlessBrackets   // KT_AR.py:20-25
    | LegendChain              // default.py:102-124
    | LegendIfDefault          // styles['default']['legend'] if 'default' in styles.keys() else ""
    | LegendIfLegendKey        // styles['default']['legend'] if 'legend' in styles.keys() else ""
    | LegendIfSingle           // styles['default']['legend'] if len(styles) == 1 else ""
    | ChildDefaultLegend       // _children[0].styles['default']['legend']
    | OwnDefaultLegend         // styles['default']['legend']
    | ContactChain             // default.py:130-136
    | ServiceLinkChain         // default.py:140-145
    | SoleMetadataUrl          // metadataUrls[0]['url'] if len(metadataUrls) == 1 else ""
    | MetadataUrlIfZero        // metadataUrls[0]['url'] if 0 in metadataUrls else ""
    | FirstMetadataUrl         // metadataUrls[0]['url']
    | SubLayerMetadataUrl      // layers[0].metadataUrls[0]['url']
    | ChildMetadataUrl         // _children[0].metadataUrls[0]['url']
    | Unbound(name: string)    // an expression that uses a name the module does not define
    | Attempt(body: Expr, handler: Expr)  // try: X = body except: X = handler
    | Mid(box: Box, i: nat, j: nat)       // (box[i] + box[j]) / 2
    | CentreOr(lat: bool)      // default.py:171-184
    | Joined(box: Box)         // ' '.join(str(elem) for elem in box)
    | BoxOrDefault             // default.py:187-196
    | ExtentMid(i: nat, j: nat)  // (float(parts[i]) + float(parts[j])) / 2 over the extent text
    | ExtentJoined             // parts[0]+" "+parts[1]+" "+parts[2]+" "+parts[3]

  /** One statement of a scrape body. */
  datatype Stmt =
    | Store(key: Key, e: Expr)                                     // layer_data[key] = e
    | Try(body: seq<(Key, Expr)>, handler: seq<(Key, Expr)>)       // try: ... except: ...

  /** How a branch ends once its statements have run. */
  datatype Ending = GiveDict | GiveFalse | GiveNone | Raise(f: Fault)

  /** The statements of a body, in order. */
  datatype Stmts = Nil | Cons(head: Stmt, tail: Stmts)

  datatype Script = Script(body: Stmts, ending: Ending)

  /** What `scrape` hands back to its caller. */
  datatype Returned = Dict | FalseValue | NoneValue | Raised(fault: Fault)

  datatype Outcome = Outcome(values: map<Key, Value>, returned: Returned)

  /** The record part way through a body, and the exception that stopped it, if any. */
  datatype State = State(values: map<Key, Value>, fault: Option<Fault>)

  // ---------------------------------------------------------------- reads

  function PatternText(p: Pattern): (r: string)
    ensures |r| > 0
  {
    match p
    case Newline => "\n"
    case Crlf => "\r\n"
  }

  /** A box attribute of a layer. */
  function BoxOf(l: Layer, b: Box): Attr<seq<BoxItem>>
  {
    match b
    case Wgs84 => l.wgs84
    case Native => l.bbox
  }

  /** `str(elem)` for one element of a box. */
  function ShowItem(it: BoxItem, h: Host): string
  {
    match it
    case Ordinate(x) => h.showReal(x)
    case Label(t) => t
    case Envelope(e) => h.showEnvelope(e)
  }

  function ShowItems(items: seq<BoxItem>, h: Host): (r: seq<string>)
    ensures |r| == |items|
    ensures forall k :: 0 <= k < |items| ==> r[k] == ShowItem(items[k], h)
  {
    if items == [] then [] else [ShowItem(items[0], h)] + ShowItems(items[1..], h)
  }

  /** The style stored under a name in the styles dictionary. */
  function StyleNamed(ss: seq<Style>, name: string): (r: Option<Style>)
    ensures r.Some? ==> r.value in ss && r.value.name == name
    ensures r.None? ==> forall k :: 0 <= k < |ss| ==> ss[k].name != name
  {
    if ss == [] then None
    else if ss[0].name == name then Some(ss[0])
    else StyleNamed(ss[1..], name)
  }

  function LegendValue(legend: Option<string>): Value
  {
    if legend.Some? then Text(legend.value) else Nothing
  }

  function Of1(x: Option<string>): Value
  {
    if x.Some? then Text(x.value) else Nothing
  }

  /** `styles['default']['legend']` on a present styles dictionary. */
  function DefaultLegendOf(ss: seq<Style>): Result<Value>
  {
    match StyleNamed(ss, "default")
    case None => Err(KeyError("default"))
    case Some(st) => if st.legend.Some? then Ok(Text(st.legend.value)) else Err(KeyError("legend"))
  }

  /** `l.styles['default']['legend']`. */
  function OwnLegend(l: Layer): Result<Value>
  {
    match l.styles
    case Absent => Err(AttributeError("styles"))
    case Null => Err(TypeError("'NoneType' object is not subscriptable"))
    case Val(ss) => DefaultLegendOf(ss)
  }

  /** The first element of a list attribute of a layer. */
  function FirstOf<T>(a: Attr<seq<T>>, name: string): Result<T>
  {
    match a
    case Absent => Err(AttributeError(name))
    case Null => Err(TypeError("'NoneType' object is not subscriptable"))
    case Val(xs) => if xs == [] then Err(IndexError("list index out of range")) else Ok(xs[0])
  }

  /** `l.metadataUrls[0]['url']`. */
  function FirstUrl(l: Layer): Result<Value>
  {
    var u :- FirstOf(l.metadataUrls, "metadataUrls");
    if u.url.Some? then Ok(Text(u.url.value)) else Err(KeyError("url"))
  }

  /** default.py:102-124. The children of a layer are its `_children`. */
  function LegendChainOf(l: Layer): Result<Value>
  {
    match l.styles
    case Absent => Err(AttributeError("styles"))
    case Null => Ok(Text(""))
    case Val(ss) =>
      match StyleNamed(ss, "default")
      case Some(st) => Ok(if st.legend.Some? then Text(st.legend.value) else Text(""))
      case None =>
        if |ss| == 1 then Ok(if ss[0].legend.Some? then Text(ss[0].legend.value) else Text(""))
        else
          match l.children
          case Absent => Err(AttributeError("_children"))
          case Null => Ok(Text(""))
          case Val(ks) =>
            if ks == [] then Ok(Text(""))
            else
              match ks[0].styles
              case Absent => Err(AttributeError("styles"))
              case Null => Ok(Text(""))
              case Val(cs) =>
                match StyleNamed(cs, "default")
                case None => Ok(Text(""))
                case Some(st) => Ok(if st.legend.Some? then Text(st.legend.value) else Text(""))
  }

  /** Python's `", ".join(xs)` for a list that may hold None. */
  function JoinPresent(xs: seq<Option<string>>): Result<Value>
  {
    if forall k :: 0 <= k < |xs| ==> xs[k].Some? then Ok(Text(Join(", ", Texts(xs))))
    else Err(TypeError("sequence item: expected str instance, NoneType found"))
  }

  /** The strings of a list that holds no None. */
  function Texts(xs: seq<Option<string>>): (r: seq<string>)
    requires forall k :: 0 <= k < |xs| ==> xs[k].Some?
    ensures |r| == |xs|
    ensures forall k :: 0 <= k < |xs| ==> r[k] == xs[k].value
  {
    if xs == [] then [] else [xs[0].value] + Texts(xs[1..])
  }

  /** `[k for k in xs if k is not None]`. */
  function Present(xs: seq<Option<string>>): (r: seq<string>)
  {
    if xs == [] then []
    else if xs[0].Some? then [xs[0].value] + Present(xs[1..])
    else Present(xs[1..])
  }

  /** `(box[i] + box[j]) / 2`. */
  function MidOf(a: Attr<seq<BoxItem>>, i: nat, j: nat): Result<Value>
  {
    match a
    case Absent => Err(AttributeError("boundingBox"))
    case Null => Err(TypeError("'NoneType' object is not subscriptable"))
    case Val(items) =>
      if i >= |items| || j >= |items| then Err(IndexError("tuple index out of range"))
      else if items[i].Ordinate? && items[j].Ordinate? then Ok(Number((items[i].x + items[j].x) / 2.0))
      else Err(TypeError("unsupported operand type(s)"))
  }

  /** A box attribute that is present, not None and has four elements. */
  predicate FourItems(a: Attr<seq<BoxItem>>)
  {
    a.Val? && |a.v| == 4
  }

  /** The fallback centre of default.py:176 and 184. */
  const FallbackLat: real := 46.78485
  const FallbackLon: real := 7.88932
  const FallbackBox: string := "7.88932 46.78485 7.88932 46.78485"

  function CentreOf(l: Layer, lat: bool): Result<Value>
  {
    var i: nat := if lat then 1 else 0;
    var j: nat := if lat then 3 else 2;
    if FourItems(l.wgs84) then MidOf(l.wgs84, i, j)
    else if FourItems(l.bbox) then MidOf(l.bbox, i, j)
    else Ok(Number(if lat then FallbackLat else FallbackLon))
  }

  /** `str(box[0].extent).replace("(", "").replace(")", "").split(",")`. */
  function ExtentParts(l: Layer, h: Host): Result<seq<string>>
  {
    var first :- FirstOf(l.bbox, "boundingBox");
    if !first.Envelope? then Err(AttributeError("extent"))
    else Ok(Split(Replace(Replace(TupleText(first.extent, h), "(", ""), ")", ""), ','))
  }

  /** `list(map(float, parts))`. */
  function ParseAll(parts: seq<string>, h: Host): (r: Result<seq<BoxItem>>)
    ensures r.Ok? ==> |r.value| == |parts|
  {
    if parts == [] then Ok([])
    else
      match h.parseFloat(parts[0])
      case None => Err(ValueError("could not convert string to float"))
      case Some(x) =>
        var rest :- ParseAll(parts[1..], h);
        Ok([Ordinate(x)] + rest)
  }

  /** The `bbox` local of default.py:187-191: None, or a list of box elements. */
  function DefaultBox(l: Layer, h: Host): Result<Option<seq<BoxItem>>>
  {
    if !l.wgs84.Absent? then Ok(if l.wgs84.Val? then Some(l.wgs84.v) else None)
    else
      match l.bbox
      case Absent => Ok(None)
      case Null => Err(TypeError("object of type 'NoneType' has no len()"))
      case Val(items) =>
        if |items| == 0 then Ok(None)
        else
          var parts :- ExtentParts(l, h);
          var xs :- ParseAll(parts, h);
          Ok(Some(xs))
  }

  function BoxTextOf(l: Layer, h: Host): Result<Value>
  {
    var b :- DefaultBox(l, h);
    if b.Some? && |b.value| == 4 then Ok(Text(Join(" ", ShowItems(b.value, h))))
    else Ok(Text(FallbackBox))
  }

  function ExtentMidOf(l: Layer, h: Host, i: nat, j: nat): Result<Value>
  {
    var parts :- ExtentParts(l, h);
    if i >= |parts| then Err(IndexError("list index out of range"))
    else
      match h.parseFloat(parts[i])
      case None => Err(ValueError("could not convert string to float"))
      case Some(a) =>
        if j >= |parts| then Err(IndexError("list index out of range"))
        else
          match h.parseFloat(parts[j])
          case None => Err(ValueError("could not convert string to float"))
          case Some(b) => Ok(Number((a + b) / 2.0))
  }

  function ExtentJoinedOf(l: Layer, h: Host): Result<Value>
  {
    var parts :- ExtentParts(l, h);
    if |parts| < 4 then Err(IndexError("list index out of range"))
    else Ok(Text(parts[0] + " " + parts[1] + " " + parts[2] + " " + parts[3]))
  }

  /** default.py:130-136; `current` is the CONTACT value before the statement. */
  function ContactOf(s: Service, current: Value): Value
  {
    match s.provider
    case Absent => Text("")
    case Null => current
    case Val(p) =>
      if p.contact.Val? && !p.contact.v.email.Absent? then
        (if p.contact.v.email.Val? then Text(p.contact.v.email.v) else Nothing)
      else if !p.name.Absent? then (if p.name.Val? then Text(p.name.v) else Nothing)
      else current
  }

  /** default.py:140-145. */
  function ServiceLinkOf(s: Service): Value
  {
    if !s.request.Absent? then (if s.request.Val? then Text(s.request.v) else Nothing)
    else if !s.url.Absent? then (if s.url.Val? then Text(s.url.v) else Nothing)
    else Text("")
  }

  // ---------------------------------------------------------------- evaluation

  function EvalAtom(a: Atom, c: Call, m: map<Key, Value>): Result<Option<string>>
    requires Complete(m)
  {
    match a
    case Lit(t) => Ok(Some(t))
    case Prefix => Ok(Some(c.prefix))
    case Owner => Ok(Some(c.source.description))
    case Tree => Ok(Some(c.tree))
    case Title => var l :- LayerOf(c); Ok(l.title)
    case Name => var l :- LayerOf(c); Read(l.name, "name")
    case Id => var l :- LayerOf(c); Ok(Some(l.id))
    case Abstract => var l :- LayerOf(c); Ok(l.abstractText)
    case ShownAbstract => var l :- LayerOf(c); Ok(Some(Shown(l.abstractText)))
    case ParentAbstract => var l :- LayerOf(c); var p :- Deref(l.parent, "parent"); Ok(p.abstractText)
    case ServiceAbstract => Ok(c.service.identification.abstractText)
    case AccessConstraints => Ok(c.service.identification.accessConstraints)
    case ServiceKind => Ok(c.service.identification.kind)
    case Version => Ok(c.service.identification.version)
    case Url => Read(c.service.url, "url")
    case Request => Read(c.service.request, "request")
    case ServiceMetadataUrl => Read(c.service.metadataUrl, "serviceMetadataURL")
    case ProviderName => var p :- Deref(c.service.provider, "provider"); Read(p.name, "name")
    case ProviderUrl => var p :- Deref(c.service.provider, "provider"); Ok(p.url)
    case ContactName =>
      var p :- Deref(c.service.provider, "provider");
      var ct :- Deref(p.contact, "contact");
      Read(ct.name, "name")
    case ContactEmail =>
      var p :- Deref(c.service.provider, "provider");
      var ct :- Deref(p.contact, "contact");
      Read(ct.email, "email")
    case FieldText(k) =>
      (match m[k]
       case Text(s) => Ok(Some(s))
       case Nothing => Ok(None)
       case _ => Err(TypeError("can only concatenate str")))
    case ShownField(k) => Ok(Some(Show(m[k], c.host)))
    case AfterSpaceOf(k) =>
      (match m[k]
       case Text(s) => Ok(Some(AfterFirstSpace(s)))
       case _ => Err(AttributeError("partition")))
  }

  /** The rest of `acc + a + b + ...`: each operand is evaluated before the
      addition, which raises TypeError when either side is None. */
  function CatFrom(acc: Option<string>, parts: Atoms, c: Call, m: map<Key, Value>): Result<Option<string>>
    requires Complete(m)
    decreases parts
  {
    match parts
    case Done => Ok(acc)
    case Plus(a, more) =>
      var v :- EvalAtom(a, c, m);
      if acc.None? || v.None? then Err(TypeError("can only concatenate str (not \"NoneType\") to str"))
      else CatFrom(Some(acc.value + v.value), more, c, m)
  }

  function EvalStr(s: Str, c: Call, m: map<Key, Value>): Result<Option<string>>
    requires Complete(m)
  {
    match s
    case Just(a) => EvalAtom(a, c, m)
    case Cat(parts) =>
      (match parts
       case Done => Ok(Some(""))
       case Plus(a, more) => var v :- EvalAtom(a, c, m); CatFrom(v, more, c, m))
    case Replaced(t, pat) =>
      var v :- EvalStr(t, c, m);
      if v.None? then Err(AttributeError("replace")) else Ok(Some(Replace(v.value, PatternText(pat), "")))
    case ReplacedOrBlank(t, pat) =>
      var v :- EvalStr(t, c, m);
      Ok(Some(if v.None? then "" else Replace(v.value, PatternText(pat), "")))
    case Cleaned(how, t) =>
      if how.Missing? then Err(NameError("remove_newline"))
      else
        var v :- EvalStr(t, c, m);
        (match Clean(how, v)
         case Ok(r) => Ok(Some(r))
         case Err(f) => Err(f))
    case WithoutUrls(t) =>
      var v :- EvalStr(t, c, m);
      if v.None? then Err(TypeError("expected string or bytes-like object")) else Ok(Some(c.host.stripUrls(v.value)))
    case SoleUrlIn(t) =>
      var v :- EvalStr(t, c, m);
      if v.None? then Err(TypeError("expected string or bytes-like object"))
      else
        var urls := c.host.findUrls(v.value);
        Ok(Some(if |urls| == 1 then urls[0] else ""))
    case IfSome(test, yes, no) =>
      var v :- EvalAtom(test, c, m);
      if v.Some? then EvalStr(yes, c, m) else EvalStr(no, c, m)
    case IfParentAbstract(yes, no) =>
      var l :- LayerOf(c);
      match l.parent
      case Absent => Err(AttributeError("parent"))
      case Null => EvalStr(no, c, m)
      case Val(p) => if p.abstractText.Some? then EvalStr(yes, c, m) else EvalStr(no, c, m)
  }

  /** The value of an expression, or the exception it raises. */
  function Eval(e: Expr, c: Call, m: map<Key, Value>): Result<Value>
    requires Complete(m)
  {
    match e
    case Of(s) => var v :- EvalStr(s, c, m); Ok(Of1(v))
    case Int(n) => Ok(Integer(n))
    case Unbound(name) => Err(NameError(name))
    case Attempt(body, handler) =>
      var r := Eval(body, c, m);
      if r.Ok? then r else Eval(handler, c, m)
    case ContactChain => Ok(ContactOf(c.service, m[CONTACT]))
    case ServiceLinkChain => Ok(ServiceLinkOf(c.service))
    case GroupOrBlank => Ok(if c.group.Under? then Text(c.group.parent) else Text(""))
    case KeywordsUnlessBrackets =>
      // `keywords != "[]"` compares a list with a str, which is always true
      var l :- LayerOf(c);
      var ks := c.service.identification.keywords;
      Ok(if ks.Some? then Words(ks.value) else Nothing)
    case _ => var l :- LayerOf(c); LayerExpr(e, l, c)
  }

  /** The expressions that read the layer `service.contents[i]`. */
  function LayerExpr(e: Expr, l: Layer, c: Call): Result<Value>
  {
    match e
    case NameOrId => Ok(if l.name.Absent? then Text(l.id) else Of1(if l.name.Val? then Some(l.name.v) else None))
    case ParentOrGroup =>
      if l.parent.Val? then Ok(Of1(l.parent.v.name))
      else Ok(if c.group.Under? then Text(c.group.parent) else Text(""))
    case ParentNameOrBlank =>
      (match l.parent
       case Absent => Err(AttributeError("parent"))
       case Null => Ok(Text(""))
       case Val(p) => Ok(Of1(p.name)))
    case PresentKeywords =>
      if l.keywords.None? then Err(TypeError("'NoneType' object is not iterable"))
      else Ok(Text(Join(", ", Present(l.keywords.value))))
    case JoinedKeywords =>
      var sk := c.service.identification.keywords;
      if l.keywords.None? || sk.None? then Err(TypeError("can only concatenate list"))
      else JoinPresent(l.keywords.value + sk.value)
    case LayerKeywords => Ok(if l.keywords.Some? then Words(l.keywords.value) else Nothing)
    case LegendChain => LegendChainOf(l)
    case LegendIfDefault =>
      (match l.styles
       case Absent => Err(AttributeError("styles"))
       case Null => Err(AttributeError("keys"))
       case Val(ss) => if StyleNamed(ss, "default").Some? then DefaultLegendOf(ss) else Ok(Text("")))
    case LegendIfLegendKey =>
      (match l.styles
       case Absent => Err(AttributeError("styles"))
       case Null => Err(AttributeError("keys"))
       case Val(ss) => if StyleNamed(ss, "legend").Some? then DefaultLegendOf(ss) else Ok(Text("")))
    case LegendIfSingle =>
      (match l.styles
       case Absent => Err(AttributeError("styles"))
       case Null => Err(TypeError("object of type 'NoneType' has no len()"))
       case Val(ss) => if |ss| == 1 then DefaultLegendOf(ss) else Ok(Text("")))
    case ChildDefaultLegend => var k :- FirstOf(l.children, "_children"); OwnLegend(k)
    case OwnDefaultLegend => OwnLegend(l)
    case SoleMetadataUrl =>
      (match l.metadataUrls
       case Absent => Err(AttributeError("metadataUrls"))
       case Null => Err(TypeError("object of type 'NoneType' has no len()"))
       case Val(us) => if |us| == 1 then FirstUrl(l) else Ok(Text("")))
    case MetadataUrlIfZero =>
      // a metadata entry is a dictionary, never equal to 0
      (match l.metadataUrls
       case Absent => Err(AttributeError("metadataUrls"))
       case Null => Err(TypeError("argument of type 'NoneType' is not iterable"))
       case Val(_) => Ok(Text("")))
    case FirstMetadataUrl => FirstUrl(l)
    case SubLayerMetadataUrl => var k :- FirstOf(l.sublayers, "layers"); FirstUrl(k)
    case ChildMetadataUrl => var k :- FirstOf(l.children, "_children"); FirstUrl(k)
    case Mid(b, i, j) => MidOf(BoxOf(l, b), i, j)
    case CentreOr(lat) => CentreOf(l, lat)
    case Joined(b) =>
      (match BoxOf(l, b)
       case Absent => Err(AttributeError("boundingBox"))
       case Null => Err(TypeError("'NoneType' object is not iterable"))
       case Val(items) => Ok(Text(Join(" ", ShowItems(items, c.host)))))
    case BoxOrDefault => BoxTextOf(l, c.host)
    case ExtentMid(i, j) => ExtentMidOf(l, c.host, i, j)
    case ExtentJoined => ExtentJoinedOf(l, c.host)
    case _ => Err(TypeError("not a layer expression"))
  }

  /** A `try` keeps its body's value unless the body raised. */
  lemma AttemptEval(body: Expr, handler: Expr, c: Call, m: map<Key, Value>)
    requires Complete(m)
    ensures Eval(Attempt(body, handler), c, m) ==
      if Eval(body, c, m).Ok? then Eval(body, c, m) else Eval(handler, c, m)
  {
    var e := Attempt(body, handler);
    assert e.Attempt? && e.body == body && e.handler == handler;
  }

  /** The expressions evaluated on the layer alone. */
  predicate OnLayer(e: Expr)
  {
    !(e.Of? || e.Int? || e.Unbound? || e.Attempt? || e.ContactChain? || e.ServiceLinkChain? ||
      e.GroupOrBlank? || e.KeywordsUnlessBrackets?)
  }

  lemma LayerEval(e: Expr, l: Layer, c: Call, m: map<Key, Value>)
    requires Complete(m) && OnLayer(e) && LayerOf(c) == Ok(l)
    ensures Eval(e, c, m) == LayerExpr(e, l, c)
  {
  }

  // ---------------------------------------------------------------- statements

  function Assign(ps: seq<(Key, Expr)>, c: Call, m: map<Key, Value>): (r: State)
    requires Complete(m)
    ensures Complete(r.values)
  {
    if ps == [] then State(m, None)
    else
      match Eval(ps[0].1, c, m)
      case Err(f) => State(m, Some(f))
      case Ok(v) => Assign(ps[1..], c, m[ps[0].0 := v])
  }

  function Step(s: Stmt, c: Call, m: map<Key, Value>): (r: State)
    requires Complete(m)
    ensures Complete(r.values)
  {
    match s
    case Store(k, e) =>
      (match Eval(e, c, m)
       case Err(f) => State(m, Some(f))
       case Ok(v) => State(m[k := v], None))
    case Try(body, handler) =>
      var r := Assign(body, c, m);
      if r.fault.None? then r else Assign(handler, c, r.values)
  }

  /** The statements in order; the first exception stops the body. */
  function Exec(ss: Stmts, c: Call, m: map<Key, Value>): (r: State)
    requires Complete(m)
    ensures Complete(r.values)
  {
    match ss
    case Nil => State(m, None)
    case Cons(st, more) =>
      var r := Step(st, c, m);
      if r.fault.Some? then r else Exec(more, c, r.values)
  }

  function Run(s: Script, c: Call, m: map<Key, Value>): (r: Outcome)
    requires Complete(m)
    ensures Complete(r.values)
  {
    var st := Exec(s.body, c, m);
    if st.fault.Some? then Outcome(st.values, Raised(st.fault.value))
    else
      match s.ending
      case GiveDict => Outcome(st.values, Dict)
      case GiveFalse => Outcome(st.values, FalseValue)
      case GiveNone => Outcome(st.values, NoneValue)
      case Raise(f) => Outcome(st.values, Raised(f))
  }

  /** `a` followed by `b`. */
  function Append(a: Stmts, b: Stmts): Stmts
  {
    match a
    case Nil => b
    case Cons(st, more) => Cons(st, Append(more, b))
  }

  // ---------------------------------------------------------------- frames

  /** Whether an expression reads the record entry under `q`. */
  predicate AtomReads(a: Atom, q: Key)
  {
    match a
    case FieldText(k) => k == q
    case ShownField(k) => k == q
    case AfterSpaceOf(k) => k == q
    case _ => false
  }

  predicate AtomsRead(ps: Atoms, q: Key)
  {
    ps.Plus? && (AtomReads(ps.first, q) || AtomsRead(ps.more, q))
  }

  predicate StrReads(s: Str, q: Key)
  {
    match s
    case Just(a) => AtomReads(a, q)
    case Cat(ps) => AtomsRead(ps, q)
    case Replaced(t, _) => StrReads(t, q)
    case ReplacedOrBlank(t, _) => StrReads(t, q)
    case Cleaned(_, t) => StrReads(t, q)
    case WithoutUrls(t) => StrReads(t, q)
    case SoleUrlIn(t) => StrReads(t, q)
    case IfSome(test, yes, no) => AtomReads(test, q) || StrReads(yes, q) || StrReads(no, q)
    case IfParentAbstract(yes, no) => StrReads(yes, q) || StrReads(no, q)
  }

  predicate ExprReads(e: Expr, q: Key)
  {
    match e
    case Of(s) => StrReads(s, q)
    case ContactChain => q == CONTACT
    case Attempt(b, h) => ExprReads(b, q) || ExprReads(h, q)
    case _ => false
  }

  /** An expression that reads no entry of the record, decided on its syntax. */
  predicate AtomFree(a: Atom)
  {
    !(a.FieldText? || a.ShownField? || a.AfterSpaceOf?)
  }

  predicate AtomsFree(ps: Atoms)
  {
    ps.Done? || (AtomFree(ps.first) && AtomsFree(ps.more))
  }

  predicate StrFree(s: Str)
  {
    match s
    case Just(a) => AtomFree(a)
    case Cat(ps) => AtomsFree(ps)
    case Replaced(t, _) => StrFree(t)
    case ReplacedOrBlank(t, _) => StrFree(t)
    case Cleaned(_, t) => StrFree(t)
    case WithoutUrls(t) => StrFree(t)
    case SoleUrlIn(t) => StrFree(t)
    case IfSome(test, yes, no) => AtomFree(test) && StrFree(yes) && StrFree(no)
    case IfParentAbstract(yes, no) => StrFree(yes) && StrFree(no)
  }

  predicate ExprFree(e: Expr)
  {
    match e
    case Of(s) => StrFree(s)
    case ContactChain => false
    case Attempt(b, h) => ExprFree(b) && ExprFree(h)
    case _ => true
  }

  lemma {:induction false} AtomsFreeReads(ps: Atoms, q: Key)
    requires AtomsFree(ps)
    ensures !AtomsRead(ps, q)
  {
    if ps.Plus? {
      AtomsFreeReads(ps.more, q);
    }
  }

  lemma {:induction false} StrFreeReads(s: Str, q: Key)
    requires StrFree(s)
    ensures !StrReads(s, q)
  {
    match s
    case Just(a) =>
    case Cat(ps) => AtomsFreeReads(ps, q);
    case Replaced(t, _) => StrFreeReads(t, q);
    case ReplacedOrBlank(t, _) => StrFreeReads(t, q);
    case Cleaned(_, t) => StrFreeReads(t, q);
    case WithoutUrls(t) => StrFreeReads(t, q);
    case SoleUrlIn(t) => StrFreeReads(t, q);
    case IfSome(test, yes, no) => StrFreeReads(yes, q); StrFreeReads(no, q);
    case IfParentAbstract(yes, no) => StrFreeReads(yes, q); StrFreeReads(no, q);
  }

  /** An expression free of record reads reads no entry. */
  lemma {:induction false} FreeReads(e: Expr, q: Key)
    requires ExprFree(e)
    ensures !ExprReads(e, q)
  {
    match e
    case Of(s) => StrFreeReads(s, q);
    case Attempt(b, h) => FreeReads(b, q); FreeReads(h, q);
    case _ =>
  }

  lemma {:induction false} AtomFrame(a: Atom, c: Call, m1: map<Key, Value>, m2: map<Key, Value>)
    requires Complete(m1) && Complete(m2)
    requires forall q :: AtomReads(a, q) ==> m1[q] == m2[q]
    ensures EvalAtom(a, c, m1) == EvalAtom(a, c, m2)
  {
    match a
    case FieldText(k) => assert AtomReads(a, k);
    case ShownField(k) => assert AtomReads(a, k);
    case AfterSpaceOf(k) => assert AtomReads(a, k);
    case _ =>
  }

  lemma {:induction false} CatFromFrame(acc: Option<string>, ps: Atoms, c: Call, m1: map<Key, Value>, m2: map<Key, Value>)
    requires Complete(m1) && Complete(m2)
    requires forall q :: AtomsRead(ps, q) ==> m1[q] == m2[q]
    ensures CatFrom(acc, ps, c, m1) == CatFrom(acc, ps, c, m2)
    decreases ps
  {
    if ps.Plus? {
      AtomFrame(ps.first, c, m1, m2);
      var v := EvalAtom(ps.first, c, m1);
      if v.Ok? && v.value.Some? && acc.Some? {
        CatFromFrame(Some(acc.value + v.value.value), ps.more, c, m1, m2);
      }
    }
  }

  lemma {:induction false} StrFrame(s: Str, c: Call, m1: map<Key, Value>, m2: map<Key, Value>)
    requires Complete(m1) && Complete(m2)
    requires forall q :: StrReads(s, q) ==> m1[q] == m2[q]
    ensures EvalStr(s, c, m1) == EvalStr(s, c, m2)
  {
    match s
    case Just(a) => AtomFrame(a, c, m1, m2);
    case Cat(ps) =>
      if ps.Plus? {
        AtomFrame(ps.first, c, m1, m2);
        var v := EvalAtom(ps.first, c, m1);
        if v.Ok? {
          CatFromFrame(v.value, ps.more, c, m1, m2);
        }
      }
    case Replaced(t, _) => StrFrame(t, c, m1, m2);
    case ReplacedOrBlank(t, _) => StrFrame(t, c, m1, m2);
    case Cleaned(_, t) => StrFrame(t, c, m1, m2);
    case WithoutUrls(t) => StrFrame(t, c, m1, m2);
    case SoleUrlIn(t) => StrFrame(t, c, m1, m2);
    case IfSome(test, yes, no) =>
      AtomFrame(test, c, m1, m2);
      StrFrame(yes, c, m1, m2);
      StrFrame(no, c, m1, m2);
    case IfParentAbstract(yes, no) =>
      StrFrame(yes, c, m1, m2);
      StrFrame(no, c, m1, m2);
  }

  /** An expression reads nothing of the record but the entries `ExprReads` names. */
  lemma {:induction false} EvalFrame(e: Expr, c: Call, m1: map<Key, Value>, m2: map<Key, Value>)
    requires Complete(m1) && Complete(m2)
    requires forall q :: ExprReads(e, q) ==> m1[q] == m2[q]
    ensures Eval(e, c, m1) == Eval(e, c, m2)
  {
    match e
    case Of(s) => StrFrame(s, c, m1, m2);
    case ContactChain => assert ExprReads(e, CONTACT);
    case Attempt(b, h) =>
      EvalFrame(b, c, m1, m2);
      EvalFrame(h, c, m1, m2);
    case _ =>
  }

  /** Whether a statement may assign the entry under `q`. */
  predicate PairsWrite(ps: seq<(Key, Expr)>, q: Key)
  {
    ps != [] && (ps[0].0 == q || PairsWrite(ps[1..], q))
  }

  predicate Writes(s: Stmt, q: Key)
  {
    match s
    case Store(k, _) => k == q
    case Try(b, h) => PairsWrite(b, q) || PairsWrite(h, q)
  }

  predicate WritesAny(ss: Stmts, q: Key)
  {
    ss.Cons? && (Writes(ss.head, q) || WritesAny(ss.tail, q))
  }

  /** Whether a statement may assign an entry that `e` reads. */
  predicate PairsDisturb(ps: seq<(Key, Expr)>, e: Expr)
  {
    ps != [] && (ExprReads(e, ps[0].0) || PairsDisturb(ps[1..], e))
  }

  predicate Disturbs(s: Stmt, e: Expr)
  {
    match s
    case Store(k, _) => ExprReads(e, k)
    case Try(b, h) => PairsDisturb(b, e) || PairsDisturb(h, e)
  }

  predicate DisturbsAny(ss: Stmts, e: Expr)
  {
    ss.Cons? && (Disturbs(ss.head, e) || DisturbsAny(ss.tail, e))
  }

  lemma {:induction false} PairsUndisturbed(ps: seq<(Key, Expr)>, e: Expr, q: Key)
    requires !PairsDisturb(ps, e) && ExprReads(e, q)
    ensures !PairsWrite(ps, q)
  {
    if ps != [] {
      PairsUndisturbed(ps[1..], e, q);
    }
  }

  /** A statement that disturbs nothing `e` reads writes no entry `e` reads. */
  lemma StmtUndisturbed(s: Stmt, e: Expr, q: Key)
    requires !Disturbs(s, e) && ExprReads(e, q)
    ensures !Writes(s, q)
  {
    if s.Try? {
      PairsUndisturbed(s.body, e, q);
      PairsUndisturbed(s.handler, e, q);
    }
  }

  /** A body that disturbs nothing `e` reads writes no entry `e` reads. */
  lemma {:induction false} Undisturbed(ss: Stmts, e: Expr, q: Key)
    requires !DisturbsAny(ss, e) && ExprReads(e, q)
    ensures !WritesAny(ss, q)
  {
    if ss.Cons? {
      StmtUndisturbed(ss.head, e, q);
      Undisturbed(ss.tail, e, q);
    }
  }

  lemma {:induction false} PairsUndisturbing(ps: seq<(Key, Expr)>, e: Expr)
    requires ExprFree(e)
    ensures !PairsDisturb(ps, e)
  {
    if ps != [] {
      FreeReads(e, ps[0].0);
      PairsUndisturbing(ps[1..], e);
    }
  }

  /** An expression free of record reads is disturbed by no statement. */
  lemma {:induction false} Undisturbing(ss: Stmts, e: Expr)
    requires ExprFree(e)
    ensures !DisturbsAny(ss, e)
  {
    if ss.Cons? {
      if ss.head.Store? {
        FreeReads(e, ss.head.key);
      } else {
        PairsUndisturbing(ss.head.body, e);
        PairsUndisturbing(ss.head.handler, e);
      }
      Undisturbing(ss.tail, e);
    }
  }

  lemma {:induction false} AssignKeeps(ps: seq<(Key, Expr)>, c: Call, m: map<Key, Value>)
    requires Complete(m)
    ensures forall q :: !PairsWrite(ps, q) ==> Assign(ps, c, m).values[q] == m[q]
  {
    if ps != [] {
      var r := Eval(ps[0].1, c, m);
      if r.Ok? {
        AssignKeeps(ps[1..], c, m[ps[0].0 := r.value]);
      }
    }
  }

  lemma StepKeeps(s: Stmt, c: Call, m: map<Key, Value>)
    requires Complete(m)
    ensures forall q :: !Writes(s, q) ==> Step(s, c, m).values[q] == m[q]
  {
    if s.Try? {
      AssignKeeps(s.body, c, m);
      AssignKeeps(s.handler, c, Assign(s.body, c, m).values);
    }
  }

  /** A body changes no entry it does not assign, whether or not it raises. */
  lemma {:induction false} ExecKeeps(ss: Stmts, c: Call, m: map<Key, Value>)
    requires Complete(m)
    ensures forall q :: !WritesAny(ss, q) ==> Exec(ss, c, m).values[q] == m[q]
  {
    if ss.Cons? {
      StepKeeps(ss.head, c, m);
      var r := Step(ss.head, c, m);
      if r.fault.None? {
        ExecKeeps(ss.tail, c, r.values);
      }
    }
  }

  /** A statement that disturbs nothing `e` reads leaves `e`'s value as it was. */
  lemma StepUndisturbed(s: Stmt, e: Expr, c: Call, m: map<Key, Value>)
    requires Complete(m)
    requires !Disturbs(s, e)
    ensures Eval(e, c, Step(s, c, m).values) == Eval(e, c, m)
  {
    StepKeeps(s, c, m);
    forall q | ExprReads(e, q) ensures Step(s, c, m).values[q] == m[q] {
      StmtUndisturbed(s, e, q);
    }
    EvalFrame(e, c, Step(s, c, m).values, m);
  }

  /** A body that disturbs nothing `e` reads leaves `e`'s value as it was. */
  lemma ExecUndisturbed(ss: Stmts, e: Expr, c: Call, m: map<Key, Value>)
    requires Complete(m)
    requires !DisturbsAny(ss, e)
    ensures Eval(e, c, Exec(ss, c, m).values) == Eval(e, c, m)
  {
    ExecKeeps(ss, c, m);
    forall q | ExprReads(e, q) ensures Exec(ss, c, m).values[q] == m[q] {
      Undisturbed(ss, e, q);
    }
    EvalFrame(e, c, Exec(ss, c, m).values, m);
  }

  // ---------------------------------------------------------------- last assignments

  /** `layer_data[k] = e` is the last assignment to `k` in `ss`, and no statement before
      it assigns an entry `e` reads. */
  predicate LastIn(ss: Stmts, k: Key, e: Expr)
  {
    ss.Cons? &&
    if WritesAny(ss.tail, k) then !Disturbs(ss.head, e) && LastIn(ss.tail, k, e)
    else ss.head == Store(k, e)
  }

  /** `layer_data[k] = e` is the last assignment to `k` in `ss`, `e` does not read `k`,
      and no statement after it assigns an entry `e` reads. */
  predicate LastLate(ss: Stmts, k: Key, e: Expr)
  {
    ss.Cons? &&
    if WritesAny(ss.tail, k) then LastLate(ss.tail, k, e)
    else ss.head == Store(k, e) && !ExprReads(e, k) && !DisturbsAny(ss.tail, e)
  }

  /** `layer_data[k] = e`, when it raises nothing, stores the value of `e`. */
  lemma StoreHolds(k: Key, e: Expr, c: Call, m: map<Key, Value>)
    requires Complete(m)
    requires Step(Store(k, e), c, m).fault.None?
    ensures Eval(e, c, m).Ok?
    ensures Step(Store(k, e), c, m).values == m[k := Eval(e, c, m).value]
  {
  }

  /** After a body that raised nothing, the entry under `k` is the value of its last
      assignment evaluated on the incoming record. */
  lemma {:induction false} LastHolds(ss: Stmts, k: Key, e: Expr, c: Call, m: map<Key, Value>)
    requires Complete(m)
    requires Exec(ss, c, m).fault.None?
    requires LastIn(ss, k, e)
    ensures Eval(e, c, m) == Ok(Exec(ss, c, m).values[k])
  {
    var r := Step(ss.head, c, m);
    if WritesAny(ss.tail, k) {
      assert Exec(ss, c, m) == Exec(ss.tail, c, r.values);
      LastHolds(ss.tail, k, e, c, r.values);
      StepUndisturbed(ss.head, e, c, m);
    } else {
      assert Exec(ss, c, m) == Exec(ss.tail, c, r.values);
      StoreHolds(k, e, c, m);
      ExecKeeps(ss.tail, c, r.values);
    }
  }

  /** After a body that raised nothing, the entry under `k` is the value of its last
      assignment evaluated on the final record. */
  lemma {:induction false} LateHolds(ss: Stmts, k: Key, e: Expr, c: Call, m: map<Key, Value>)
    requires Complete(m)
    requires Exec(ss, c, m).fault.None?
    requires LastLate(ss, k, e)
    ensures Eval(e, c, Exec(ss, c, m).values) == Ok(Exec(ss, c, m).values[k])
  {
    var r := Step(ss.head, c, m);
    assert Exec(ss, c, m) == Exec(ss.tail, c, r.values);
    if WritesAny(ss.tail, k) {
      LateHolds(ss.tail, k, e, c, r.values);
    } else {
      ExecKeeps(ss.tail, c, r.values);
      ExecUndisturbed(ss.tail, e, c, r.values);
      StoreHolds(k, e, c, m);
      EvalFrame(e, c, r.values, m);
    }
  }

  /** A body written as consecutive groups of statements. */
  datatype Groups = Last | Group(first: Stmts, rest: Groups)

  function Flatten(g: Groups): Stmts
  {
    match g
    case Last => Nil
    case Group(first, rest) => Append(first, Flatten(rest))
  }

  /** No group writes `k`. */
  predicate NoneWrite(g: Groups, k: Key)
  {
    g.Last? || (!WritesAny(g.first, k) && NoneWrite(g.rest, k))
  }

  /** No group writes an entry `e` reads. */
  predicate NoneDisturb(g: Groups, e: Expr)
  {
    g.Last? || (!DisturbsAny(g.first, e) && NoneDisturb(g.rest, e))
  }

  lemma {:induction false} WritesAppend(a: Stmts, b: Stmts, q: Key)
    ensures WritesAny(Append(a, b), q) == (WritesAny(a, q) || WritesAny(b, q))
  {
    if a.Cons? {
      WritesAppend(a.tail, b, q);
    }
  }

  lemma {:induction false} DisturbsAppend(a: Stmts, b: Stmts, e: Expr)
    ensures DisturbsAny(Append(a, b), e) == (DisturbsAny(a, e) || DisturbsAny(b, e))
  {
    if a.Cons? {
      DisturbsAppend(a.tail, b, e);
    }
  }

  /** A grouped body writes a key only when one of its groups does. */
  lemma {:induction false} WritesFlatten(g: Groups, q: Key)
    requires NoneWrite(g, q)
    ensures !WritesAny(Flatten(g), q)
  {
    if g.Group? {
      WritesAppend(g.first, Flatten(g.rest), q);
      WritesFlatten(g.rest, q);
    }
  }

  lemma {:induction false} DisturbsFlatten(g: Groups, e: Expr)
    requires NoneDisturb(g, e)
    ensures !DisturbsAny(Flatten(g), e)
  {
    if g.Group? {
      DisturbsAppend(g.first, Flatten(g.rest), e);
      DisturbsFlatten(g.rest, e);
    }
  }

  /** A prefix followed by more statements runs the prefix, then the rest unless the prefix raised. */
  lemma {:induction false} ExecAppend(a: Stmts, b: Stmts, c: Call, m: map<Key, Value>)
    requires Complete(m)
    ensures Exec(Append(a, b), c, m) ==
      (var r := Exec(a, c, m); if r.fault.Some? then r else Exec(b, c, r.values))
  {
    if a.Cons? {
      var r := Step(a.head, c, m);
      if r.fault.None? {
        ExecAppend(a.tail, b, c, r.values);
      }
    }
  }

  /** An entry no group writes keeps its incoming value, whether or not the body raises. */
  lemma Untouched(g: Groups, k: Key, c: Call, m: map<Key, Value>)
    requires Complete(m)
    requires NoneWrite(g, k)
    ensures Exec(Flatten(g), c, m).values[k] == m[k]
  {
    WritesFlatten(g, k);
    ExecKeeps(Flatten(g), c, m);
  }

  /** In a body written in groups, `layer_data[k] = e` is the last assignment to `k`: it
      is in group `i`, no later group writes `k`, and nothing before it writes what `e` reads. */
  predicate LastIs(g: Groups, i: nat, k: Key, e: Expr)
  {
    g.Group? &&
    if i == 0 then LastIn(g.first, k, e) && NoneWrite(g.rest, k)
    else !DisturbsAny(g.first, e) && LastIs(g.rest, i - 1, k, e)
  }

  /** The same for an assignment that may read what is written before it but neither
      its own entry nor what is written after it. */
  predicate LastReadsEarlier(g: Groups, i: nat, k: Key, e: Expr)
  {
    g.Group? &&
    if i == 0 then LastLate(g.first, k, e) && NoneWrite(g.rest, k) && NoneDisturb(g.rest, e)
    else LastReadsEarlier(g.rest, i - 1, k, e)
  }

  /** A body whose last assignment to `k` is known assigns `k`. */
  lemma {:induction false} LastInWrites(ss: Stmts, k: Key, e: Expr)
    requires LastIn(ss, k, e)
    ensures WritesAny(ss, k)
  {
    if WritesAny(ss.tail, k) {
      LastInWrites(ss.tail, k, e);
    }
  }

  /** `layer_data[k] = e` is the last assignment to `k` in `ss`. */
  predicate LastStore(ss: Stmts, k: Key, e: Expr)
  {
    ss.Cons? &&
    if WritesAny(ss.tail, k) then LastStore(ss.tail, k, e) else ss.head == Store(k, e)
  }

  /** For an expression that reads no entry, being the last assignment is enough. */
  lemma {:induction false} FreeLastIn(ss: Stmts, k: Key, e: Expr)
    requires ExprFree(e) && LastStore(ss, k, e)
    ensures LastIn(ss, k, e)
  {
    if WritesAny(ss.tail, k) {
      Undisturbing(ss, e);
      FreeLastIn(ss.tail, k, e);
    }
  }

  lemma NoneWriteGroup(first: Stmts, rest: Groups, k: Key)
    requires !WritesAny(first, k) && NoneWrite(rest, k)
    ensures NoneWrite(Group(first, rest), k)
  {
  }

  lemma NoneDisturbGroup(first: Stmts, rest: Groups, e: Expr)
    requires !DisturbsAny(first, e) && NoneDisturb(rest, e)
    ensures NoneDisturb(Group(first, rest), e)
  {
  }

  lemma LastIsHere(first: Stmts, rest: Groups, k: Key, e: Expr)
    requires LastIn(first, k, e) && NoneWrite(rest, k)
    ensures LastIs(Group(first, rest), 0, k, e)
  {
  }

  lemma LastIsLater(first: Stmts, rest: Groups, i: nat, k: Key, e: Expr)
    requires !DisturbsAny(first, e) && LastIs(rest, i, k, e)
    ensures LastIs(Group(first, rest), i + 1, k, e)
  {
  }

  lemma LateIsHere(first: Stmts, rest: Groups, k: Key, e: Expr)
    requires LastLate(first, k, e) && NoneWrite(rest, k) && NoneDisturb(rest, e)
    ensures LastReadsEarlier(Group(first, rest), 0, k, e)
  {
  }

  lemma LateIsLater(first: Stmts, rest: Groups, i: nat, k: Key, e: Expr)
    requires LastReadsEarlier(rest, i, k, e)
    ensures LastReadsEarlier(Group(first, rest), i + 1, k, e)
  {
  }

  /** A body in four groups, as most branches are written: where the last assignment
      to `k` lies in one of the first three groups. */
  lemma LastOfFour(a: Stmts, b: Stmts, d: Stmts, t: Stmts, i: nat, k: Key, e: Expr)
    requires i < 3 && !WritesAny(t, k)
    requires i == 0 ==> LastIn(a, k, e) && !WritesAny(b, k) && !WritesAny(d, k)
    requires i == 1 ==> !DisturbsAny(a, e) && LastIn(b, k, e) && !WritesAny(d, k)
    requires i == 2 ==> !DisturbsAny(a, e) && !DisturbsAny(b, e) && LastIn(d, k, e)
    ensures LastIs(Group(a, Group(b, Group(d, Group(t, Last)))), i, k, e)
  {
    var g3 := Group(t, Last);
    var g2 := Group(d, g3);
    var g1 := Group(b, g2);
    NoneWriteGroup(t, Last, k);
    if i == 2 {
      LastIsHere(d, g3, k, e);
      LastIsLater(b, g2, 0, k, e);
      LastIsLater(a, g1, 1, k, e);
    } else {
      NoneWriteGroup(d, g3, k);
      if i == 1 {
        LastIsHere(b, g2, k, e);
        LastIsLater(a, g1, 0, k, e);
      } else {
        NoneWriteGroup(b, g2, k);
        LastIsHere(a, g1, k, e);
      }
    }
  }

  /** In four groups, an assignment of the last group that is the last to its entry. */
  lemma LateOfFour(a: Stmts, b: Stmts, d: Stmts, t: Stmts, k: Key, e: Expr)
    requires LastLate(t, k, e)
    ensures LastReadsEarlier(Group(a, Group(b, Group(d, Group(t, Last)))), 3, k, e)
  {
    LateIsHere(t, Last, k, e);
    LateAfterThree(a, b, d, Group(t, Last), k, e);
  }

  lemma LateAfterThree(a: Stmts, b: Stmts, d: Stmts, g: Groups, k: Key, e: Expr)
    requires LastReadsEarlier(g, 0, k, e)
    ensures LastReadsEarlier(Group(a, Group(b, Group(d, g))), 3, k, e)
  {
    LateIsLater(d, g, 0, k, e);
    LateIsLater(b, Group(d, g), 1, k, e);
    LateIsLater(a, Group(b, Group(d, g)), 2, k, e);
  }

  /** No group of four writes `k`. */
  lemma NoneOfFour(a: Stmts, b: Stmts, d: Stmts, t: Stmts, k: Key)
    requires !WritesAny(a, k) && !WritesAny(b, k) && !WritesAny(d, k) && !WritesAny(t, k)
    ensures NoneWrite(Group(a, Group(b, Group(d, Group(t, Last)))), k)
  {
    NoneWriteGroup(t, Last, k);
    NoneWriteGroup(d, Group(t, Last), k);
    NoneWriteGroup(b, Group(d, Group(t, Last)), k);
  }

  /** Two assignments to different entries: the second is the last to its entry, and
      so is the first when neither reads what the first assigns or the second's entry. */
  lemma LateOfPair(k1: Key, e1: Expr, k2: Key, e2: Expr)
    requires k1 != k2 && !ExprReads(e2, k2)
    ensures LastLate(Cons(Store(k1, e1), Cons(Store(k2, e2), Nil)), k2, e2)
  {
    var tail := Cons(Store(k2, e2), Nil);
    assert Writes(tail.head, k2);
    assert !WritesAny(Nil, k2) && !DisturbsAny(Nil, e2);
    assert LastLate(tail, k2, e2);
  }

  lemma FirstOfPair(k1: Key, e1: Expr, k2: Key, e2: Expr)
    requires k1 != k2 && !ExprReads(e1, k1) && !ExprReads(e1, k2)
    ensures LastLate(Cons(Store(k1, e1), Cons(Store(k2, e2), Nil)), k1, e1)
  {
    var tail := Cons(Store(k2, e2), Nil);
    assert !Writes(tail.head, k1) && !WritesAny(Nil, k1);
    assert !Disturbs(tail.head, e1) && !DisturbsAny(Nil, e1);
  }

  /** After a grouped body ran without raising, the entry under `k` is the value of
      its last assignment on the incoming record. */
  lemma {:induction false} Settled(g: Groups, i: nat, k: Key, e: Expr, c: Call, m: map<Key, Value>)
    requires Complete(m)
    requires Exec(Flatten(g), c, m).fault.None?
    requires LastIs(g, i, k, e)
    ensures Eval(e, c, m) == Ok(Exec(Flatten(g), c, m).values[k])
  {
    ExecAppend(g.first, Flatten(g.rest), c, m);
    var r := Exec(g.first, c, m);
    if i == 0 {
      LastHolds(g.first, k, e, c, m);
      Untouched(g.rest, k, c, r.values);
    } else {
      Settled(g.rest, i - 1, k, e, c, r.values);
      ExecUndisturbed(g.first, e, c, m);
    }
  }

  /** After a grouped body ran without raising, the entry under `k` is the value of
      its last assignment on the final record. */
  lemma {:induction false} SettledLate(g: Groups, i: nat, k: Key, e: Expr, c: Call, m: map<Key, Value>)
    requires Complete(m)
    requires Exec(Flatten(g), c, m).fault.None?
    requires LastReadsEarlier(g, i, k, e)
    ensures Eval(e, c, Exec(Flatten(g), c, m).values) == Ok(Exec(Flatten(g), c, m).values[k])
  {
    ExecAppend(g.first, Flatten(g.rest), c, m);
    var r := Exec(g.first, c, m);
    if i == 0 {
      LateHolds(g.first, k, e, c, m);
      Untouched(g.rest, k, c, r.values);
      DisturbsFlatten(g.rest, e);
      ExecUndisturbed(Flatten(g.rest), e, c, r.values);
    } else {
      SettledLate(g.rest, i - 1, k, e, c, r.values);
    }
  }

  // ---------------------------------------------------------------- branches in four groups

  /** A branch written as four groups: the layer's identity, its description, its
      position, and what reads the entries before it (the map link). */
  function Four(a: Stmts, b: Stmts, d: Stmts, t: Stmts): Groups
  {
    Group(a, Group(b, Group(d, Group(t, Last))))
  }

  /** Four groups that raised nothing: the third group raised nothing on the record the
      first two left, and every entry the fourth group does not write keeps its value. */
  lemma ThirdOfFour(a: Stmts, b: Stmts, d: Stmts, t: Stmts, c: Call, m: map<Key, Value>)
    requires Complete(m) && Exec(Flatten(Four(a, b, d, t)), c, m).fault.None?
    ensures var before := Exec(b, c, Exec(a, c, m).values).values;
      && Exec(d, c, before).fault.None?
      && forall q :: !WritesAny(t, q) ==> Exec(Flatten(Four(a, b, d, t)), c, m).values[q] == Exec(d, c, before).values[q]
  {
    assert Flatten(Group(t, Last)) == Append(t, Nil);
    assert Flatten(Group(d, Group(t, Last))) == Append(d, Append(t, Nil));
    assert Flatten(Four(a, b, d, t)) == Append(a, Append(b, Append(d, Append(t, Nil))));
    var ra := Exec(a, c, m);
    ExecAppend(a, Append(b, Append(d, Append(t, Nil))), c, m);
    var rb := Exec(b, c, ra.values);
    ExecAppend(b, Append(d, Append(t, Nil)), c, ra.values);
    var rd := Exec(d, c, rb.values);
    ExecAppend(d, Append(t, Nil), c, rb.values);
    ExecAppend(t, Nil, c, rd.values);
    ExecKeeps(t, c, rd.values);
  }

  /** Three statements that raised nothing end with the third one's step. */
  lemma ThirdStep(x: Stmt, y: Stmt, st: Stmt, c: Call, m: map<Key, Value>)
    requires Complete(m) && Exec(Cons(x, Cons(y, Cons(st, Nil))), c, m).fault.None?
    ensures var m2 := Step(y, c, Step(x, c, m).values).values;
      Exec(Cons(x, Cons(y, Cons(st, Nil))), c, m) == Step(st, c, m2)
  {
    var m1 := Step(x, c, m).values;
    var m2 := Step(y, c, m1).values;
    assert Exec(Cons(x, Cons(y, Cons(st, Nil))), c, m) == Exec(Cons(y, Cons(st, Nil)), c, m1);
    assert Exec(Cons(y, Cons(st, Nil)), c, m1) == Exec(Cons(st, Nil), c, m2);
  }

  /** A script that returned the record ran its body without an exception. */
  lemma Delivered(s: Script, c: Call, m: map<Key, Value>)
    requires Complete(m) && Run(s, c, m).returned == Dict
    ensures Exec(s.body, c, m).fault.None? && Run(s, c, m).values == Exec(s.body, c, m).values
  {
  }

  /** In four groups, `k` is last assigned by `e`, which reads no entry, in group `i`
      of the first three. */
  predicate FreeIn(a: Stmts, b: Stmts, d: Stmts, t: Stmts, i: nat, k: Key, e: Expr)
  {
    && ExprFree(e) && i < 3 && !WritesAny(t, k)
    && (i == 0 ==> LastStore(a, k, e) && !WritesAny(b, k) && !WritesAny(d, k))
    && (i == 1 ==> LastStore(b, k, e) && !WritesAny(d, k))
    && (i == 2 ==> LastStore(d, k, e))
  }

  /** Such an entry of a body that raised nothing: its value on the incoming record
      is the entry's final value. */
  lemma FreeOfFour(a: Stmts, b: Stmts, d: Stmts, t: Stmts, i: nat, k: Key, e: Expr, c: Call, m: map<Key, Value>)
    requires Complete(m) && Exec(Flatten(Four(a, b, d, t)), c, m).fault.None?
    requires FreeIn(a, b, d, t, i, k, e)
    ensures Eval(e, c, m) == Ok(Exec(Flatten(Four(a, b, d, t)), c, m).values[k])
  {
    FreeLastIn(if i == 0 then a else if i == 1 then b else d, k, e);
    Undisturbing(a, e);
    Undisturbing(b, e);
    LastOfFour(a, b, d, t, i, k, e);
    Settled(Four(a, b, d, t), i, k, e, c, m);
  }

  /** An entry last assigned in the fourth group of a body that raised nothing: its
      value on the final record is the entry's final value. */
  lemma LateOfFourHolds(a: Stmts, b: Stmts, d: Stmts, t: Stmts, k: Key, e: Expr, c: Call, m: map<Key, Value>)
    requires Complete(m) && Exec(Flatten(Four(a, b, d, t)), c, m).fault.None?
    requires LastLate(t, k, e)
    ensures Eval(e, c, Exec(Flatten(Four(a, b, d, t)), c, m).values) == Ok(Exec(Flatten(Four(a, b, d, t)), c, m).values[k])
  {
    LateOfFour(a, b, d, t, k, e);
    SettledLate(Four(a, b, d, t), 3, k, e, c, m);
  }

  /** An entry no group assigns keeps its incoming value. */
  lemma NoneOfFourHolds(a: Stmts, b: Stmts, d: Stmts, t: Stmts, k: Key, c: Call, m: map<Key, Value>)
    requires Complete(m)
    requires !WritesAny(a, k) && !WritesAny(b, k) && !WritesAny(d, k) && !WritesAny(t, k)
    ensures Exec(Flatten(Four(a, b, d, t)), c, m).values[k] == m[k]
  {
    NoneOfFour(a, b, d, t, k);
    Untouched(Four(a, b, d, t), k, c, m);
  }

  /** The substrings that choose a branch, tested in this order; a scraper without a
      WMTS branch has no WMTS marker, and some test for STAC by equality. */
  datatype Markers = Markers(wms: string, wmts: Option<string>, wfs: string, stacExact: bool)

  predicate NamesStac(t: string, k: Markers)
  {
    if k.stacExact then t == "STAC" else Contains(t, "STAC")
  }

  predicate NamesWmts(t: string, k: Markers)
  {
    k.wmts.Some? && Contains(t, k.wmts.value)
  }

  /** The branch of an `if ... in type: ... elif ...` chain. */
  function ChooseBranch(t: string, k: Markers): (r: Branch)
    ensures r == WmsBranch <==> Contains(t, k.wms)
    ensures r == WmtsBranch <==> !Contains(t, k.wms) && NamesWmts(t, k)
    ensures r == WfsBranch <==> !Contains(t, k.wms) && !NamesWmts(t, k) && Contains(t, k.wfs)
    ensures r == StacBranch <==> !Contains(t, k.wms) && !NamesWmts(t, k) && !Contains(t, k.wfs) && NamesStac(t, k)
  {
    if Contains(t, k.wms) then WmsBranch
    else if NamesWmts(t, k) then WmtsBranch
    else if Contains(t, k.wfs) then WfsBranch
    else if NamesStac(t, k) then StacBranch
    else NoBranch
  }

  /** `if "WMS" in t: ... elif ...` on a value that may be None: `in` on None raises. */
  function BranchOfText(t: Option<string>, k: Markers): (r: Result<Branch>)
    ensures r.Err? <==> t.None?
    ensures t.Some? ==> r == Ok(ChooseBranch(t.value, k))
  {
    if t.None? then Err(TypeError("argument of type 'NoneType' is not iterable")) else Ok(ChooseBranch(t.value, k))
  }

  /** Whether `t` carries the marker of branch `b`. */
  predicate Carries(t: string, k: Markers, b: Branch)
  {
    match b
    case WmsBranch => Contains(t, k.wms)
    case WmtsBranch => NamesWmts(t, k)
    case WfsBranch => Contains(t, k.wfs)
    case StacBranch => NamesStac(t, k)
    case NoBranch => false
  }

  /** The order in which the scrapers test the markers. */
  const TestOrder: seq<Branch> := [WmsBranch, WmtsBranch, WfsBranch, StacBranch]

  /** The first branch of `bs` whose marker `t` carries, or NoBranch. */
  function FirstMarked(t: string, k: Markers, bs: seq<Branch>): Branch
    decreases |bs|
  {
    if bs == [] then NoBranch
    else if Carries(t, k, bs[0]) then bs[0]
    else FirstMarked(t, k, bs[1..])
  }

  /** The chain picks the first branch, in test order, whose marker the text carries;
      on a None text the test raises instead. */
  lemma FirstMarkerWins(t: string, k: Markers)
    ensures ChooseBranch(t, k) == FirstMarked(t, k, TestOrder)
    ensures ChooseBranch(t, k) != NoBranch ==> Carries(t, k, ChooseBranch(t, k))
    ensures BranchOfText(Some(t), k) == Ok(FirstMarked(t, k, TestOrder)) && BranchOfText(None, k).Err?
  {
    assert TestOrder[1..] == [WmtsBranch, WfsBranch, StacBranch];
    assert TestOrder[1..][1..] == [WfsBranch, StacBranch];
    assert TestOrder[1..][1..][1..] == [StacBranch];
    assert TestOrder[1..][1..][1..][1..] == [];
  }

  // ---------------------------------------------------------------- shared abstracts

  /** `str(layer.abstract) + " " + layer.parent.abstract` when the layer has a parent
      with an abstract, else `otherwise`. */
  function WithParentAbstract(otherwise: Str): Str
  {
    IfParentAbstract(Cat(Plus(ShownAbstract, Plus(Lit(" "), Plus(ParentAbstract, Done)))), otherwise)
  }

  /** `service.identification.abstract + " " + service.identification.accessconstraints`. */
  function ServiceAbstractAndConstraints(): Str
  {
    Cat(Plus(ServiceAbstract, Plus(Lit(" "), Plus(AccessConstraints, Done))))
  }

  // ---------------------------------------------------------------- failures

  /** An expression that raises whatever the input: a call of `remove_newline` in a
      module that does not define it, or a name that is not defined. */
  predicate Doomed(e: Expr)
  {
    e.Unbound? || (e.Of? && e.s.Cleaned? && e.s.how.Missing?)
  }

  predicate AnyDoomed(ss: Stmts)
  {
    ss.Cons? && ((ss.head.Store? && Doomed(ss.head.e)) || AnyDoomed(ss.tail))
  }

  /** A body holding a doomed assignment outside any try block always raises. */
  lemma {:induction false} DoomedBodyRaises(ss: Stmts, c: Call, m: map<Key, Value>)
    requires Complete(m)
    requires AnyDoomed(ss)
    ensures Exec(ss, c, m).fault.Some?
  {
    if !(ss.head.Store? && Doomed(ss.head.e)) {
      if Step(ss.head, c, m).fault.None? {
        DoomedBodyRaises(ss.tail, c, Step(ss.head, c, m).values);
      }
    }
  }

  /** A doomed assignment stays doomed whatever runs after it. */
  lemma {:induction false} DoomedAppend(a: Stmts, b: Stmts)
    requires AnyDoomed(a)
    ensures AnyDoomed(Append(a, b))
  {
    if !(a.head.Store? && Doomed(a.head.e)) {
      DoomedAppend(a.tail, b);
    }
  }

  // ---------------------------------------------------------------- concatenation

  /** Every part of a concatenation evaluates to a string. */
  predicate AllText(ps: Atoms, c: Call, m: map<Key, Value>)
    requires Complete(m)
  {
    ps.Done? ||
    (EvalAtom(ps.first, c, m).Ok? && EvalAtom(ps.first, c, m).value.Some? && AllText(ps.more, c, m))
  }

  /** The texts the parts evaluate to, one after the other. */
  function TextsOf(ps: Atoms, c: Call, m: map<Key, Value>): string
    requires Complete(m) && AllText(ps, c, m)
  {
    match ps
    case Done => ""
    case Plus(a, more) => EvalAtom(a, c, m).value.value + TextsOf(more, c, m)
  }

  lemma {:induction false} CatFromText(acc: string, ps: Atoms, c: Call, m: map<Key, Value>)
    requires Complete(m)
    ensures AllText(ps, c, m) ==> CatFrom(Some(acc), ps, c, m) == Ok(Some(acc + TextsOf(ps, c, m)))
    ensures !AllText(ps, c, m) ==> CatFrom(Some(acc), ps, c, m).Err?
    decreases ps
  {
    match ps
    case Done =>
      assert acc + "" == acc;
    case Plus(a, more) =>
      var v := EvalAtom(a, c, m);
      if v.Ok? && v.value.Some? {
        CatFromText(acc + v.value.value, more, c, m);
        if AllText(ps, c, m) {
          assert acc + v.value.value + TextsOf(more, c, m) == acc + (v.value.value + TextsOf(more, c, m));
        }
      }
  }

  /** The first operand of a chain, and the rest. */
  lemma Peel(ps: Atoms, c: Call, m: map<Key, Value>)
    requires Complete(m) && ps.Plus?
    ensures AllText(ps, c, m) ==
      (EvalAtom(ps.first, c, m).Ok? && EvalAtom(ps.first, c, m).value.Some? && AllText(ps.more, c, m))
    ensures AllText(ps, c, m) ==> TextsOf(ps, c, m) == EvalAtom(ps.first, c, m).value.value + TextsOf(ps.more, c, m)
  {
  }

  /** `a + b + ...` is the concatenation of its parts when each is a string, and
      raises otherwise (TypeError for None, or what a part itself raises). */
  lemma CatText(ps: Atoms, c: Call, m: map<Key, Value>)
    requires Complete(m)
    ensures AllText(ps, c, m) ==> EvalStr(Cat(ps), c, m) == Ok(Some(TextsOf(ps, c, m)))
    ensures ps.Plus? && ps.more.Plus? && !AllText(ps, c, m) ==> EvalStr(Cat(ps), c, m).Err?
  {
    if ps.Plus? {
      var v := EvalAtom(ps.first, c, m);
      if v.Ok? && v.value.Some? {
        CatFromText(v.value.value, ps.more, c, m);
      }
    }
  }

  /** The operands of `a` followed by those of `b`: one chain of `+` written in two parts. */
  function Chain(a: Atoms, b: Atoms): Atoms
  {
    match a
    case Done => b
    case Plus(x, more) => Plus(x, Chain(more, b))
  }

  lemma {:induction false} ChainReads(a: Atoms, b: Atoms, q: Key)
    ensures AtomsRead(Chain(a, b), q) == (AtomsRead(a, q) || AtomsRead(b, q))
  {
    if a.Plus? {
      ChainReads(a.more, b, q);
    }
  }

  /** A chain written in two parts is all text when both parts are, and then its
      text is theirs one after the other. */
  lemma {:induction false} ChainText(a: Atoms, b: Atoms, c: Call, m: map<Key, Value>)
    requires Complete(m)
    ensures AllText(Chain(a, b), c, m) == (AllText(a, c, m) && AllText(b, c, m))
    ensures AllText(a, c, m) && AllText(b, c, m) ==>
      TextsOf(Chain(a, b), c, m) == TextsOf(a, c, m) + TextsOf(b, c, m)
  {
    match a
    case Done =>
    case Plus(x, more) =>
      ChainText(more, b, c, m);
      if AllText(a, c, m) && AllText(b, c, m) {
        var t := EvalAtom(x, c, m).value.value;
        assert t + TextsOf(more, c, m) + TextsOf(b, c, m) == t + (TextsOf(more, c, m) + TextsOf(b, c, m));
      }
  }

  /** A concatenation written in two parts, each of at least two operands for the
      first, evaluates only when both parts are text, and then to their texts. */
  lemma CatChain(a: Atoms, b: Atoms, c: Call, m: map<Key, Value>)
    requires Complete(m) && a.Plus? && a.more.Plus?
    ensures EvalStr(Cat(Chain(a, b)), c, m).Ok? ==>
      AllText(a, c, m) && AllText(b, c, m) &&
      EvalStr(Cat(Chain(a, b)), c, m) == Ok(Some(TextsOf(a, c, m) + TextsOf(b, c, m)))
  {
    CatText(Chain(a, b), c, m);
    ChainText(a, b, c, m);
  }

  /** An expression joining two runs of parts that gave a value gave their texts joined. */
  lemma CatPairValue(a: Atoms, b: Atoms, c: Call, m: map<Key, Value>, v: Value)
    requires Complete(m) && a.Plus? && a.more.Plus? && Eval(Of(Cat(Chain(a, b))), c, m) == Ok(v)
    ensures AllText(a, c, m) && AllText(b, c, m)
    ensures v == Text(TextsOf(a, c, m) + TextsOf(b, c, m))
  {
    CatChain(a, b, c, m);
  }

  // ---------------------------------------------------------------- execution on layer_data

  /** The assignments of a try block, performed one by one on `layer_data`. */
  method PerformAssign(ps: seq<(Key, Expr)>, c: Call, ld: LayerData) returns (fault: Option<Fault>)
    requires ld.Valid()
    modifies ld
    ensures ld.Valid()
    ensures State(ld.values, fault) == Assign(ps, c, old(ld.values))
  {
    var i := 0;
    while i < |ps|
      invariant 0 <= i <= |ps|
      invariant ld.Valid()
      invariant Assign(ps, c, old(ld.values)) == Assign(ps[i..], c, ld.values)
    {
      assert ps[i..][1..] == ps[i + 1..];
      var v := Eval(ps[i].1, c, ld.values);
      if v.Err? {
        return Some(v.fault);
      }
      ld.Put(ps[i].0, v.value);
      i := i + 1;
    }
    return None;
  }

  /** One statement of a scraper branch, performed on `layer_data`. */
  method PerformStep(st: Stmt, c: Call, ld: LayerData) returns (fault: Option<Fault>)
    requires ld.Valid()
    modifies ld
    ensures ld.Valid()
    ensures State(ld.values, fault) == Step(st, c, old(ld.values))
  {
    match st
    case Store(k, e) =>
      var v := Eval(e, c, ld.values);
      if v.Err? {
        return Some(v.fault);
      }
      ld.Put(k, v.value);
      return None;
    case Try(body, handler) =>
      fault := PerformAssign(body, c, ld);
      if fault.Some? {
        fault := PerformAssign(handler, c, ld);
      }
  }

  /** `scrape(...)`: the branch's statements change `layer_data` in place, in order,
      until one raises; then the branch returns, or the exception propagates. */
  method Perform(s: Script, c: Call, ld: LayerData) returns (r: Returned)
    requires ld.Valid()
    modifies ld
    ensures ld.Valid()
    ensures Outcome(ld.values, r) == Run(s, c, old(ld.values))
  {
    var rest := s.body;
    while rest.Cons?
      invariant ld.Valid()
      invariant Exec(s.body, c, old(ld.values)) == Exec(rest, c, ld.values)
      decreases rest
    {
      var fault := PerformStep(rest.head, c, ld);
      if fault.Some? {
        return Raised(fault.value);
      }
      rest := rest.tail;
    }
    match s.ending
    case GiveDict => r := Dict;
    case GiveFalse => r := FalseValue;
    case GiveNone => r := NoneValue;
    case Raise(f) => r := Raised(f);
  }
}
