// The output record of one layer: `service_result_empty` and the `layer_data`
// dictionary the scrapers fill in.
module Record {
  import opened Python
  import opened Capabilities

  /** The columns of geoservices_CH.csv. */
  datatype Key =
    | OWNER | TITLE | NAME | MAPGEO | TREE | GROUP | ABSTRACT | KEYWORDS | LEGEND
    | CONTACT | SERVICELINK | METADATA | UPDATE | SERVICETYPE | MAX_ZOOM
    | CENTER_LAT | CENTER_LON | BBOX

  /** The value stored under a key: a string, a float, an int, a list of keywords, or None. */
  datatype Value =
    | Text(text: string)
    | Number(x: real)
    | Integer(n: int)
    | Words(items: seq<Option<string>>)
    | Nothing

  /** The column order of every output row. */
  const Columns: seq<Key> :=
    [OWNER, TITLE, NAME, MAPGEO, TREE, GROUP, ABSTRACT, KEYWORDS, LEGEND, CONTACT,
     SERVICELINK, METADATA, UPDATE, SERVICETYPE, MAX_ZOOM, CENTER_LAT, CENTER_LON, BBOX]

  /** Every key is a column, exactly once. */
  lemma ColumnsComplete(k: Key)
    ensures k in Columns
    ensures |Columns| == 18
    ensures forall i, j :: 0 <= i < j < |Columns| ==> Columns[i] != Columns[j]
  {
  }

  /** The header text of a column. */
  function HeaderOf(k: Key): string
  {
    match k
    case OWNER => "OWNER"
    case TITLE => "TITLE"
    case NAME => "NAME"
    case MAPGEO => "MAPGEO"
    case TREE => "TREE"
    case GROUP => "GROUP"
    case ABSTRACT => "ABSTRACT"
    case KEYWORDS => "KEYWORDS"
    case LEGEND => "LEGEND"
    case CONTACT => "CONTACT"
    case SERVICELINK => "SERVICELINK"
    case METADATA => "METADATA"
    case UPDATE => "UPDATE"
    case SERVICETYPE => "SERVICETYPE"
    case MAX_ZOOM => "MAX_ZOOM"
    case CENTER_LAT => "CENTER_LAT"
    case CENTER_LON => "CENTER_LON"
    case BBOX => "BBOX"
  }

  /** The empty record: every column, "n.a." except TITLE, NAME and ABSTRACT
      ("n.a") and GROUP (""). */
  function Template(): (m: map<Key, Value>)
    ensures Complete(m)
    ensures forall k: Key :: m[k] == Initial(k)
  {
    AllColumns();
    map k: Key | k in Columns :: Initial(k)
  }

  /** A record that holds every column. */
  predicate Complete(m: map<Key, Value>)
  {
    forall k: Key :: k in m
  }

  /** The value the template gives a column. */
  function Initial(k: Key): Value
  {
    if k == GROUP then Text("") else if k in {TITLE, NAME, ABSTRACT} then Text("n.a") else Text("n.a.")
  }

  /** Every key is a column. */
  lemma AllColumns()
    ensures forall k: Key :: k in Columns
  {
    forall k: Key ensures k in Columns { ColumnsComplete(k); }
  }

  /** `str(v)`. */
  function Show(v: Value, h: Host): string
  {
    match v
    case Text(s) => s
    case Number(x) => h.showReal(x)
    case Integer(n) => Decimal(n)
    case Words(items) => h.showList(items)
    case Nothing => "None"
  }

  /** What csv.DictWriter writes for a value: like str, except that None is empty. */
  function Cell(v: Value, h: Host): (r: string)
    ensures v.Nothing? ==> r == ""
    ensures !v.Nothing? ==> r == Show(v, h)
  {
    if v.Nothing? then "" else Show(v, h)
  }

  /** The `layer_data` dictionary: its key order and its contents. */
  class LayerData {
    var keys: seq<Key>
    var values: map<Key, Value>

    /** Every column is present, in column order. */
    ghost predicate Valid()
      reads this
    {
      keys == Columns && Complete(values)
    }

    /** `service_result_empty()`: evaluating its dictionary display, whose repeated
        LEGEND and MAPGEO entries keep their first position, gives the template. */
    constructor ()
      ensures Valid()
      ensures values == Template()
    {
      keys := [];
      values := map[];
      new;
      FirstDisplayLine();
      SecondDisplayLine();
      ThirdDisplayLine();
      FourthDisplayLine();
      forall k: Key ensures k in values && values[k] == Initial(k) {
        match k
        case OWNER => case TITLE => case NAME => case MAPGEO => case TREE => case GROUP =>
        case ABSTRACT => case KEYWORDS => case LEGEND => case CONTACT => case SERVICELINK =>
        case METADATA => case UPDATE => case SERVICETYPE => case MAX_ZOOM =>
        case CENTER_LAT => case CENTER_LON => case BBOX =>
      }
    }

    /** `d[k] = v` on a Python dict: a new key goes to the end, an existing one keeps its place. */
    method Set(k: Key, v: Value)
      modifies this
      ensures keys == old(keys) + (if k in old(keys) then [] else [k])
      ensures values == old(values)[k := v]
    {
      if k !in keys {
        keys := keys + [k];
      }
      values := values[k := v];
    }

    // scraper.py:17
    method FirstDisplayLine()
      requires keys == [] && values == map[]
      modifies this
      ensures keys == [OWNER, TITLE, NAME, MAPGEO, TREE, GROUP, ABSTRACT]
      ensures values == map[OWNER := Text("n.a."), TITLE := Text("n.a"), NAME := Text("n.a"),
        MAPGEO := Text("n.a."), TREE := Text("n.a."), GROUP := Text(""), ABSTRACT := Text("n.a")]
    {
      Set(OWNER, Text("n.a.")); Set(TITLE, Text("n.a")); Set(NAME, Text("n.a"));
      Set(MAPGEO, Text("n.a.")); Set(TREE, Text("n.a.")); Set(GROUP, Text("")); Set(ABSTRACT, Text("n.a"));
    }

    // scraper.py:18
    method SecondDisplayLine()
      requires keys == [OWNER, TITLE, NAME, MAPGEO, TREE, GROUP, ABSTRACT]
      modifies this
      ensures keys == [OWNER, TITLE, NAME, MAPGEO, TREE, GROUP, ABSTRACT, KEYWORDS, LEGEND, CONTACT, SERVICELINK]
      ensures values == old(values)[KEYWORDS := Text("n.a.")][LEGEND := Text("n.a.")]
        [CONTACT := Text("n.a.")][SERVICELINK := Text("n.a.")]
    {
      Set(KEYWORDS, Text("n.a.")); Set(LEGEND, Text("n.a.")); Set(CONTACT, Text("n.a.")); Set(SERVICELINK, Text("n.a."));
    }

    // scraper.py:19
    method ThirdDisplayLine()
      requires keys == [OWNER, TITLE, NAME, MAPGEO, TREE, GROUP, ABSTRACT, KEYWORDS, LEGEND, CONTACT, SERVICELINK]
      modifies this
      ensures keys == [OWNER, TITLE, NAME, MAPGEO, TREE, GROUP, ABSTRACT, KEYWORDS, LEGEND, CONTACT, SERVICELINK,
        METADATA, UPDATE, SERVICETYPE, MAX_ZOOM]
      ensures values == old(values)[METADATA := Text("n.a.")][UPDATE := Text("n.a.")][LEGEND := Text("n.a.")]
        [SERVICETYPE := Text("n.a.")][MAX_ZOOM := Text("n.a.")]
    {
      Set(METADATA, Text("n.a.")); Set(UPDATE, Text("n.a.")); Set(LEGEND, Text("n.a."));
      Set(SERVICETYPE, Text("n.a.")); Set(MAX_ZOOM, Text("n.a."));
    }

    // scraper.py:20
    method FourthDisplayLine()
      requires keys == [OWNER, TITLE, NAME, MAPGEO, TREE, GROUP, ABSTRACT, KEYWORDS, LEGEND, CONTACT, SERVICELINK,
        METADATA, UPDATE, SERVICETYPE, MAX_ZOOM]
      modifies this
      ensures keys == Columns
      ensures values == old(values)[CENTER_LAT := Text("n.a.")][CENTER_LON := Text("n.a.")]
        [MAPGEO := Text("n.a.")][BBOX := Text("n.a.")]
    {
      Set(CENTER_LAT, Text("n.a.")); Set(CENTER_LON, Text("n.a.")); Set(MAPGEO, Text("n.a.")); Set(BBOX, Text("n.a."));
    }

    /** `layer_data[k] = v` by a scraper: the key set and the key order do not change. */
    method Put(k: Key, v: Value)
      requires Valid()
      modifies this
      ensures Valid()
      ensures keys == old(keys)
      ensures values == old(values)[k := v]
    {
      ColumnsComplete(k);
      Set(k, v);
    }

    /** The values in column order, as a DictWriter row lists them. */
    function Row(): (r: seq<Value>)
      requires Valid()
      reads this
      ensures |r| == |keys|
      ensures forall j :: 0 <= j < |keys| ==> r[j] == values[keys[j]]
    {
      var ks := keys;
      var vs := values;
      seq(|ks|, j requires 0 <= j < |ks| => vs[ks[j]])
    }
  }

  /** A record's CSV line. */
  function RowOf(m: map<Key, Value>, h: Host): (r: seq<string>)
    requires Complete(m)
    ensures |r| == |Columns|
    ensures forall j :: 0 <= j < |Columns| ==> r[j] == Cell(m[Columns[j]], h)
  {
    seq(|Columns|, j requires 0 <= j < |Columns| => Cell(m[Columns[j]], h))
  }

  /** The column a header text names, if any: the inverse of HeaderOf. */
  function KeyNamed(name: string): Option<Key>
  {
    if name == "OWNER" then Some(OWNER)
    else if name == "TITLE" then Some(TITLE)
    else if name == "NAME" then Some(NAME)
    else if name == "MAPGEO" then Some(MAPGEO)
    else if name == "TREE" then Some(TREE)
    else if name == "GROUP" then Some(GROUP)
    else if name == "ABSTRACT" then Some(ABSTRACT)
    else if name == "KEYWORDS" then Some(KEYWORDS)
    else if name == "LEGEND" then Some(LEGEND)
    else if name == "CONTACT" then Some(CONTACT)
    else if name == "SERVICELINK" then Some(SERVICELINK)
    else if name == "METADATA" then Some(METADATA)
    else if name == "UPDATE" then Some(UPDATE)
    else if name == "SERVICETYPE" then Some(SERVICETYPE)
    else if name == "MAX_ZOOM" then Some(MAX_ZOOM)
    else if name == "CENTER_LAT" then Some(CENTER_LAT)
    else if name == "CENTER_LON" then Some(CENTER_LON)
    else if name == "BBOX" then Some(BBOX)
    else None
  }

  /** A column's header text reads back as that column. */
  lemma NamedBack(k: Key)
    ensures KeyNamed(HeaderOf(k)) == Some(k)
  {
    match k
    case OWNER => case TITLE => case NAME => case MAPGEO => case TREE => case GROUP =>
    case ABSTRACT => case KEYWORDS => case LEGEND => case CONTACT => case SERVICELINK =>
    case METADATA => case UPDATE => case SERVICETYPE => case MAX_ZOOM =>
    case CENTER_LAT => case CENTER_LON => case BBOX =>
  }

  /** A column's header text names that column and no other. */
  lemma HeaderNamesColumn(k: Key, k': Key)
    ensures KeyNamed(HeaderOf(k)) == Some(k)
    ensures HeaderOf(k) == HeaderOf(k') ==> k == k'
  {
    NamedBack(k);
    NamedBack(k');
  }

  /** The position of a column in every row. */
  function ColumnIndex(k: Key): (r: nat)
    ensures r < |Columns| && Columns[r] == k
  {
    match k
    case OWNER => 0 case TITLE => 1 case NAME => 2 case MAPGEO => 3 case TREE => 4 case GROUP => 5
    case ABSTRACT => 6 case KEYWORDS => 7 case LEGEND => 8 case CONTACT => 9 case SERVICELINK => 10
    case METADATA => 11 case UPDATE => 12 case SERVICETYPE => 13 case MAX_ZOOM => 14
    case CENTER_LAT => 15 case CENTER_LON => 16 case BBOX => 17
  }

  /** The cell a csv.DictReader gives a name: the one under the first header entry
      with that name. */
  function Field(header: seq<string>, row: seq<string>, name: string): Option<string>
    decreases |header|
  {
    if header == [] || row == [] then None
    else if header[0] == name then Some(row[0])
    else Field(header[1..], row[1..], name)
  }

  /** The first header entry equal to `name` is at `p`. */
  lemma {:induction false} FieldAt(header: seq<string>, row: seq<string>, name: string, p: nat)
    requires p < |header| && p < |row| && header[p] == name
    requires forall i :: 0 <= i < p ==> header[i] != name
    ensures Field(header, row, name) == Some(row[p])
    decreases p
  {
    if p > 0 {
      FieldAt(header[1..], row[1..], name, p - 1);
    }
  }

  /** Reading a written line back under the header gives every column's cell: a record
      survives the CSV file, except that None and "" both come back as "". */
  lemma ReadBack(m: map<Key, Value>, h: Host, k: Key)
    requires Complete(m)
    ensures Field(HeaderLine(), RowOf(m, h), HeaderOf(k)) == Some(Cell(m[k], h))
    ensures m[k].Nothing? ==> Field(HeaderLine(), RowOf(m, h), HeaderOf(k)) == Some("")
  {
    var p := ColumnIndex(k);
    forall i | 0 <= i < p
      ensures HeaderLine()[i] != HeaderOf(k)
    {
      ColumnsComplete(k);
      HeaderNamesColumn(Columns[i], k);
    }
    FieldAt(HeaderLine(), RowOf(m, h), HeaderOf(k), p);
  }

  /** The header and the row of a `layer_data` follow its own key order: the
      `fieldnames=list(layer_data.keys())` of the writer; no header text repeats. */
  lemma LineOfRecord(ld: LayerData, h: Host)
    requires ld.Valid()
    ensures |HeaderLine()| == |ld.keys| == |RowOf(ld.values, h)|
    ensures forall j :: 0 <= j < |ld.keys| ==>
      HeaderLine()[j] == HeaderOf(ld.keys[j]) && RowOf(ld.values, h)[j] == Cell(ld.Row()[j], h)
    ensures forall i, j :: 0 <= i < j < |ld.keys| ==> HeaderLine()[i] != HeaderLine()[j]
  {
    forall i, j | 0 <= i < j < |ld.keys|
      ensures HeaderLine()[i] != HeaderLine()[j]
    {
      ColumnsComplete(Columns[i]);
      HeaderNamesColumn(Columns[i], Columns[j]);
    }
  }

  /** The header line: `list(layer_data.keys())`. */
  function HeaderLine(): (r: seq<string>)
    ensures |r| == |Columns|
    ensures forall j :: 0 <= j < |Columns| ==> r[j] == HeaderOf(Columns[j])
  {
    seq(|Columns|, j requires 0 <= j < |Columns| => HeaderOf(Columns[j]))
  }
}
