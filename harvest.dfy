// scraper.py: negotiating a service, walking its layers once, choosing each owner's
// strategy and writing one row of geoservices_CH.csv per layer.
module Harvest {
  import opened Python
  import opened Capabilities
  import opened Record
  import opened Script
  import opened LayerWalk
  import Owners
  import DefaultScraper

  // ---------------------------------------------------------------- strategies

  /** The module of scraper/ that holds an owner's `scrape`. */
  function ModuleName(o: Owners.Owner): string
  {
    match o
    case AR => "KT_AR"
    case BE => "KT_BE"
    case BL => "KT_BL"
    case BS => "KT_BS"
    case GL => "KT_GL"
    case SO => "KT_SO"
    case SZ => "KT_SZ"
    case VD => "KT_VD"
    case ZG => "KT_ZG"
    case ZH => "KT_ZH"
    case GEODIENSTE => "Geodienste"
  }

  /** The owner modules importlib finds, by name. */
  const Registry: map<string, Owners.Owner> :=
    map["KT_AR" := Owners.AR, "KT_BE" := Owners.BE, "KT_BL" := Owners.BL, "KT_BS" := Owners.BS,
        "KT_GL" := Owners.GL, "KT_SO" := Owners.SO, "KT_SZ" := Owners.SZ, "KT_VD" := Owners.VD,
        "KT_ZG" := Owners.ZG, "KT_ZH" := Owners.ZH, "Geodienste" := Owners.GEODIENSTE]

  /** The `scrape` write_service_info runs: an owner's own, or default.py's. */
  datatype Strategy = Custom(owner: Owners.Owner) | Fallback

  /** The module named after source['Description'] when there is one, else `default`. */
  function StrategyOf(description: string): Strategy
  {
    if description in Registry then Custom(Registry[description]) else Fallback
  }

  /** Every owner module is found under its own name, and only those names find one. */
  lemma StrategyByName(o: Owners.Owner, description: string)
    ensures StrategyOf(ModuleName(o)) == Custom(o)
    ensures StrategyOf(description).Custom? <==> exists p: Owners.Owner :: ModuleName(p) == description
  {
    if description in Registry {
      var p := Registry[description];
      assert ModuleName(p) == description;
    }
  }

  /** The script both kinds of strategy run on the same arguments. */
  function PlanOf(s: Strategy, c: Call): Script
  {
    match s
    case Custom(o) => Owners.Plan(o, c)
    case Fallback => DefaultScraper.Plan(c)
  }

  // ---------------------------------------------------------------- the files written

  /** geoservices_CH.csv: whether the file exists, and its lines. */
  datatype Csv = Csv(present: bool, lines: seq<seq<string>>)

  /** A line appended to `<owner>_error.txt`. */
  datatype LogLine = LogLine(owner: string, text: string)

  /** Everything the harvester writes. */
  datatype Files = Files(csv: Csv, log: seq<LogLine>)

  /** `layer_data.keys()` on the False or None that a strategy returned. */
  const KeysOfNonDict: Fault := AttributeError("keys")

  /** scraper.py:167-180 as written: the row goes to the end of an existing file; a
      missing file is opened for writing, and only then is `layer_data.keys()` read,
      so a strategy that returned False or None leaves an empty file behind. */
  function EmitAsWritten(f: Csv, got: Returned, row: seq<string>): (r: (Csv, Option<Fault>))
    ensures got.Raised? ==> r == (f, Some(got.fault))
    ensures got == Dict ==> r.1.None? && r.0 == Csv(true, (if f.present then f.lines else [HeaderLine()]) + [row])
    ensures (got == FalseValue || got == NoneValue) ==>
      r.1 == Some(KeysOfNonDict) && r.0 == (if f.present then f else Csv(true, []))
  {
    match got
    case Raised(e) => (f, Some(e))
    case Dict => if f.present then (Csv(true, f.lines + [row]), None) else (Csv(true, [HeaderLine(), row]), None)
    case _ => if f.present then (f, Some(KeysOfNonDict)) else (Csv(true, []), Some(KeysOfNonDict))
  }

  /** The file starts with the header as soon as it exists. */
  predicate HeaderLed(f: Csv)
  {
    (f.present <==> f.lines != []) && (f.lines != [] ==> f.lines[0] == HeaderLine())
  }

  /** A first layer whose strategy returned False leaves an empty file, and the next
      row is then appended to it without a header. */
  lemma HeaderLost(row: seq<string>)
    requires row != HeaderLine()
    ensures var first := EmitAsWritten(Csv(false, []), FalseValue, row).0;
      HeaderLed(first) == false && EmitAsWritten(first, Dict, row).0 == Csv(true, [row])
  {
  }

  /** The header-once rule as intended: the file is created only together with the
      header and a row, an existing file gets exactly one more row, and a failed
      strategy leaves the file as it was. */
  function Emit(f: Csv, got: Returned, row: seq<string>): (r: (Csv, Option<Fault>))
    ensures got.Raised? ==> r == (f, Some(got.fault))
    ensures got == Dict ==> r.1.None? && r.0 == Csv(true, (if f.present then f.lines else [HeaderLine()]) + [row])
    ensures (got == FalseValue || got == NoneValue) ==> r == (f, Some(KeysOfNonDict))
  {
    match got
    case Raised(e) => (f, Some(e))
    case Dict => if f.present then (Csv(true, f.lines + [row]), None) else (Csv(true, [HeaderLine(), row]), None)
    case _ => (f, Some(KeysOfNonDict))
  }

  /** Writing a layer keeps the header at the head of the file, and a file that
      exists afterwards has exactly one line, the header, before its rows. */
  lemma EmitKeepsHeader(f: Csv, got: Returned, row: seq<string>)
    ensures HeaderLed(f) ==> HeaderLed(Emit(f, got, row).0)
    ensures HeaderLed(f) ==>
      |Emit(f, got, row).0.lines| == |f.lines| + (if got != Dict then 0 else if f.present then 1 else 2)
  {
  }

  // ---------------------------------------------------------------- write_service_info

  /** The arguments `scrape` is called with for one layer. */
  function CallFor(src: Source, service: Service, id: string, tree: string, group: Group, prefix: string, h: Host): Call
  {
    Call(src, service, id, tree, group, prefix, h)
  }

  /** The line write_service_info logs: "Description URL layer: message". */
  function LayerError(c: Call, e: Fault): LogLine
  {
    LogLine(c.source.description,
      c.source.description + " " + c.source.url + " " + c.layerId + ": " + c.host.describe(e) + "\n")
  }

  /** What `scrape` makes of the empty record for this call. */
  function Scraped(c: Call): (r: Outcome)
    ensures Complete(r.values)
  {
    Run(PlanOf(StrategyOf(c.source.description), c), c, Template())
  }

  /** A file that does not exist has no lines. */
  predicate Consistent(f: Csv)
  {
    !f.present ==> f.lines == []
  }

  /** Whether a strategy's result reaches the file-writing code: only an exception
      inside `scrape` stops it before the file is opened. */
  predicate Reaches(got: Returned)
  {
    !got.Raised?
  }

  /** write_service_info, as written: the strategy runs on a fresh template, its record
      becomes a row, and any exception is logged once instead of propagating; the
      result says whether the row was written. A False or None result on a missing
      file still creates it, empty. */
  function Write(f: Files, c: Call): (r: (Files, bool))
    ensures r.1 <==> Scraped(c).returned == Dict
    ensures r.1 ==> r.0.log == f.log && r.0.csv.present
    ensures r.0.csv.present <==> f.csv.present || Reaches(Scraped(c).returned)
    ensures Consistent(f.csv) ==> Consistent(r.0.csv)
    ensures Consistent(f.csv) ==> (r.0.csv.lines ==
      (if !f.csv.present && r.1 then [HeaderLine()] else []) + f.csv.lines + (if r.1 then [RowOf(Scraped(c).values, c.host)] else []))
    ensures !r.1 ==> |r.0.log| == |f.log| + 1 && r.0.log[..|f.log|] == f.log
    ensures !r.1 ==> r.0.log[|f.log|].owner == c.source.description
    ensures HeaderLed(f.csv) && f.csv.present ==> HeaderLed(r.0.csv)
  {
    var out := Scraped(c);
    var e := EmitAsWritten(f.csv, out.returned, RowOf(out.values, c.host));
    if e.1.None? then (Files(e.0, f.log), true)
    else (Files(e.0, f.log + [LayerError(c, e.1.value)]), false)
  }

  /** A written row is the record the strategy returned, in column order. */
  lemma WrittenRow(f: Files, c: Call)
    requires Write(f, c).1
    ensures var lines := Write(f, c).0.csv.lines;
      lines[|lines| - 1] == RowOf(Scraped(c).values, c.host)
    ensures f.csv.present ==> Write(f, c).0.csv.lines == f.csv.lines + [RowOf(Scraped(c).values, c.host)]
    ensures !f.csv.present ==> Write(f, c).0.csv.lines == [HeaderLine(), RowOf(Scraped(c).values, c.host)]
  {
  }

  // ---------------------------------------------------------------- negotiation

  datatype Protocol = WmsProtocol | WmtsProtocol | WfsProtocol

  /** The owslib constructor called, with the URL and the version asked for. */
  datatype Attempted = Attempted(protocol: Protocol, url: string, version: Option<string>)

  const WfsVersion := "1.1.0"

  function WmsRequest(url: string): Attempted { Attempted(WmsProtocol, url, None) }
  function WmtsRequest(url: string): Attempted { Attempted(WmtsProtocol, url, None) }
  function WfsRequest(url: string): Attempted { Attempted(WfsProtocol, url, Some(WfsVersion)) }

  /** scraper.py:77-86: WMS first, then WMTS, then WFS 1.1.0; the flag says whether
      child layers are followed, which only a WMS service does. */
  function Negotiate(url: string, connect: Attempted -> Result<Service>): (r: Result<(Service, bool)>)
  {
    match connect(WmsRequest(url))
    case Ok(s) => Ok((s, true))
    case Err(_) =>
      match connect(WmtsRequest(url))
      case Ok(s) => Ok((s, false))
      case Err(_) =>
        match connect(WfsRequest(url))
        case Ok(s) => Ok((s, false))
        case Err(e) => Err(e)
  }

  /** The first constructor that succeeds gives the service; children are followed
      exactly when that is WMS; the last failure is the one reported. */
  lemma NegotiationOrder(url: string, connect: Attempted -> Result<Service>)
    ensures var r := Negotiate(url, connect);
      && (r.Ok? && r.value.1 <==> connect(WmsRequest(url)).Ok?)
      && (connect(WmsRequest(url)).Ok? ==> r.value.0 == connect(WmsRequest(url)).value)
      && (connect(WmsRequest(url)).Err? && connect(WmtsRequest(url)).Ok? ==> r == Ok((connect(WmtsRequest(url)).value, false)))
      && (connect(WmsRequest(url)).Err? && connect(WmtsRequest(url)).Err? ==>
            r == match connect(WfsRequest(url)) case Ok(s) => Ok((s, false)) case Err(e) => Err(e))
  {
  }

  // ---------------------------------------------------------------- the whole service

  /** The rows and log lines of a run of jobs, in order. */
  function WriteAll(f: Files, jobs: seq<Job>, src: Source, service: Service, prefix: string, h: Host): (r: Files)
    decreases |jobs|
  {
    if jobs == [] then f
    else
      var last := jobs[|jobs| - 1];
      Write(WriteAll(f, jobs[..|jobs| - 1], src, service, prefix, h), CallFor(src, service, last.id, last.tree, last.group, prefix, h)).0
  }

  /** One more job is one more write. */
  lemma WriteAllSnoc(f: Files, jobs: seq<Job>, j: Job, src: Source, service: Service, prefix: string, h: Host)
    ensures WriteAll(f, jobs + [j], src, service, prefix, h) ==
      Write(WriteAll(f, jobs, src, service, prefix, h), CallFor(src, service, j.id, j.tree, j.group, prefix, h)).0
  {
    assert (jobs + [j])[..|jobs|] == jobs;
  }

  /** What the strategy of one job returns. */
  function JobOutcome(j: Job, src: Source, service: Service, prefix: string, h: Host): Outcome
  {
    Scraped(CallFor(src, service, j.id, j.tree, j.group, prefix, h))
  }

  /** The result of the first job that reaches the file-writing code, if any. */
  function FirstReached(jobs: seq<Job>, src: Source, service: Service, prefix: string, h: Host): (r: Option<Returned>)
    ensures r.Some? ==> Reaches(r.value)
    decreases |jobs|
  {
    if jobs == [] then None
    else
      var first := FirstReached(jobs[..|jobs| - 1], src, service, prefix, h);
      var got := JobOutcome(jobs[|jobs| - 1], src, service, prefix, h).returned;
      if first.Some? then first else if Reaches(got) then Some(got) else None
  }

  /** The rows of the jobs whose strategy returned a record, in job order. */
  function Rows(jobs: seq<Job>, src: Source, service: Service, prefix: string, h: Host): (r: seq<seq<string>>)
    ensures |r| <= |jobs|
    decreases |jobs|
  {
    if jobs == [] then []
    else
      var out := JobOutcome(jobs[|jobs| - 1], src, service, prefix, h);
      Rows(jobs[..|jobs| - 1], src, service, prefix, h) + (if out.returned == Dict then [RowOf(out.values, h)] else [])
  }

  /** A run of writes, as written: the file gains the rows of the jobs that returned a
      record, in order, and gains the header only when it was missing and the first
      job to reach the file returned a record. It exists afterwards exactly when it
      existed before or some job reached it. Each job adds at most one log line. */
  lemma {:induction false} WriteAllLines(f: Files, jobs: seq<Job>, src: Source, service: Service, prefix: string, h: Host)
    requires Consistent(f.csv)
    ensures var r := WriteAll(f, jobs, src, service, prefix, h);
      var first := FirstReached(jobs, src, service, prefix, h);
      && Consistent(r.csv)
      && r.csv.present == (f.csv.present || first.Some?)
      && r.csv.lines ==
           (if !f.csv.present && first == Some(Dict) then [HeaderLine()] else []) + f.csv.lines + Rows(jobs, src, service, prefix, h)
    decreases |jobs|
  {
    if jobs != [] {
      var init := jobs[..|jobs| - 1];
      WriteAllLines(f, init, src, service, prefix, h);
      var before := WriteAll(f, init, src, service, prefix, h);
      var last := jobs[|jobs| - 1];
      var c := CallFor(src, service, last.id, last.tree, last.group, prefix, h);
      var w := Write(before, c);
      LinesStep(f.csv.present, f.csv.lines, FirstReached(init, src, service, prefix, h), Rows(init, src, service, prefix, h),
        Scraped(c).returned, RowOf(Scraped(c).values, h), before.csv, w.0.csv);
    }
  }

  /** Each job adds at most one log line, after the old ones. */
  lemma {:induction false} WriteAllLog(f: Files, jobs: seq<Job>, src: Source, service: Service, prefix: string, h: Host)
    ensures var r := WriteAll(f, jobs, src, service, prefix, h);
      |f.log| <= |r.log| <= |f.log| + |jobs| && r.log[..|f.log|] == f.log
    decreases |jobs|
  {
    if jobs != [] {
      var init := jobs[..|jobs| - 1];
      WriteAllLog(f, init, src, service, prefix, h);
      var before := WriteAll(f, init, src, service, prefix, h);
      var last := jobs[|jobs| - 1];
      var w := Write(before, CallFor(src, service, last.id, last.tree, last.group, prefix, h));
      assert w.0.log[..|f.log|] == before.log[..|f.log|];
    }
  }

  /** A run of writes on an existing file only appends: the old lines stay in front. */
  lemma WriteAllExtends(f: Files, jobs: seq<Job>, src: Source, service: Service, prefix: string, h: Host)
    requires f.csv.present
    ensures var r := WriteAll(f, jobs, src, service, prefix, h);
      r.csv.present && |f.csv.lines| <= |r.csv.lines| && r.csv.lines[..|f.csv.lines|] == f.csv.lines
  {
    WriteAllLines(f, jobs, src, service, prefix, h);
    var lead: seq<seq<string>> := [];
    PrefixKept(lead, f.csv.lines, Rows(jobs, src, service, prefix, h));
  }

  lemma PrefixKept(lead: seq<seq<string>>, a: seq<seq<string>>, b: seq<seq<string>>)
    requires lead == []
    ensures |a| <= |lead + a + b| && (lead + a + b)[..|a|] == a
  {
  }

  /** One more write, in the terms of WriteAllLines. */
  lemma LinesStep(present: bool, lines: seq<seq<string>>, first0: Option<Returned>, rows0: seq<seq<string>>,
                  got: Returned, row: seq<string>, before: Csv, after: Csv)
    requires !present ==> lines == []
    requires before.present == (present || first0.Some?)
    requires before.lines == (if !present && first0 == Some(Dict) then [HeaderLine()] else []) + lines + rows0
    requires after.present == (before.present || Reaches(got))
    requires after.lines == (if !before.present && got == Dict then [HeaderLine()] else []) + before.lines + (if got == Dict then [row] else [])
    ensures var first := if first0.Some? then first0 else if Reaches(got) then Some(got) else None;
      && after.present == (present || first.Some?)
      && after.lines == (if !present && first == Some(Dict) then [HeaderLine()] else []) + lines + (rows0 + (if got == Dict then [row] else []))
  {
    var lead := if !present && first0 == Some(Dict) then [HeaderLine()] else [];
    var tail := if got == Dict then [row] else [];
    if !before.present && got == Dict {
      assert lead == [] && lines == [];
    }
    assert (lead + lines + rows0) + tail == lead + lines + (rows0 + tail);
  }

  /** Once the file exists and starts with the header, every run of writes keeps the
      header at its head. */
  lemma WriteAllKeepsHeader(f: Files, jobs: seq<Job>, src: Source, service: Service, prefix: string, h: Host)
    requires HeaderLed(f.csv) && f.csv.present
    ensures HeaderLed(WriteAll(f, jobs, src, service, prefix, h).csv)
  {
    WriteAllLines(f, jobs, src, service, prefix, h);
  }

  /** A run that starts without the file: the header is written exactly when the first
      job to reach the file returned a record; when that job returned False or None,
      the file holds the later rows with no header. */
  lemma WriteAllFromScratch(f: Files, jobs: seq<Job>, src: Source, service: Service, prefix: string, h: Host)
    requires f.csv == Csv(false, [])
    ensures var r := WriteAll(f, jobs, src, service, prefix, h);
      var first := FirstReached(jobs, src, service, prefix, h);
      && (first == Some(Dict) ==> HeaderLed(r.csv) && r.csv.lines == [HeaderLine()] + Rows(jobs, src, service, prefix, h))
      && (first.None? ==> r.csv == Csv(false, []))
      && (first.Some? && first != Some(Dict) ==> r.csv == Csv(true, Rows(jobs, src, service, prefix, h)))
  {
    WriteAllLines(f, jobs, src, service, prefix, h);
    var r := WriteAll(f, jobs, src, service, prefix, h);
    if FirstReached(jobs, src, service, prefix, h) == Some(Dict) {
      assert r.csv.lines[0] == HeaderLine();
    }
  }

  /** The line get_service_info logs when the service is lost: "Description: message". */
  function ServiceError(src: Source, h: Host, e: Fault): LogLine
  {
    LogLine(src.description, src.description + ": " + h.describe(e) + "\n")
  }

  /** get_service_info: what the files hold afterwards, and whether it gave up. */
  function Harvested(f: Files, src: Source, connect: Attempted -> Result<Service>, prefix: string, h: Host): (r: (Files, bool))
  {
    match Negotiate(src.url, connect)
    case Err(e) => (Files(f.csv, f.log + [ServiceError(src, h, e)]), true)
    case Ok(sc) =>
      var service := sc.0;
      var w := Walk(Ids(service.contents), service.contents, sc.1, src, service.identification.title, []);
      var g := WriteAll(f, w.jobs, src, service, prefix, h);
      if w.fault.Some? then (Files(g.csv, g.log + [ServiceError(src, h, w.fault.value)]), true) else (g, false)
  }

  /** A harvest keeps the header at the head of a file that already starts with it. */
  lemma HarvestKeepsHeader(f: Files, src: Source, connect: Attempted -> Result<Service>, prefix: string, h: Host)
    requires f.csv.present && HeaderLed(f.csv)
    ensures HeaderLed(Harvested(f, src, connect, prefix, h).0.csv)
  {
    var n := Negotiate(src.url, connect);
    if n.Ok? {
      var service := n.value.0;
      var w := Walk(Ids(service.contents), service.contents, n.value.1, src, service.identification.title, []);
      WriteAllKeepsHeader(f, w.jobs, src, service, prefix, h);
    }
  }

  /** A harvest on an existing file only appends to it. */
  lemma HarvestAppends(f: Files, src: Source, connect: Attempted -> Result<Service>, prefix: string, h: Host)
    requires f.csv.present
    ensures var r := Harvested(f, src, connect, prefix, h);
      r.0.csv.present && |f.csv.lines| <= |r.0.csv.lines| && r.0.csv.lines[..|f.csv.lines|] == f.csv.lines
  {
    var n := Negotiate(src.url, connect);
    if n.Ok? {
      var service := n.value.0;
      var w := Walk(Ids(service.contents), service.contents, n.value.1, src, service.identification.title, []);
      WriteAllExtends(f, w.jobs, src, service, prefix, h);
    }
  }

  /** A harvest that gives up logs it last, under the owner's name, after every
      line that was already in the log. */
  lemma HarvestLogsAbort(f: Files, src: Source, connect: Attempted -> Result<Service>, prefix: string, h: Host)
    ensures var r := Harvested(f, src, connect, prefix, h);
      && |f.log| <= |r.0.log| && r.0.log[..|f.log|] == f.log
      && (r.1 ==> |r.0.log| > |f.log| && r.0.log[|r.0.log| - 1].owner == src.description)
  {
    var n := Negotiate(src.url, connect);
    if n.Ok? {
      var service := n.value.0;
      var w := Walk(Ids(service.contents), service.contents, n.value.1, src, service.identification.title, []);
      WriteAllLog(f, w.jobs, src, service, prefix, h);
      var g := WriteAll(f, w.jobs, src, service, prefix, h);
      if w.fault.Some? {
        assert (g.log + [ServiceError(src, h, w.fault.value)])[..|f.log|] == g.log[..|f.log|];
      }
    } else {
      assert (f.log + [ServiceError(src, h, n.fault)])[..|f.log|] == f.log;
    }
  }

  /** The files on disk: geoservices_CH.csv and the error logs. */
  class Disk {
    var csv: Csv
    var log: seq<LogLine>

    function Snapshot(): Files
      reads this
    {
      Files(csv, log)
    }

    /** A run starts after the clean-up: no output file and no error logs. */
    constructor ()
      ensures csv == Csv(false, []) && log == []
      ensures HeaderLed(csv)
    {
      csv := Csv(false, []);
      log := [];
    }

    /** write_service_info(source, service, i, layertree, group): the strategy fills
        a fresh template in place, then the row or the error line is written. */
    method WriteServiceInfo(src: Source, service: Service, id: string, tree: string, group: Group, prefix: string, h: Host)
      returns (ok: bool)
      modifies this
      ensures (Snapshot(), ok) == Write(old(Snapshot()), CallFor(src, service, id, tree, group, prefix, h))
    {
      var c := CallFor(src, service, id, tree, group, prefix, h);
      var ld := new LayerData();
      var got := Perform(PlanOf(StrategyOf(src.description), c), c, ld);
      var e := EmitAsWritten(csv, got, RowOf(ld.values, h));
      csv := e.0;
      if e.1.Some? {
        log := log + [LayerError(c, e.1.value)];
        return false;
      }
      return true;
    }

    /** write_service_info for one job of the walk. */
    method WriteJob(src: Source, service: Service, j: Job, prefix: string, h: Host, ghost start: Files, ghost jobs: seq<Job>)
      requires Snapshot() == WriteAll(start, jobs, src, service, prefix, h)
      modifies this
      ensures Snapshot() == WriteAll(start, jobs + [j], src, service, prefix, h)
    {
      var written := WriteServiceInfo(src, service, j.id, j.tree, j.group, prefix, h);
      WriteAllSnoc(start, jobs, j, src, service, prefix, h);
    }

    /** scraper.py:108-114: the inner loop over a parent's children. */
    method WriteChildren(src: Source, service: Service, cs: seq<Layer>, parent: string, tree: string,
                         done: seq<string>, prefix: string, h: Host, ghost start: Files, ghost before: seq<Job>)
      returns (after: seq<string>)
      requires Snapshot() == WriteAll(start, before, src, service, prefix, h)
      modifies this
      ensures var a := Adopt(cs, parent, tree, done);
        after == a.1 && Snapshot() == WriteAll(start, before + a.0, src, service, prefix, h)
    {
      ghost var jobs := before;
      ghost var a := Adopt(cs, parent, tree, done);
      ghost var whole := (before + a.0, a.1);
      after := done;
      var j := 0;
      AdoptEnds(cs, parent, tree, done, done, jobs);
      while j < |cs|
        invariant 0 <= j <= |cs|
        invariant Snapshot() == WriteAll(start, jobs, src, service, prefix, h)
        invariant var more := Adopt(cs[j..], parent, tree, after); whole == (jobs + more.0, more.1)
      {
        AdoptAdvance(cs, j, parent, tree, after, jobs, whole);
        var id := cs[j].id;
        if id !in after {
          var job := Job(id, tree, Under(parent));
          WriteJob(src, service, job, prefix, h, start, jobs);
          jobs := jobs + [job];
          after := after + [id];
        }
        j := j + 1;
      }
      AdoptEnds(cs, parent, tree, done, after, jobs);
    }

    /** One turn of the layer loop, scraper.py:97-122. */
    method VisitLayer(src: Source, service: Service, child: bool, id: string, done: seq<string>, prefix: string, h: Host,
                      ghost start: Files, ghost before: seq<Job>)
      returns (fault: Option<Fault>, after: seq<string>)
      requires Snapshot() == WriteAll(start, before, src, service, prefix, h)
      modifies this
      ensures var v := Visit(id, service.contents, child, src, service.identification.title, done);
        && (fault.Some? <==> v.Err?)
        && (v.Err? ==> fault.value == v.fault && Snapshot() == old(Snapshot()))
        && (v.Ok? ==> after == v.value.1 && Snapshot() == WriteAll(start, before + v.value.0, src, service, prefix, h))
    {
      var title := service.identification.title;
      if id in done {
        assert before + [] == before;
        return None, done;
      }
      var cs := ChildrenOf(service.contents, id, child);
      if cs.Err? {
        return Some(cs.fault), done;
      }
      if |cs.value| > 0 {
        after := WriteChildren(src, service, cs.value, id, ParentTree(src, title, id), done, prefix, h, start, before);
        return None, after;
      }
      WriteJob(src, service, Job(id, LeafTree(src, title), Root), prefix, h, start, before);
      return None, done + [id];
    }

    /** get_service_info(source): negotiation, then the walk, writing each job as it
        is found; an exception outside write_service_info ends the walk and is logged. */
    method GetServiceInfo(src: Source, connect: Attempted -> Result<Service>, prefix: string, h: Host)
      returns (aborted: bool)
      modifies this
      ensures (Snapshot(), aborted) == Harvested(old(Snapshot()), src, connect, prefix, h)
    {
      var n := Negotiate(src.url, connect);
      if n.Err? {
        log := log + [ServiceError(src, h, n.fault)];
        return true;
      }
      var fault := WalkLayers(src, n.value.0, n.value.1, prefix, h);
      if fault.Some? {
        log := log + [ServiceError(src, h, fault.value)];
        return true;
      }
      return false;
    }

    /** One turn of the layer loop, scraper.py:97-122, as turn `k` of the walk `whole`. */
    method WalkTurn(src: Source, service: Service, child: bool, prefix: string, h: Host, layers: seq<string>, k: nat,
                    done: seq<string>, ghost start: Files, ghost jobs: seq<Job>, ghost whole: Trail)
      returns (fault: Option<Fault>, after: seq<string>, ghost found: seq<Job>)
      requires k < |layers| && Snapshot() == WriteAll(start, jobs, src, service, prefix, h)
      requires Midway(whole, layers, k, service.contents, child, src, service.identification.title, done, jobs)
      modifies this
      ensures fault.Some? ==> whole == Trail(jobs, done, fault) && Snapshot() == WriteAll(start, jobs, src, service, prefix, h)
      ensures fault.None? ==> Snapshot() == WriteAll(start, found, src, service, prefix, h)
      ensures fault.None? ==> Midway(whole, layers, k + 1, service.contents, child, src, service.identification.title, after, found)
    {
      var title := service.identification.title;
      ghost var v := Visit(layers[k], service.contents, child, src, title, done);
      WalkAdvance(layers, k, service.contents, child, src, title, done, jobs, whole);
      fault, after := VisitLayer(src, service, child, layers[k], done, prefix, h, start, jobs);
      found := if fault.None? then jobs + v.value.0 else jobs;
    }

    /** scraper.py:89-122: the loop over the layer ids of a negotiated service. */
    method WalkLayers(src: Source, service: Service, child: bool, prefix: string, h: Host)
      returns (fault: Option<Fault>)
      modifies this
      ensures var w := Walk(Ids(service.contents), service.contents, child, src, service.identification.title, []);
        fault == w.fault && Snapshot() == WriteAll(old(Snapshot()), w.jobs, src, service, prefix, h)
    {
      var title := service.identification.title;
      var layers := Ids(service.contents);
      ghost var start := Snapshot();
      ghost var whole := Walk(layers, service.contents, child, src, title, []);
      ghost var jobs: seq<Job> := [];
      var done: seq<string> := [];
      var k: nat := 0;
      WalkBegin(layers, service.contents, child, src, title);
      while k < |layers|
        invariant Snapshot() == WriteAll(start, jobs, src, service, prefix, h)
        invariant Midway(whole, layers, k, service.contents, child, src, title, done, jobs)
      {
        var failed, after, found := WalkTurn(src, service, child, prefix, h, layers, k, done, start, jobs, whole);
        if failed.Some? {
          return failed;
        }
        jobs, done, k := found, after, k + 1;
      }
      WalkEnd(layers, service.contents, child, src, title, done, jobs, whole);
      return None;
    }
  }
}
