// scraper.py:90-122: the walk over a service's layers that decides which layers
// write_service_info is called for, with which TREE and which group.
module LayerWalk {
  import opened Python
  import opened Capabilities

  /** One call of write_service_info: the layer, its TREE and its group. */
  datatype Job = Job(id: string, tree: string, group: Group)

  /** The jobs a walk issued, the `layers_done` it ended with, and the exception that
      ended it early, if any. */
  datatype Trail = Trail(jobs: seq<Job>, done: seq<string>, fault: Option<Fault>)

  /** TREE of a child layer: "Description/title/parent", or "Description/parent". */
  function ParentTree(src: Source, title: Option<string>, parent: string): string
  {
    if title.Some? then src.description + "/" + title.value + "/" + parent else src.description + "/" + parent
  }

  /** TREE of a childless layer: "Description/title", or "Description/". */
  function LeafTree(src: Source, title: Option<string>): string
  {
    if title.Some? then src.description + "/" + title.value else src.description + "/"
  }

  function JobIds(jobs: seq<Job>): (r: seq<string>)
    ensures |r| == |jobs|
    ensures forall k :: 0 <= k < |jobs| ==> r[k] == jobs[k].id
  {
    if jobs == [] then [] else [jobs[0].id] + JobIds(jobs[1..])
  }

  lemma JobIdsAppend(a: seq<Job>, b: seq<Job>)
    ensures JobIds(a + b) == JobIds(a) + JobIds(b)
  {
    assert JobIds(a + b) == JobIds(a) + JobIds(b) by {
      forall k | 0 <= k < |a + b| ensures JobIds(a + b)[k] == (JobIds(a) + JobIds(b))[k] {
      }
    }
  }

  predicate Distinct(xs: seq<string>)
  {
    forall p, q :: 0 <= p < q < |xs| ==> xs[p] != xs[q]
  }

  /** No element of `xs` is in `ys`. */
  predicate Disjoint(xs: seq<string>, ys: seq<string>)
  {
    forall k :: 0 <= k < |xs| ==> xs[k] !in ys
  }

  /** Jobs issued from `done` that left `done + JobIds(jobs)` behind, none of them done before. */
  predicate Fresh(jobs: seq<Job>, done: seq<string>, after: seq<string>)
  {
    after == done + JobIds(jobs) && Distinct(JobIds(jobs)) && Disjoint(JobIds(jobs), done)
  }

  /** Two duplicate-free runs, the second avoiding the first and `done`, join into one. */
  lemma DistinctConcat(xs: seq<string>, ys: seq<string>, done: seq<string>)
    requires Distinct(xs) && Distinct(ys) && Disjoint(xs, done) && Disjoint(ys, done + xs)
    ensures Distinct(xs + ys) && Disjoint(xs + ys, done)
  {
    var zs := xs + ys;
    forall p, q | 0 <= p < q < |zs| ensures zs[p] != zs[q] {
      if p < |xs| && q >= |xs| {
        assert zs[q] == ys[q - |xs|] && zs[q] !in done + xs;
        assert zs[p] == xs[p] && zs[p] in done + xs;
      } else if p >= |xs| {
        assert zs[p] == ys[p - |xs|] && zs[q] == ys[q - |xs|];
      }
    }
    forall k | 0 <= k < |zs| ensures zs[k] !in done {
      if k >= |xs| {
        assert zs[k] == ys[k - |xs|] && zs[k] !in done + xs;
      }
    }
  }

  /** Fresh runs of jobs chain. */
  lemma FreshChain(a: seq<Job>, b: seq<Job>, done: seq<string>, mid: seq<string>, after: seq<string>)
    requires Fresh(a, done, mid) && Fresh(b, mid, after)
    ensures Fresh(a + b, done, after)
  {
    var xs := JobIds(a);
    var ys := JobIds(b);
    JobIdsAppend(a, b);
    DistinctConcat(xs, ys, done);
    Assoc(done, xs, ys);
  }

  lemma Assoc(xs: seq<string>, ys: seq<string>, zs: seq<string>)
    ensures (xs + ys) + zs == xs + (ys + zs)
  {
  }

  /** The children to follow: none unless children are followed; reading them may
      raise when `children` is missing or None. */
  function ChildrenOf(contents: seq<Layer>, id: string, child: bool): (r: Result<seq<Layer>>)
    ensures !child ==> r == Ok([])
  {
    if !child then Ok([])
    else
      match Lookup(contents, id)
      case None => Err(KeyError(id))
      case Some(l) =>
        match l.children
        case Absent => Err(AttributeError("children"))
        case Null => Err(TypeError("len"))
        case Val(cs) => Ok(cs)
  }

  /** scraper.py:108-114: every child not yet done is written under its parent and
      marked done; the result is the jobs and the new `layers_done`. */
  function Adopt(cs: seq<Layer>, parent: string, tree: string, done: seq<string>): (r: (seq<Job>, seq<string>))
    decreases |cs|
  {
    if cs == [] then ([], done)
    else if cs[0].id in done then Adopt(cs[1..], parent, tree, done)
    else
      var r := Adopt(cs[1..], parent, tree, done + [cs[0].id]);
      ([Job(cs[0].id, tree, Under(parent))] + r.0, r.1)
  }

  /** The first child of a run. */
  lemma AdoptStep(cs: seq<Layer>, parent: string, tree: string, done: seq<string>)
    requires cs != []
    ensures cs[0].id in done ==> Adopt(cs, parent, tree, done) == Adopt(cs[1..], parent, tree, done)
    ensures cs[0].id !in done ==>
      var r := Adopt(cs[1..], parent, tree, done + [cs[0].id]);
      Adopt(cs, parent, tree, done) == ([Job(cs[0].id, tree, Under(parent))] + r.0, r.1)
  {
  }

  /** Adopting writes each child not yet done exactly once, under the parent, and
      afterwards every child is done. */
  lemma {:induction false} Adopted(cs: seq<Layer>, parent: string, tree: string, done: seq<string>)
    ensures var r := Adopt(cs, parent, tree, done);
      && Fresh(r.0, done, r.1)
      && (forall k :: 0 <= k < |r.0| ==> r.0[k].group == Under(parent) && r.0[k].tree == tree)
      && (forall l :: l in cs ==> l.id in r.1)
    decreases |cs|
  {
    if cs != [] {
      var r := Adopt(cs, parent, tree, done);
      if cs[0].id in done {
        Adopted(cs[1..], parent, tree, done);
        assert forall l :: l in cs ==> l == cs[0] || l in cs[1..];
      } else {
        var rest := Adopt(cs[1..], parent, tree, done + [cs[0].id]);
        Adopted(cs[1..], parent, tree, done + [cs[0].id]);
        var one := [Job(cs[0].id, tree, Under(parent))];
        assert JobIds(one) == [cs[0].id];
        FreshChain(one, rest.0, done, done + [cs[0].id], rest.1);
        assert forall l :: l in cs ==> l == cs[0] || l in cs[1..];
      }
    }
  }

  /** One turn of the walk over `service.contents`: a layer already done is skipped,
      a layer with children is replaced by those not yet done, any other layer is
      written itself. */
  function Visit(id: string, contents: seq<Layer>, child: bool, src: Source, title: Option<string>, done: seq<string>)
    : (r: Result<(seq<Job>, seq<string>)>)
  {
    if id in done then Ok(([], done))
    else
      match ChildrenOf(contents, id, child)
      case Err(e) => Err(e)
      case Ok(cs) =>
        if |cs| > 0 then Ok(Adopt(cs, id, ParentTree(src, title, id), done))
        else Ok(([Job(id, LeafTree(src, title), Root)], done + [id]))
  }

  /** A job is either a top-level layer written as itself, or the child of a layer
      the walk met. */
  predicate Shaped(j: Job, ids: seq<string>, src: Source, title: Option<string>)
  {
    || (j.group == Root && j.id in ids && j.tree == LeafTree(src, title))
    || (j.group.Under? && j.group.parent in ids && j.tree == ParentTree(src, title, j.group.parent))
  }

  /** A top-level job's layer has no children to follow. */
  predicate Leaf(j: Job, contents: seq<Layer>, child: bool)
  {
    j.group == Root ==> ChildrenOf(contents, j.id, child) == Ok([])
  }

  /** A turn issues fresh jobs of the two shapes; a layer it does not write itself
      was done before, or has children, all done afterwards. */
  lemma Visited(id: string, contents: seq<Layer>, child: bool, src: Source, title: Option<string>, done: seq<string>)
    requires Visit(id, contents, child, src, title, done).Ok?
    ensures var v := Visit(id, contents, child, src, title, done).value;
      && Fresh(v.0, done, v.1)
      && (forall j :: j in v.0 ==> Shaped(j, [id], src, title) && Leaf(j, contents, child))
      && (id in v.1 || (ChildrenOf(contents, id, child).Ok? && forall l :: l in ChildrenOf(contents, id, child).value ==> l.id in v.1))
  {
    if id !in done {
      var cs := ChildrenOf(contents, id, child).value;
      if |cs| > 0 {
        Adopted(cs, id, ParentTree(src, title, id), done);
      } else {
        assert JobIds([Job(id, LeafTree(src, title), Root)]) == [id];
      }
    }
  }

  /** scraper.py:90-122: the turns over the layer ids, in order, until one raises. */
  function Walk(ids: seq<string>, contents: seq<Layer>, child: bool, src: Source,
                title: Option<string>, done: seq<string>): (r: Trail)
    decreases |ids|
  {
    if ids == [] then Trail([], done, None)
    else
      match Visit(ids[0], contents, child, src, title, done)
      case Err(e) => Trail([], done, Some(e))
      case Ok(v) =>
        var r := Walk(ids[1..], contents, child, src, title, v.1);
        Trail(v.0 + r.jobs, r.done, r.fault)
  }

  /** The first turn of a walk. */
  lemma WalkStep(ids: seq<string>, contents: seq<Layer>, child: bool, src: Source, title: Option<string>, done: seq<string>)
    requires ids != []
    ensures var v := Visit(ids[0], contents, child, src, title, done);
      && (v.Err? ==> Walk(ids, contents, child, src, title, done) == Trail([], done, Some(v.fault)))
      && (v.Ok? ==> var r := Walk(ids[1..], contents, child, src, title, v.value.1);
            Walk(ids, contents, child, src, title, done) == Trail(v.value.0 + r.jobs, r.done, r.fault))
  {
  }

  /** The walk `whole` over `layers` has reached turn `k`: `jobs` are found so far,
      `done` is the layer list, and the rest of the walk starts from there. */
  predicate Midway(whole: Trail, layers: seq<string>, k: nat, contents: seq<Layer>, child: bool, src: Source,
                   title: Option<string>, done: seq<string>, jobs: seq<Job>)
  {
    k <= |layers| &&
    var rest := Walk(layers[k..], contents, child, src, title, done);
    whole == Trail(jobs + rest.jobs, rest.done, rest.fault)
  }

  /** A walk is midway at its start. */
  lemma WalkBegin(layers: seq<string>, contents: seq<Layer>, child: bool, src: Source, title: Option<string>)
    ensures Midway(Walk(layers, contents, child, src, title, []), layers, 0, contents, child, src, title, [], [])
  {
    assert layers[0..] == layers;
    var whole := Walk(layers, contents, child, src, title, []);
    assert [] + whole.jobs == whole.jobs;
  }

  /** One turn further: a raising turn ends the walk with its exception. */
  lemma WalkAdvance(layers: seq<string>, k: nat, contents: seq<Layer>, child: bool, src: Source, title: Option<string>,
                    done: seq<string>, jobs: seq<Job>, whole: Trail)
    requires k < |layers| && Midway(whole, layers, k, contents, child, src, title, done, jobs)
    ensures var v := Visit(layers[k], contents, child, src, title, done);
      && (v.Err? ==> whole == Trail(jobs, done, Some(v.fault)))
      && (v.Ok? ==> Midway(whole, layers, k + 1, contents, child, src, title, v.value.1, jobs + v.value.0))
  {
    assert layers[k..][1..] == layers[k + 1..];
    assert layers[k..][0] == layers[k];
    WalkStep(layers[k..], contents, child, src, title, done);
    var v := Visit(layers[k], contents, child, src, title, done);
    if v.Ok? {
      var rest := Walk(layers[k + 1..], contents, child, src, title, v.value.1);
      assert jobs + (v.value.0 + rest.jobs) == (jobs + v.value.0) + rest.jobs;
    } else {
      assert jobs + [] == jobs;
    }
  }

  /** The walk once every layer had its turn. */
  lemma WalkEnd(layers: seq<string>, contents: seq<Layer>, child: bool, src: Source, title: Option<string>,
                done: seq<string>, jobs: seq<Job>, whole: Trail)
    requires Midway(whole, layers, |layers|, contents, child, src, title, done, jobs)
    ensures whole == Trail(jobs, done, None)
  {
    assert layers[|layers|..] == [];
    assert jobs + [] == jobs;
  }

  /** Adopting the children `cs[j..]` after `jobs`, one child further. */
  lemma AdoptAdvance(cs: seq<Layer>, j: nat, parent: string, tree: string, done: seq<string>, jobs: seq<Job>, whole: (seq<Job>, seq<string>))
    requires j < |cs|
    requires var more := Adopt(cs[j..], parent, tree, done); whole == (jobs + more.0, more.1)
    ensures cs[j].id in done ==> var more := Adopt(cs[j + 1..], parent, tree, done); whole == (jobs + more.0, more.1)
    ensures cs[j].id !in done ==> var more := Adopt(cs[j + 1..], parent, tree, done + [cs[j].id]);
      whole == ((jobs + [Job(cs[j].id, tree, Under(parent))]) + more.0, more.1)
  {
    assert cs[j..][1..] == cs[j + 1..];
    AdoptStep(cs[j..], parent, tree, done);
    if cs[j].id !in done {
      var more := Adopt(cs[j + 1..], parent, tree, done + [cs[j].id]);
      assert jobs + ([Job(cs[j].id, tree, Under(parent))] + more.0) == (jobs + [Job(cs[j].id, tree, Under(parent))]) + more.0;
    }
  }

  /** Adoption from the first child, and once every child had its turn. */
  lemma AdoptEnds(cs: seq<Layer>, parent: string, tree: string, done: seq<string>, after: seq<string>, jobs: seq<Job>)
    ensures Adopt(cs[0..], parent, tree, done) == Adopt(cs, parent, tree, done)
    ensures var more := Adopt(cs[|cs|..], parent, tree, after); (jobs + more.0, more.1) == (jobs, after)
  {
    assert cs[0..] == cs;
    assert cs[|cs|..] == [];
    assert jobs + [] == jobs;
  }

  /** No layer is written twice, nor one done before the walk, and `layers_done`
      ends as the layers written, in order. */
  lemma {:induction false} WalkFresh(ids: seq<string>, contents: seq<Layer>, child: bool, src: Source,
                                     title: Option<string>, done: seq<string>)
    ensures var r := Walk(ids, contents, child, src, title, done); Fresh(r.jobs, done, r.done)
    decreases |ids|
  {
    if ids != [] {
      var v := Visit(ids[0], contents, child, src, title, done);
      if v.Ok? {
        Visited(ids[0], contents, child, src, title, done);
        WalkFresh(ids[1..], contents, child, src, title, v.value.1);
        var r := Walk(ids[1..], contents, child, src, title, v.value.1);
        FreshChain(v.value.0, r.jobs, done, v.value.1, r.done);
      } else {
        assert JobIds([]) == [];
      }
    }
  }

  /** Every job of a walk is a top-level layer without children, or a child of a
      layer the walk met. */
  lemma {:induction false} WalkShapes(ids: seq<string>, contents: seq<Layer>, child: bool, src: Source,
                                      title: Option<string>, done: seq<string>)
    ensures var r := Walk(ids, contents, child, src, title, done);
      forall j :: j in r.jobs ==> Shaped(j, ids, src, title) && Leaf(j, contents, child)
    decreases |ids|
  {
    if ids != [] {
      WalkStep(ids, contents, child, src, title, done);
      var v := Visit(ids[0], contents, child, src, title, done);
      if v.Ok? {
        Visited(ids[0], contents, child, src, title, done);
        WalkShapes(ids[1..], contents, child, src, title, v.value.1);
        var r := Walk(ids[1..], contents, child, src, title, v.value.1);
        forall j | j in v.value.0 + r.jobs ensures Shaped(j, ids, src, title) && Leaf(j, contents, child) {
          if j in v.value.0 {
            ShapedWider(j, [ids[0]], ids, src, title);
          } else {
            ShapedWider(j, ids[1..], ids, src, title);
          }
        }
      }
    }
  }

  lemma ShapedWider(j: Job, xs: seq<string>, ys: seq<string>, src: Source, title: Option<string>)
    requires Shaped(j, xs, src, title) && forall x :: x in xs ==> x in ys
    ensures Shaped(j, ys, src, title)
  {
  }

  /** A walk that ends without an exception leaves every layer done, or else every
      one of its children done. */
  lemma {:induction false} WalkCovers(ids: seq<string>, contents: seq<Layer>, child: bool, src: Source,
                                      title: Option<string>, done: seq<string>)
    requires Walk(ids, contents, child, src, title, done).fault.None?
    ensures var r := Walk(ids, contents, child, src, title, done);
      forall i :: i in ids ==>
        (i in r.done || (ChildrenOf(contents, i, child).Ok? && forall l :: l in ChildrenOf(contents, i, child).value ==> l.id in r.done))
    decreases |ids|
  {
    if ids != [] {
      var v := Visit(ids[0], contents, child, src, title, done).value;
      Visited(ids[0], contents, child, src, title, done);
      WalkCovers(ids[1..], contents, child, src, title, v.1);
      WalkFresh(ids[1..], contents, child, src, title, v.1);
      assert forall i :: i in ids ==> i == ids[0] || i in ids[1..];
    }
  }

  /** Without children to follow, the walk writes each layer once, as itself, under
      the service's tree, in the order of `service.contents`. */
  lemma {:induction false} FlatWalk(ids: seq<string>, contents: seq<Layer>, src: Source, title: Option<string>, done: seq<string>)
    requires Distinct(ids) && Disjoint(ids, done)
    ensures var r := Walk(ids, contents, false, src, title, done);
      r.fault.None? && JobIds(r.jobs) == ids &&
      forall k :: 0 <= k < |r.jobs| ==> r.jobs[k].group == Root && r.jobs[k].tree == LeafTree(src, title)
    decreases |ids|
  {
    if ids != [] {
      var one := [Job(ids[0], LeafTree(src, title), Root)];
      assert Visit(ids[0], contents, false, src, title, done) == Ok((one, done + [ids[0]]));
      assert forall k :: 0 < k < |ids| ==> ids[1..][k - 1] == ids[k];
      FlatWalk(ids[1..], contents, src, title, done + [ids[0]]);
      var r := Walk(ids[1..], contents, false, src, title, done + [ids[0]]);
      JobIdsAppend(one, r.jobs);
      assert JobIds(one) == [ids[0]];
      assert ids == [ids[0]] + ids[1..];
      var all := one + r.jobs;
      forall k | 0 <= k < |all| ensures all[k].group == Root && all[k].tree == LeafTree(src, title) {
        if k > 0 {
          assert all[k] == r.jobs[k - 1];
        }
      }
    }
  }
}
