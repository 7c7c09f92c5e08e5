// The owner scrapers of scraper/: one `scrape` per owner module, each choosing a
// protocol branch and running that branch's assignments to layer_data.
module Owners {
  import opened Python
  import opened Capabilities
  import opened Record
  import opened Script
  import opened ExprFacts
  import KtAr
  import KtBe
  import KtBl
  import KtBs
  import KtGl
  import KtSo
  import KtSz
  import KtVd
  import KtZg
  import KtZh
  import Geodienste

  /** The owner modules of scraper/: the cantons by their code, and geodienste.ch. */
  datatype Owner = AR | BE | BL | BS | GL | SO | SZ | VD | ZG | ZH | GEODIENSTE

  /** The branch an owner's `scrape` takes, or the exception its test raises. */
  function Dispatch(o: Owner, c: Call): Result<Branch>
  {
    match o
    case AR => KtAr.Dispatch(c)
    case BE => KtBe.Dispatch(c)
    case BL => KtBl.Dispatch(c)
    case BS => KtBs.Dispatch(c)
    case GL => KtGl.Dispatch(c)
    case SO => KtSo.Dispatch(c)
    case SZ => KtSz.Dispatch(c)
    case VD => KtVd.Dispatch(c)
    case ZG => KtZg.Dispatch(c)
    case ZH => KtZh.Dispatch(c)
    case GEODIENSTE => Geodienste.Dispatch(c)
  }

  /** The statements of branch `b` in four groups: identity, description, position
      and the map link; a branch without statements has four empty groups. */
  function Part(o: Owner, b: Branch, i: nat): Stmts
  {
    if !Ogc(b) then Nil
    else
      match o
      case AR => KtAr.Part(b, i)
      case BE => KtBe.Part(b, i)
      case BL => KtBl.Part(b, i)
      case BS => KtBs.Part(b, i)
      case GL => KtGl.Part(b, i)
      case SO => KtSo.Part(b, i)
      case SZ => KtSz.Part(b, i)
      case VD => KtVd.Part(b, i)
      case ZG => KtZg.Part(b, i)
      case ZH => KtZh.Part(b, i)
      case GEODIENSTE => Geodienste.Part(b, i)
  }

  function Body(o: Owner, b: Branch): Groups
  {
    Four(Part(o, b, 0), Part(o, b, 1), Part(o, b, 2), Part(o, b, 3))
  }

  predicate Ogc(b: Branch)
  {
    b == WmsBranch || b == WmtsBranch || b == WfsBranch
  }

  /** How branch `b` ends: the OGC branches return layer_data, the STAC branch prints
      and falls off the end, and every other source returns False; KT_BE.py:31-32
      prints for a WMTS service and falls off the end too. */
  function Ends(o: Owner, b: Branch): Ending
  {
    match b
    case StacBranch => GiveNone
    case NoBranch => GiveFalse
    case WmtsBranch => if o == BE then GiveNone else GiveDict
    case _ => GiveDict
  }

  /** The branch assigns nothing. */
  predicate Idle(o: Owner, b: Branch)
  {
    Body(o, b) == Four(Nil, Nil, Nil, Nil)
  }

  /** What an ending hands back when the body raised nothing. */
  function Given(e: Ending): Returned
  {
    match e
    case GiveDict => Dict
    case GiveFalse => FalseValue
    case GiveNone => NoneValue
    case Raise(f) => Raised(f)
  }

  function Plan(o: Owner, c: Call): Script
  {
    match Dispatch(o, c)
    case Err(f) => Script(Nil, Raise(f))
    case Ok(b) => Script(Flatten(Body(o, b)), Ends(o, b))
  }

  /** The record after the owner's `scrape` ran. */
  function Final(o: Owner, c: Call, m: map<Key, Value>): (r: map<Key, Value>)
    requires Complete(m)
    ensures Complete(r)
  {
    Run(Plan(o, c), c, m).values
  }

  /** The owner's `scrape` returned `layer_data`. */
  predicate Returns(o: Owner, c: Call, m: map<Key, Value>)
    requires Complete(m)
  {
    Run(Plan(o, c), c, m).returned == Dict
  }

  // ---------------------------------------------------------------- entries

  /** A returned record comes from a branch that ends by returning it and whose
      statements raised nothing. */
  lemma Ran(o: Owner, c: Call, m: map<Key, Value>)
    requires Complete(m) && Returns(o, c, m)
    ensures Dispatch(o, c).Ok? && Ends(o, Dispatch(o, c).value) == GiveDict
    ensures Exec(Flatten(Body(o, Dispatch(o, c).value)), c, m).fault.None?
    ensures Final(o, c, m) == Exec(Flatten(Body(o, Dispatch(o, c).value)), c, m).values
  {
    Delivered(Plan(o, c), c, m);
  }

  /** `k` is last assigned in branch `b` by `e`, which reads no entry, in group `i`. */
  predicate Placed(o: Owner, b: Branch, i: nat, k: Key, e: Expr)
  {
    FreeIn(Part(o, b, 0), Part(o, b, 1), Part(o, b, 2), Part(o, b, 3), i, k, e)
  }

  /** Such an entry of a returned record is its expression's value on the incoming record. */
  lemma Entry(o: Owner, c: Call, m: map<Key, Value>, b: Branch, i: nat, k: Key, e: Expr)
    requires Complete(m) && Returns(o, c, m) && Dispatch(o, c) == Ok(b) && Placed(o, b, i, k, e)
    ensures Eval(e, c, m) == Ok(Final(o, c, m)[k])
  {
    Ran(o, c, m);
    FreeOfFour(Part(o, b, 0), Part(o, b, 1), Part(o, b, 2), Part(o, b, 3), i, k, e, c, m);
  }

  /** An entry the link group assigns last is its expression's value on the final record. */
  lemma LateEntry(o: Owner, c: Call, m: map<Key, Value>, b: Branch, k: Key, e: Expr)
    requires Complete(m) && Returns(o, c, m) && Dispatch(o, c) == Ok(b) && LastLate(Part(o, b, 3), k, e)
    ensures Eval(e, c, Final(o, c, m)) == Ok(Final(o, c, m)[k])
  {
    Ran(o, c, m);
    LateOfFourHolds(Part(o, b, 0), Part(o, b, 1), Part(o, b, 2), Part(o, b, 3), k, e, c, m);
  }

  /** A branch whose third group is three statements: its last one ran without an
      exception on some record, and every entry the fourth group does not write holds
      what that statement left. */
  lemma ThirdGroupEnd(o: Owner, c: Call, m: map<Key, Value>, b: Branch, x: Stmt, y: Stmt, st: Stmt)
    requires Complete(m) && Returns(o, c, m) && Dispatch(o, c) == Ok(b)
    requires Part(o, b, 2) == Cons(x, Cons(y, Cons(st, Nil)))
    ensures exists m2 ::
      && Complete(m2) && Step(st, c, m2).fault.None?
      && forall q :: !WritesAny(Part(o, b, 3), q) ==> Final(o, c, m)[q] == Step(st, c, m2).values[q]
  {
    Ran(o, c, m);
    var a, b1, d, t := Part(o, b, 0), Part(o, b, 1), Part(o, b, 2), Part(o, b, 3);
    ThirdOfFour(a, b1, d, t, c, m);
    var before := Exec(b1, c, Exec(a, c, m).values).values;
    ThirdStep(x, y, st, c, before);
    var m2 := Step(y, c, Step(x, c, before).values).values;
    assert Complete(m2) && Step(st, c, m2).fault.None?;
  }

  /** A literal assignment leaves its text. */
  lemma FixedEntry(o: Owner, c: Call, m: map<Key, Value>, b: Branch, i: nat, k: Key, t: string)
    requires Complete(m) && Returns(o, c, m) && Dispatch(o, c) == Ok(b) && Placed(o, b, i, k, Of(Just(Lit(t))))
    ensures Final(o, c, m)[k] == Text(t)
  {
    Entry(o, c, m, b, i, k, Of(Just(Lit(t))));
    LitValue(t, c, m, Final(o, c, m)[k]);
  }

  /** A plain read leaves what it read, None as None. */
  lemma ReadEntry(o: Owner, c: Call, m: map<Key, Value>, b: Branch, i: nat, k: Key, a: Atom)
    requires Complete(m) && Returns(o, c, m) && Dispatch(o, c) == Ok(b) && Placed(o, b, i, k, Of(Just(a)))
    ensures EvalAtom(a, c, m).Ok? && Final(o, c, m)[k] == Of1(EvalAtom(a, c, m).value)
  {
    Entry(o, c, m, b, i, k, Of(Just(a)));
    ReadValue(a, c, m, Final(o, c, m)[k]);
  }

  /** An expression on the layer leaves its value on the layer. */
  lemma LayerEntry(o: Owner, c: Call, m: map<Key, Value>, b: Branch, i: nat, k: Key, e: Expr)
    requires Complete(m) && Returns(o, c, m) && Dispatch(o, c) == Ok(b) && OnLayer(e) && Placed(o, b, i, k, e)
    ensures LayerOf(c).Ok? && LayerExpr(e, LayerOf(c).value, c) == Ok(Final(o, c, m)[k])
  {
    Entry(o, c, m, b, i, k, e);
    OnLayerValue(e, c, m, Final(o, c, m)[k]);
  }

  /** An entry no group of the branch assigns keeps its incoming value. */
  lemma KeptEntry(o: Owner, c: Call, m: map<Key, Value>, b: Branch, k: Key)
    requires Complete(m) && Returns(o, c, m) && Dispatch(o, c) == Ok(b)
    requires !WritesAny(Part(o, b, 0), k) && !WritesAny(Part(o, b, 1), k)
    requires !WritesAny(Part(o, b, 2), k) && !WritesAny(Part(o, b, 3), k)
    ensures k in Final(o, c, m) && Final(o, c, m)[k] == m[k]
  {
    Ran(o, c, m);
    NoneOfFourHolds(Part(o, b, 0), Part(o, b, 1), Part(o, b, 2), Part(o, b, 3), k, c, m);
  }

  /** A branch that assigns nothing leaves the record as it came and returns what
      its ending gives. */
  lemma Silent(o: Owner, c: Call, m: map<Key, Value>, b: Branch)
    requires Complete(m) && Dispatch(o, c) == Ok(b) && Idle(o, b)
    ensures Final(o, c, m) == m && Run(Plan(o, c), c, m).returned == Given(Ends(o, b))
  {
    assert Plan(o, c) == Script(Nil, Ends(o, b)) by {
      assert Flatten(Four(Nil, Nil, Nil, Nil)) == Nil;
    }
    EmptyRun(Ends(o, b), c, m);
  }

  /** A script without statements keeps the record and gives its ending. */
  lemma EmptyRun(e: Ending, c: Call, m: map<Key, Value>)
    requires Complete(m)
    ensures Run(Script(Nil, e), c, m) == Outcome(m, Given(e))
  {
  }

  /** A branch whose first group holds an assignment that cannot succeed raises,
      so its `scrape` never returns a record. */
  lemma DoomedFirst(o: Owner, c: Call, m: map<Key, Value>, b: Branch)
    requires Complete(m) && Dispatch(o, c) == Ok(b) && AnyDoomed(Part(o, b, 0))
    ensures Run(Plan(o, c), c, m).returned.Raised? && !Returns(o, c, m)
  {
    var rest := Flatten(Group(Part(o, b, 1), Group(Part(o, b, 2), Group(Part(o, b, 3), Last))));
    DoomedAppend(Part(o, b, 0), rest);
    assert Flatten(Body(o, b)) == Append(Part(o, b, 0), rest);
    DoomedBodyRaises(Flatten(Body(o, b)), c, m);
  }

  /** A dispatch test that raises leaves the record as it came and raises. */
  lemma Refused(o: Owner, c: Call, m: map<Key, Value>)
    requires Complete(m) && Dispatch(o, c).Err?
    ensures Final(o, c, m) == m && Run(Plan(o, c), c, m).returned == Raised(Dispatch(o, c).fault)
  {
    assert Plan(o, c) == Script(Nil, Raise(Dispatch(o, c).fault));
    EmptyRun(Raise(Dispatch(o, c).fault), c, m);
  }

  /** A STAC source gives None and any other non-OGC source False, and neither
      touches the record. */
  lemma Unreturned(o: Owner, c: Call, m: map<Key, Value>, b: Branch)
    requires Complete(m) && Dispatch(o, c) == Ok(b) && !Ogc(b)
    ensures Final(o, c, m) == m
    ensures Run(Plan(o, c), c, m).returned == if b == StacBranch then NoneValue else FalseValue
  {
    NonOgcIdle(o, b);
    Silent(o, c, m, b);
  }

  /** A branch other than the three OGC ones has no statements, and ends in None or False. */
  lemma NonOgcIdle(o: Owner, b: Branch)
    requires !Ogc(b)
    ensures Idle(o, b) && Given(Ends(o, b)) == if b == StacBranch then NoneValue else FalseValue
  {
    assert Part(o, b, 0) == Nil && Part(o, b, 1) == Nil && Part(o, b, 2) == Nil && Part(o, b, 3) == Nil;
  }
}
