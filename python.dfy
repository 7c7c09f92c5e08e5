// Python values and string primitives used by the harvester.
module Python {

  datatype Option<+T> = None | Some(value: T)

  /** An attribute of a Python object: missing (hasattr fails), present but None, or a value. */
  datatype Attr<+T> = Absent | Null | Val(v: T)

  /** The exceptions the normalisation code can raise, with the detail str(e) would show. */
  datatype Fault =
    | AttributeError(name: string)
    | TypeError(what: string)
    | KeyError(key: string)
    | IndexError(what: string)
    | ValueError(what: string)
    | NameError(name: string)

  /** A Python evaluation: a value, or the exception it raised. */
  datatype Result<+T> = Ok(value: T) | Err(fault: Fault)
  {
    predicate IsFailure() { Err? }
    function PropagateFailure<U>(): Result<U>
      requires Err?
    { Err(fault) }
    function Extract(): T
      requires Ok?
    { value }
  }

  /** `obj.name` where a missing attribute raises and None is a value. */
  function Read<T>(a: Attr<T>, name: string): (r: Result<Option<T>>)
    ensures r.Err? <==> a.Absent?
    ensures a.Val? ==> r == Ok(Some(a.v))
    ensures a.Null? ==> r == Ok(None)
  {
    match a
    case Absent => Err(AttributeError(name))
    case Null => Ok(None)
    case Val(v) => Ok(Some(v))
  }

  /** `obj.name.x`: the attribute is followed further, so None raises as well. */
  function Deref<T>(a: Attr<T>, name: string): (r: Result<T>)
    ensures r.Ok? <==> a.Val?
    ensures a.Val? ==> r.value == a.v
  {
    match a
    case Absent => Err(AttributeError(name))
    case Null => Err(AttributeError(name))
    case Val(v) => Ok(v)
  }

  /** `p in s` (s starts with p). */
  predicate StartsWith(s: string, p: string)
  {
    |p| <= |s| && s[..|p|] == p
  }

  /** `t in s` for strings: t occurs in s as a contiguous substring. */
  predicate Contains(s: string, t: string)
    decreases |s|
  {
    StartsWith(s, t) || (|s| > 0 && Contains(s[1..], t))
  }

  /** t occurs in s at offset k. */
  predicate OccursAt(s: string, t: string, k: int)
  {
    0 <= k <= |s| - |t| && s[k..k + |t|] == t
  }

  /** Contains agrees with the occurrence-at-an-offset reading of `in`. */
  lemma {:induction false} ContainsIff(s: string, t: string)
    ensures Contains(s, t) <==> exists k :: OccursAt(s, t, k)
    decreases |s|
  {
    if Contains(s, t) {
      if StartsWith(s, t) {
        assert OccursAt(s, t, 0);
      } else {
        ContainsIff(s[1..], t);
        var k :| OccursAt(s[1..], t, k);
        assert s[k + 1..k + 1 + |t|] == s[1..][k..k + |t|];
        assert OccursAt(s, t, k + 1);
      }
    }
    if exists k :: OccursAt(s, t, k) {
      var k :| OccursAt(s, t, k);
      if k == 0 {
        assert StartsWith(s, t);
      } else {
        assert s[1..][k - 1..k - 1 + |t|] == s[k..k + |t|];
        assert OccursAt(s[1..], t, k - 1);
        ContainsIff(s[1..], t);
      }
    }
  }

  /** `s.replace(pat, rep)`: non-overlapping occurrences, scanned left to right. */
  function Replace(s: string, pat: string, rep: string): string
    requires |pat| > 0
    decreases |s|
  {
    if |s| < |pat| then s
    else if s[..|pat|] == pat then rep + Replace(s[|pat|..], pat, rep)
    else [s[0]] + Replace(s[1..], pat, rep)
  }

  /** Replacing by the empty string leaves no occurrence of a one-character pattern. */
  lemma {:induction false} ReplaceCharRemoves(s: string, c: char)
    ensures c !in Replace(s, [c], "")
    decreases |s|
  {
    if |s| >= 1 {
      ReplaceCharRemoves(s[1..], c);
    }
  }

  /** `sep.join(parts)`. */
  function Join(sep: string, parts: seq<string>): string
  {
    if parts == [] then ""
    else if |parts| == 1 then parts[0]
    else parts[0] + sep + Join(sep, parts[1..])
  }

  /** `s.split(c)` for a one-character separator. */
  function Split(s: string, c: char): (r: seq<string>)
    ensures |r| >= 1
    decreases |s|
  {
    if s == [] then [""]
    else if s[0] == c then [""] + Split(s[1..], c)
    else var rest := Split(s[1..], c); [[s[0]] + rest[0]] + rest[1..]
  }

  /** Splitting undoes joining when no part contains the separator. */
  lemma {:induction false} SplitJoin(parts: seq<string>, c: char)
    requires |parts| >= 1
    requires forall k :: 0 <= k < |parts| ==> c !in parts[k]
    ensures Split(Join([c], parts), c) == parts
    decreases |parts|, |parts[0]|
  {
    if parts[0] == [] {
      if |parts| == 1 {
      } else {
        assert Join([c], parts) == [c] + Join([c], parts[1..]);
        assert Join([c], parts)[1..] == Join([c], parts[1..]);
        SplitJoin(parts[1..], c);
      }
    } else {
      var head := parts[0];
      var rest := [head[1..]] + parts[1..];
      assert forall k :: 0 <= k < |rest| ==> c !in rest[k] by {
        forall k | 0 <= k < |rest| ensures c !in rest[k] {
          if k == 0 {
            assert forall x :: x in head[1..] ==> x in head;
          } else {
            assert rest[k] == parts[k];
          }
        }
      }
      assert Join([c], parts) == [head[0]] + Join([c], rest) by {
        if |parts| == 1 {
        } else {
          assert Join([c], rest) == head[1..] + [c] + Join([c], parts[1..]);
          assert head == [head[0]] + head[1..];
        }
      }
      assert head[0] != c by { assert head[0] in head; }
      var s := Join([c], parts);
      assert s[1..] == Join([c], rest);
      SplitJoin(rest, c);
      assert Split(s, c) == [[head[0]] + rest[0]] + parts[1..];
      assert [head[0]] + head[1..] == head;
    }
  }

  /** ASCII `s.lower()`. */
  function Lower(s: string): (r: string)
    ensures |r| == |s|
    ensures forall k :: 0 <= k < |s| ==> r[k] == LowerChar(s[k])
  {
    if s == [] then "" else [LowerChar(s[0])] + Lower(s[1..])
  }

  function LowerChar(c: char): char
  {
    if 'A' <= c <= 'Z' then (c as int + 32) as char else c
  }

  /** `s.partition(" ")[2]`: the text after the first space, or "" when there is none. */
  function AfterFirstSpace(s: string): (r: string)
    ensures ' ' !in s ==> r == ""
    ensures forall k :: 0 <= k < |s| && s[k] == ' ' && ' ' !in s[..k] ==> r == s[k + 1..]
    decreases |s|
  {
    if s == [] then ""
    else if s[0] == ' ' then s[1..]
    else
      assert forall k :: 1 <= k < |s| ==> s[1..][..k - 1] == s[..k][1..];
      assert forall x :: x in s[1..] ==> x in s;
      AfterFirstSpace(s[1..])
  }

  /** `str(n)` for an int. */
  function Decimal(n: int): (r: string)
    ensures |r| >= 1
    decreases if n < 0 then 1 - n else n
  {
    if n < 0 then "-" + Decimal(-n)
    else if n < 10 then [Digit(n)]
    else Decimal(n / 10) + [Digit(n % 10)]
  }

  function Digit(d: int): char
    requires 0 <= d < 10
  {
    "0123456789"[d]
  }

  /** `str(x)` for a value that may be None. */
  function Shown(x: Option<string>): string
  {
    match x
    case None => "None"
    case Some(s) => s
  }
}
