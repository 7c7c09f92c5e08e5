// The `remove_newline` helpers of the scrapers.
module Cleaning {
  import opened Python

  /** The characters of the class [\n\r\t\f\v]. */
  predicate IsControl(c: char)
  {
    c == '\n' || c == '\r' || c == '\t' || c == '\U{000C}' || c == '\U{000B}'
  }

  predicate NoControl(s: string)
  {
    forall k :: 0 <= k < |s| ==> !IsControl(s[k])
  }

  /** `re.sub(r'[\n\r\t\f\v]', ' ', s)`. */
  function Blank(s: string): (r: string)
  {
    if s == [] then "" else [if IsControl(s[0]) then ' ' else s[0]] + Blank(s[1..])
  }

  /** Each control character becomes one space; everything else is kept in place. */
  lemma {:induction false} BlankSpec(s: string)
    ensures |Blank(s)| == |s|
    ensures forall k :: 0 <= k < |s| ==> Blank(s)[k] == (if IsControl(s[k]) then ' ' else s[k])
    ensures NoControl(Blank(s))
  {
    if s != [] {
      BlankSpec(s[1..]);
      assert forall k :: 1 <= k < |s| ==> Blank(s)[k] == Blank(s[1..])[k - 1];
    }
  }

  /** Where the lazy match of `<.*?>` starting at s[0] == '<' ends: the first '>'
      after it, provided no newline comes first (`.` does not match a newline). */
  function TagEnd(s: string, k: nat): (r: Option<nat>)
    requires 1 <= k <= |s|
    ensures r.Some? ==> k <= r.value < |s| && s[r.value] == '>'
    ensures r.Some? ==> forall q :: k <= q < r.value ==> s[q] != '>' && s[q] != '\n'
    ensures r.None? ==> forall q :: k <= q < |s| && s[q] == '>' ==> exists p :: k <= p < q && s[p] == '\n'
    decreases |s| - k
  {
    if k == |s| then None
    else if s[k] == '>' then Some(k)
    else if s[k] == '\n' then None
    else TagEnd(s, k + 1)
  }

  /** `re.sub('<.*?>', '', s)`. */
  function StripTags(s: string): string
    decreases |s|
  {
    if s == [] then ""
    else if s[0] == '<' && TagEnd(s, 1).Some? then StripTags(s[TagEnd(s, 1).value + 1..])
    else [s[0]] + StripTags(s[1..])
  }

  /** No '<' is followed, later in the text, by a '>'. */
  predicate NoTag(r: string)
  {
    forall i, j :: 0 <= i < j < |r| && r[i] == '<' ==> r[j] != '>'
  }

  /** Stripping only deletes characters. */
  lemma {:induction false} StripTagsSubset(s: string)
    ensures forall x :: x in StripTags(s) ==> x in s
    decreases |s|
  {
    if s == [] {
    } else if s[0] == '<' && TagEnd(s, 1).Some? {
      StripTagsSubset(s[TagEnd(s, 1).value + 1..]);
    } else {
      StripTagsSubset(s[1..]);
    }
  }

  /** On a line without newlines, no `<...>` span survives. */
  lemma {:induction false} StripTagsLeavesNoTag(s: string)
    requires '\n' !in s
    ensures NoTag(StripTags(s))
    decreases |s|
  {
    if s == [] {
    } else if s[0] == '<' && TagEnd(s, 1).Some? {
      var rest := s[TagEnd(s, 1).value + 1..];
      assert forall x :: x in rest ==> x in s;
      StripTagsLeavesNoTag(rest);
    } else {
      assert forall x :: x in s[1..] ==> x in s;
      StripTagsLeavesNoTag(s[1..]);
      StripTagsSubset(s[1..]);
      var r := StripTags(s);
      var tail := StripTags(s[1..]);
      assert r == [s[0]] + tail;
      if s[0] == '<' {
        assert forall p :: 0 <= p < |s| ==> s[p] != '\n';
        assert forall q :: 1 <= q < |s| ==> s[q] != '>';
        assert forall q :: 0 <= q < |s[1..]| ==> s[1..][q] == s[q + 1];
        assert '>' !in s[1..];
        assert '>' !in tail;
      }
      forall i, j | 0 <= i < j < |r| && r[i] == '<' ensures r[j] != '>' {
        if i == 0 {
          assert r[j] == tail[j - 1];
          assert r[j] in tail;
        } else {
          assert r[i] == tail[i - 1] && r[j] == tail[j - 1];
        }
      }
    }
  }

  /** Text that holds no tag and no newline passes through unchanged. */
  lemma {:induction false} StripTagsFixed(s: string)
    requires '\n' !in s
    requires NoTag(s)
    ensures StripTags(s) == s
    decreases |s|
  {
    if s != [] {
      assert s[0] == '<' ==> TagEnd(s, 1).None?;
      assert forall x :: x in s[1..] ==> x in s;
      assert NoTag(s[1..]) by {
        forall i, j | 0 <= i < j < |s[1..]| && s[1..][i] == '<' ensures s[1..][j] != '>' {
          assert s[i + 1] == '<';
        }
      }
      StripTagsFixed(s[1..]);
    }
  }

  /** Python truthiness of an optional string. */
  predicate Truthy(x: Option<string>)
  {
    x.Some? && x.value != ""
  }

  /** `remove_newline` of scraper/default.py: control characters become spaces,
      then tags are removed; a falsy argument gives "". */
  function TagsAndControls(x: Option<string>): string
  {
    if Truthy(x) then StripTags(Blank(x.value)) else ""
  }

  /** The result of the default cleaning holds no control character and no tag,
      is empty for None and "", and cleaning it again changes nothing. */
  lemma TagsAndControlsSpec(x: Option<string>)
    ensures !Truthy(x) ==> TagsAndControls(x) == ""
    ensures NoControl(TagsAndControls(x))
    ensures NoTag(TagsAndControls(x))
    ensures TagsAndControls(Some(TagsAndControls(x))) == TagsAndControls(x)
  {
    if Truthy(x) {
      var b := Blank(x.value);
      BlankSpec(x.value);
      assert forall k :: 0 <= k < |b| ==> b[k] != '\n';
      assert '\n' !in b;
      var r := StripTags(b);
      StripTagsSubset(b);
      StripTagsLeavesNoTag(b);
      assert NoControl(r) by {
        forall k | 0 <= k < |r| ensures !IsControl(r[k]) {
          assert r[k] in r;
          var q :| 0 <= q < |b| && b[q] == r[k];
        }
      }
      if r != "" {
        BlankSpec(r);
        assert Blank(r) == r;
        assert forall k :: 0 <= k < |r| ==> r[k] != '\n';
        assert '\n' !in r;
        StripTagsFixed(r);
      }
    }
  }

  /** `remove_newline` of KT_VD, KT_ZG and KT_ZH: control characters become spaces. */
  function ControlsOnly(x: Option<string>): string
  {
    if Truthy(x) then Blank(x.value) else ""
  }

  /** The result keeps the length of the input, holds no control character,
      and cleaning it again changes nothing. */
  lemma ControlsOnlySpec(x: Option<string>)
    ensures !Truthy(x) ==> ControlsOnly(x) == ""
    ensures Truthy(x) ==> |ControlsOnly(x)| == |x.value|
    ensures NoControl(ControlsOnly(x))
    ensures ControlsOnly(Some(ControlsOnly(x))) == ControlsOnly(x)
  {
    if Truthy(x) {
      BlankSpec(x.value);
      BlankSpec(Blank(x.value));
    }
  }

  /** `remove_newline` of KT_BL, KT_BS and KT_GL: every "\r\n" pair is deleted. */
  function CrlfOnly(x: Option<string>): string
  {
    if Truthy(x) then Replace(x.value, "\r\n", "") else ""
  }

  /** Text without a "\r\n" pair passes through the pair-deleting cleaner unchanged. */
  lemma {:induction false} CrlfOnlyKeeps(s: string)
    requires !Contains(s, "\r\n")
    ensures Replace(s, "\r\n", "") == s
    decreases |s|
  {
    if |s| >= 2 {
      CrlfOnlyKeeps(s[1..]);
    }
  }

  /** Deleting "\r\n" pairs in one left-to-right pass can create a new pair,
      so this cleaner, unlike the others, is not idempotent. */
  lemma CrlfOnlyNotIdempotent()
    ensures CrlfOnly(Some("\r\r\n\n")) == "\r\n"
    ensures CrlfOnly(Some(CrlfOnly(Some("\r\r\n\n")))) == ""
  {
    assert "\r\r\n\n"[1..] == "\r\n\n";
    assert "\r\n\n"[2..] == "\n";
    assert "\r\n"[2..] == "";
  }

  /** Which `remove_newline` a branch calls; `Missing` is a name that is not defined. */
  datatype Cleaner = TagsAndControlsCleaner | ControlsOnlyCleaner | CrlfOnlyCleaner | Missing

  /** A call `remove_newline(x)`; an undefined name raises before the argument is used. */
  function Clean(how: Cleaner, x: Option<string>): (r: Result<string>)
    ensures r.Err? <==> how.Missing?
    ensures how.Missing? ==> r == Err(NameError("remove_newline"))
    ensures r.Ok? && !Truthy(x) ==> r.value == ""
  {
    match how
    case TagsAndControlsCleaner => Ok(TagsAndControls(x))
    case ControlsOnlyCleaner => Ok(ControlsOnly(x))
    case CrlfOnlyCleaner => Ok(CrlfOnly(x))
    case Missing => Err(NameError("remove_newline"))
  }
}
