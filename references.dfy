/**
 * Citation reference extraction.  The text inside each bracket citation
 * (`[1]`, `[1, 4]`, `[2-5]`) is split at commas; a part holding a dash is
 * an inclusive range that contributes every number in it, any other part
 * contributes itself.  Author-year citations found in parentheses are added
 * as they are, and duplicates are removed.  A malformed range (`1-2-3`,
 * `-3`, `1 2-4`) makes Python's unpacking or `int()` raise `ValueError`,
 * which stops the extraction.
 */
module References {

  import opened Wrappers
  import opened Text

  /** A character of the regex class `[\d\s,\-]`. */
  predicate RefChar(c: char) {
    IsDigit(c) || IsSpace(c) || c == ',' || c == '-'
  }

  /** A group captured by `\[([\d\s,\-]+)\]`.  Finding the groups in the
      text is the regex engine's work and is an input here. */
  type BracketGroup = s: string | |s| > 0 && forall i :: 0 <= i < |s| ==> RefChar(s[i]) witness "1"

  /** `[str(i) for i in range(lo, hi)]` */
  function RangeRefs(lo: nat, hi: nat): (r: seq<string>)
    ensures |r| == if lo <= hi then hi - lo else 0
    ensures forall i :: 0 <= i < |r| ==> r[i] == NatToString(lo + i)
  {
    if hi <= lo then [] else RangeRefs(lo, hi - 1) + [NatToString(hi - 1)]
  }

  /** What one comma-separated part contributes once stripped, or `None`
      when Python raises `ValueError`: a part with a dash must split into
      exactly two pieces that `int()` accepts. */
  function StrippedRefs(p: string): Option<seq<string>> {
    if '-' in p then
      var pieces := SplitOn(p, '-');
      if |pieces| != 2 then None
      else
        match (ParseInt(pieces[0]), ParseInt(pieces[1]))
        case (Some(a), Some(b)) => Some(RangeRefs(a, b + 1))
        case _ => None
    else Some([p])
  }

  function PartRefs(part: string): Option<seq<string>> {
    StrippedRefs(Strip(part))
  }

  // The loops of `_extract_references` append to one list; the functions
  // below describe that list after a range, a part, a group, starting from
  // what was collected before it.

  /** `acc` after appending `str(i)` for `i` in `range(lo, hi)`. */
  function AddRange(acc: seq<string>, lo: nat, hi: nat): seq<string> {
    if hi <= lo then acc else AddRange(acc, lo, hi - 1) + [NatToString(hi - 1)]
  }

  function AddStripped(acc: seq<string>, p: string): Option<seq<string>> {
    if '-' in p then
      var pieces := SplitOn(p, '-');
      if |pieces| != 2 then None
      else
        match (ParseInt(pieces[0]), ParseInt(pieces[1]))
        case (Some(a), Some(b)) => Some(AddRange(acc, a, b + 1))
        case _ => None
    else Some(acc + [p])
  }

  function AddPart(acc: seq<string>, part: string): Option<seq<string>> {
    AddStripped(acc, Strip(part))
  }

  function AddParts(acc: seq<string>, parts: seq<string>): Option<seq<string>> {
    if parts == [] then Some(acc)
    else
      match AddParts(acc, parts[..|parts| - 1])
      case None => None
      case Some(a) => AddPart(a, parts[|parts| - 1])
  }

  /** The list collected from the bracket groups, or `None` when a part raises. */
  function AddGroups(groups: seq<BracketGroup>): Option<seq<string>> {
    if groups == [] then Some([])
    else
      match AddGroups(groups[..|groups| - 1])
      case None => None
      case Some(a) => AddParts(a, SplitOn(groups[|groups| - 1], ','))
  }

  lemma {:induction false} AddRangeAppends(acc: seq<string>, lo: nat, hi: nat)
    ensures AddRange(acc, lo, hi) == acc + RangeRefs(lo, hi)
  {
    if lo < hi {
      AddRangeAppends(acc, lo, hi - 1);
    }
  }

  /** Appending a part's contribution to the list is `PartRefs` of the part. */
  lemma AddPartAppends(acc: seq<string>, part: string)
    ensures AddPart(acc, part).Some? <==> PartRefs(part).Some?
    ensures AddPart(acc, part).Some? ==> AddPart(acc, part).value == acc + PartRefs(part).value
  {
    AddStrippedAppends(acc, Strip(part));
  }

  lemma AddStrippedAppends(acc: seq<string>, p: string)
    ensures AddStripped(acc, p).Some? <==> StrippedRefs(p).Some?
    ensures AddStripped(acc, p).Some? ==> AddStripped(acc, p).value == acc + StrippedRefs(p).value
  {
    if '-' in p {
      var pieces := SplitOn(p, '-');
      if |pieces| == 2 {
        var a := ParseInt(pieces[0]);
        var b := ParseInt(pieces[1]);
        if a.Some? && b.Some? {
          AddRangeAppends(acc, a.value, b.value + 1);
          assert AddStripped(acc, p).value == AddRange(acc, a.value, b.value + 1);
          assert StrippedRefs(p).value == RangeRefs(a.value, b.value + 1);
        }
      }
    }
  }

  lemma SplitAtSole(x: string, y: string, c: char)
    requires c !in x && c !in y
    ensures SplitOn(x + [c] + y, c) == [x, y]
  {
    var s := x + [c] + y;
    assert s[|x|] == c;
    assert s[..|x|] == x;
    var i := IndexOf(s, c);
    assert i == |x|;
    assert s[i + 1..] == y;
  }

  lemma NoSpaceStrip(s: string)
    requires forall i :: 0 <= i < |s| ==> !IsSpace(s[i])
    ensures Strip(s) == s
  {
    StripSpec(s);
  }

  /** A part without white space is its own stripped form. */
  lemma PartRefsOfClean(s: string)
    requires forall k :: 0 <= k < |s| ==> !IsSpace(s[k])
    ensures PartRefs(s).Some? <==> StrippedRefs(s).Some?
    ensures PartRefs(s).Some? ==> PartRefs(s).value == StrippedRefs(s).value
  {
    NoSpaceStrip(s);
  }

  /** Two runs of digits joined by a dash hold no white space. */
  lemma DigitsDashClean(x: string, y: string)
    requires AllDigits(x) && forall k :: 0 <= k < |y| ==> !IsSpace(y[k])
    ensures forall k :: 0 <= k < |x + "-" + y| ==> !IsSpace((x + "-" + y)[k])
  {
    var s := x + "-" + y;
    forall k | 0 <= k < |s| ensures !IsSpace(s[k]) {
      if k < |x| { assert s[k] == x[k]; }
      else if k > |x| { assert s[k] == y[k - |x| - 1]; }
    }
  }

  /** Two runs of digits joined by a dash: the dash splits them apart again. */
  lemma DigitsDashSplit(x: string, y: string)
    requires AllDigits(x) && AllDigits(y)
    ensures '-' in x + "-" + y
    ensures SplitOn(x + "-" + y, '-') == [x, y]
  {
    var s := x + "-" + y;
    assert s == x + ['-'] + y;
    assert s[|x|] == '-';
    SplitAtSole(x, y, '-');
  }

  /** `str(i)` is among the values of `range(lo, hi)` exactly when `i` is. */
  lemma RangeRefsMembers(lo: nat, hi: nat)
    ensures forall i: nat :: NatToString(i) in RangeRefs(lo, hi) <==> lo <= i < hi
  {
    var r := RangeRefs(lo, hi);
    forall i: nat ensures NatToString(i) in r <==> lo <= i < hi {
      if NatToString(i) in r {
        var k :| 0 <= k < |r| && r[k] == NatToString(i);
        NatToStringInjective(i, lo + k);
      }
      if lo <= i < hi {
        assert r[i - lo] == NatToString(i);
      }
    }
  }

  /** A range part "a-b" contributes every integer from a to b inclusive, in
      increasing order, and nothing else (nothing at all when b < a). */
  lemma RangePartRefs(a: nat, b: nat)
    ensures PartRefs(NatToString(a) + "-" + NatToString(b)).Some?
    ensures PartRefs(NatToString(a) + "-" + NatToString(b)).value == RangeRefs(a, b + 1)
  {
    var x := NatToString(a);
    var y := NatToString(b);
    DigitsDashClean(x, y);
    PartRefsOfClean(x + "-" + y);
    RangeStripped(x, y, a, b);
  }

  lemma RangeStripped(x: string, y: string, a: nat, b: nat)
    requires x == NatToString(a) && y == NatToString(b)
    ensures StrippedRefs(x + "-" + y).Some?
    ensures StrippedRefs(x + "-" + y).value == RangeRefs(a, b + 1)
  {
    DigitsDashSplit(x, y);
    ParseIntOfNat(a);
    ParseIntOfNat(b);
    var pieces := SplitOn(x + "-" + y, '-');
    assert ParseInt(pieces[0]) == Some(a);
    assert ParseInt(pieces[1]) == Some(b);
  }

  /** A part made of a single number contributes that number's digits. */
  lemma SinglePartRefs(n: nat)
    ensures PartRefs(NatToString(n)).Some?
    ensures PartRefs(NatToString(n)).value == [NatToString(n)]
  {
    var s := NatToString(n);
    assert forall k :: 0 <= k < |s| ==> IsDigit(s[k]);
    NoSpaceStrip(s);
  }

  /** A part with two dashes cannot be unpacked into start and end. */
  lemma TwoDashesRaise(a: nat, b: nat, c: nat)
    ensures PartRefs(NatToString(a) + "-" + NatToString(b) + "-" + NatToString(c)).None?
  {
    ThreeRunsRaise(NatToString(a), NatToString(b), NatToString(c));
  }

  lemma ThreeRunsRaise(x: string, y: string, z: string)
    requires AllDigits(x) && AllDigits(y) && AllDigits(z)
    ensures PartRefs(x + "-" + y + "-" + z).None?
  {
    DashAssoc(x, y, z);
    DigitsDashClean(y, z);
    DigitsDashClean(x, y + "-" + z);
    PartRefsOfClean(x + "-" + (y + "-" + z));
    ThreeRunsSplit(x, y, z);
  }

  lemma DashAssoc(x: string, y: string, z: string)
    ensures x + "-" + (y + "-" + z) == x + "-" + y + "-" + z
  {
  }

  lemma ThreeRunsSplit(x: string, y: string, z: string)
    requires AllDigits(x) && AllDigits(y) && AllDigits(z)
    ensures StrippedRefs(x + "-" + (y + "-" + z)).None?
  {
    var yz := y + "-" + z;
    var s := x + "-" + yz;
    DigitsDashSplit(y, z);
    assert s == x + ['-'] + yz;
    assert s[|x|] == '-';
    var i := IndexOf(s, '-');
    assert i == |x|;
    assert s[..i] == x;
    assert s[i + 1..] == yz;
    assert SplitOn(s, '-') == [x] + SplitOn(yz, '-');
  }

  predicate NoDuplicates(s: seq<string>) {
    forall i, j :: 0 <= i < j < |s| ==> s[i] != s[j]
  }

  /** The result of the extraction: the collected references and the
      author-year citations, each once; `None` when a part raises. */
  function ReferencesOf(groups: seq<BracketGroup>, authorYear: seq<string>): Option<seq<string>> {
    match AddGroups(groups)
    case None => None
    case Some(refs) => Some(Distinct(refs + authorYear))
  }

  /** The innermost loop: `references.append(str(i))` for each `i` in
      `range(lo, hi)`. */
  method AppendRange(references: seq<string>, lo: nat, hi: nat) returns (r: seq<string>)
    ensures r == AddRange(references, lo, hi)
  {
    r := references;
    var i := lo;
    while i < hi
      invariant lo <= i && (i <= hi || i == lo)
      invariant r == AddRange(references, lo, i)
    {
      r := r + [NatToString(i)];
      i := i + 1;
    }
  }

  /** The body of the loop over the parts of one group: strip the part, then
      append the range it denotes or the part itself; `None` when unpacking
      or `int()` raises. */
  method AppendPart(references: seq<string>, part: string) returns (r: Option<seq<string>>)
    ensures r.Some? <==> AddPart(references, part).Some?
    ensures r.Some? ==> r.value == AddPart(references, part).value
  {
    var p := Strip(part);
    assert AddPart(references, part).Some? == AddStripped(references, p).Some?;
    if '-' in p {
      var pieces := SplitOn(p, '-');
      if |pieces| != 2 {
        return None;
      }
      var start := ParseInt(pieces[0]);
      var end := ParseInt(pieces[1]);
      if start.None? || end.None? {
        return None;
      }
      var refs := AppendRange(references, start.value, end.value + 1);
      assert AddStripped(references, p).value == AddRange(references, start.value, end.value + 1);
      r := Some(refs);
    } else {
      r := Some(references + [p]);
    }
  }

  /** The loop over the comma-separated parts of one bracket group. */
  method AppendGroup(references: seq<string>, group: BracketGroup) returns (r: Option<seq<string>>)
    ensures r.Some? <==> AddParts(references, SplitOn(group, ',')).Some?
    ensures r.Some? ==> r.value == AddParts(references, SplitOn(group, ',')).value
  {
    var parts := SplitOn(group, ',');
    var refs := references;
    var p := 0;
    while p < |parts|
      invariant 0 <= p <= |parts|
      invariant AddParts(references, parts[..p]).Some?
      invariant AddParts(references, parts[..p]).value == refs
    {
      assert parts[..p + 1][..p] == parts[..p];
      var next := AppendPart(refs, parts[p]);
      if next.None? {
        NoneStaysParts(references, parts, p + 1);
        return None;
      }
      refs := next.value;
      p := p + 1;
    }
    assert parts[..p] == parts;
    r := Some(refs);
  }

  /** `_extract_references` (with the author-year citations found in the
      text) and `extract_references_simple` (with none): the loops over
      groups, parts and range values, then `list(set(references))`.  The
      result holds each collected reference exactly once; a malformed part
      makes the whole extraction fail. */
  method ExtractReferences(groups: seq<BracketGroup>, authorYear: seq<string>) returns (r: Option<seq<string>>)
    ensures r.Some? <==> AddGroups(groups).Some?
    ensures r.Some? ==> r.value == Distinct(AddGroups(groups).value + authorYear)
    ensures r.Some? ==> NoDuplicates(r.value)
    ensures r.Some? ==> forall x :: x in r.value <==> x in AddGroups(groups).value || x in authorYear
  {
    var references: seq<string> := [];
    var g := 0;
    while g < |groups|
      invariant 0 <= g <= |groups|
      invariant AddGroups(groups[..g]).Some?
      invariant AddGroups(groups[..g]).value == references
    {
      assert groups[..g + 1][..g] == groups[..g];
      var next := AppendGroup(references, groups[g]);
      if next.None? {
        NoneStaysGroups(groups, g + 1);
        return None;
      }
      references := next.value;
      g := g + 1;
    }
    assert groups[..g] == groups;
    r := Some(Distinct(references + authorYear));
  }

  lemma {:induction false} NoneStaysParts(acc: seq<string>, parts: seq<string>, k: nat)
    requires 0 < k <= |parts|
    requires AddParts(acc, parts[..k]) == None
    ensures AddParts(acc, parts) == None
    decreases |parts| - k
  {
    if k < |parts| {
      assert parts[..k + 1][..k] == parts[..k];
      NoneStaysParts(acc, parts, k + 1);
    } else {
      assert parts[..k] == parts;
    }
  }

  lemma {:induction false} NoneStaysGroups(groups: seq<BracketGroup>, k: nat)
    requires 0 < k <= |groups|
    requires AddGroups(groups[..k]) == None
    ensures AddGroups(groups) == None
    decreases |groups| - k
  {
    if k < |groups| {
      assert groups[..k + 1][..k] == groups[..k];
      NoneStaysGroups(groups, k + 1);
    } else {
      assert groups[..k] == groups;
    }
  }
}
