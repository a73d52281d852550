/** String primitives the source relies on, with the Python/JavaScript meaning
    they have there: substring search (`in`, `find`, `rfind`, `includes`),
    `split(sep)`, `strip(chars)`, whitespace `split()`, ASCII lower-casing and
    decimal rendering of integers. Characters are Unicode scalar values; case
    mapping is restricted to ASCII; whitespace is the set `str.isspace()`
    accepts. */
module Text {
  import opened Wrappers

  // ---------------------------------------------------------------------------
  // Lower-casing

  function LowerChar(c: char): char {
    if 'A' <= c <= 'Z' then (c as int + 32) as char else c
  }

  /** ASCII `lower()` / `toLowerCase()`. */
  function Lower(s: string): (r: string)
    ensures |r| == |s|
    ensures forall i :: 0 <= i < |s| ==> r[i] == LowerChar(s[i])
  {
    seq(|s|, i requires 0 <= i < |s| => LowerChar(s[i]))
  }

  predicate IsUpper(c: char) {
    'A' <= c <= 'Z'
  }

  /** Lower-casing leaves no upper-case letter behind, so doing it twice is
      the same as doing it once. */
  lemma LowerIdempotent(s: string)
    ensures forall i :: 0 <= i < |s| ==> !IsUpper(Lower(s)[i])
    ensures Lower(Lower(s)) == Lower(s)
  {
  }

  // ---------------------------------------------------------------------------
  // Substring search

  predicate IsPrefix(p: string, s: string) {
    |p| <= |s| && s[..|p|] == p
  }

  /** `sub` occurs in `s` starting at index `i`. */
  predicate OccursAt(s: string, sub: string, i: int) {
    0 <= i && i + |sub| <= |s| && s[i..i + |sub|] == sub
  }

  /** Python's `sub in s` and JavaScript's `s.includes(sub)`. */
  predicate Contains(s: string, sub: string)
    decreases |s|
  {
    IsPrefix(sub, s) || (|s| > 0 && Contains(s[1..], sub))
  }

  lemma OccursAtShift(s: string, sub: string, i: int)
    requires |s| > 0 && 0 <= i
    ensures OccursAt(s, sub, i + 1) <==> OccursAt(s[1..], sub, i)
  {
    if i + 1 + |sub| <= |s| {
      assert s[i + 1..i + 1 + |sub|] == s[1..][i..i + |sub|];
    }
  }

  /** The recursive search agrees with the positional definition of an
      occurrence, in both directions. */
  lemma {:induction false} ContainsIffOccurs(s: string, sub: string)
    ensures Contains(s, sub) <==> exists i :: OccursAt(s, sub, i)
    decreases |s|
  {
    if IsPrefix(sub, s) {
      assert OccursAt(s, sub, 0);
    } else if |s| == 0 {
      forall i | OccursAt(s, sub, i)
        ensures false
      {
      }
    } else {
      ContainsIffOccurs(s[1..], sub);
      if Contains(s[1..], sub) {
        var i :| OccursAt(s[1..], sub, i);
        OccursAtShift(s, sub, i);
      } else {
        forall i | OccursAt(s, sub, i)
          ensures false
        {
          assert i != 0;
          OccursAtShift(s, sub, i - 1);
        }
      }
    }
  }

  /** A string occurring at a known position is contained. */
  lemma OccursContains(s: string, sub: string, i: int)
    requires OccursAt(s, sub, i)
    ensures Contains(s, sub)
  {
    ContainsIffOccurs(s, sub);
  }

  /** Whatever is concatenated around `sub`, the result contains `sub`. */
  lemma ContainsInfix(a: string, sub: string, b: string)
    ensures Contains(a + sub + b, sub)
  {
    assert (a + sub + b)[|a|..|a| + |sub|] == sub;
    OccursContains(a + sub + b, sub, |a|);
  }
  /** Text added in front keeps an occurrence. */
  lemma ContainsInSuffix(a: string, b: string, sub: string)
    requires Contains(b, sub)
    ensures Contains(a + b, sub)
  {
    ContainsIffOccurs(b, sub);
    var i :| OccursAt(b, sub, i);
    assert (a + b)[|a| + i..|a| + i + |sub|] == b[i..i + |sub|];
    OccursContains(a + b, sub, |a| + i);
  }


  /** A string lacking one of `sub`'s characters cannot contain `sub`. */
  lemma MissingCharNotContained(s: string, sub: string, c: char)
    requires c in sub && c !in s
    ensures !Contains(s, sub)
  {
    ContainsIffOccurs(s, sub);
  }

  /** Python's `s.find(sub)`: the first index at which `sub` occurs. */
  function IndexOf(s: string, sub: string): (r: Option<nat>)
    ensures r.Some? ==> OccursAt(s, sub, r.value)
    ensures r.Some? ==> forall j :: 0 <= j < r.value ==> !OccursAt(s, sub, j)
    ensures r.None? ==> forall j :: !OccursAt(s, sub, j)
    decreases |s|
  {
    if IsPrefix(sub, s) then Some(0)
    else if |s| == 0 then None
    else
      var rest := IndexOf(s[1..], sub);
      assert forall j :: 1 <= j ==> (OccursAt(s, sub, j) <==> OccursAt(s[1..], sub, j - 1)) by {
        forall j | 1 <= j
          ensures OccursAt(s, sub, j) <==> OccursAt(s[1..], sub, j - 1)
        {
          OccursAtShift(s, sub, j - 1);
        }
      }
      assert !OccursAt(s, sub, 0);
      match rest
      case None => None
      case Some(i) => Some(i + 1)
  }

  /** Python's `s.find(c)` for one character. */
  function FindChar(s: string, c: char): (r: Option<nat>)
    ensures r.Some? ==> r.value < |s| && s[r.value] == c
    ensures r.Some? ==> forall j :: 0 <= j < r.value ==> s[j] != c
    ensures r.None? ==> forall j :: 0 <= j < |s| ==> s[j] != c
  {
    if |s| == 0 then None
    else if s[0] == c then Some(0)
    else match FindChar(s[1..], c)
      case None => None
      case Some(i) => Some(i + 1)
  }

  /** Python's `s.rfind(c)` for one character. */
  function RFindChar(s: string, c: char): (r: Option<nat>)
    ensures r.Some? ==> r.value < |s| && s[r.value] == c
    ensures r.Some? ==> forall j :: r.value < j < |s| ==> s[j] != c
    ensures r.None? ==> forall j :: 0 <= j < |s| ==> s[j] != c
  {
    if |s| == 0 then None
    else if s[|s| - 1] == c then Some(|s| - 1)
    else RFindChar(s[..|s| - 1], c)
  }

  // ---------------------------------------------------------------------------
  // split / join

  /** Python's `s.split(sep)` for a non-empty separator (an empty separator
      raises `ValueError` there). */
  function Split(s: string, sep: string): (parts: seq<string>)
    requires |sep| > 0
    ensures |parts| >= 1
    decreases |s|
  {
    match IndexOf(s, sep)
    case None => [s]
    case Some(i) => [s[..i]] + Split(s[i + |sep|..], sep)
  }

  /** `sep.join(parts)`. */
  function Join(parts: seq<string>, sep: string): string {
    if |parts| == 0 then ""
    else if |parts| == 1 then parts[0]
    else parts[0] + sep + Join(parts[1..], sep)
  }
  /** Every piece occurs in the joined text. */
  lemma {:induction false} JoinContains(parts: seq<string>, sep: string, k: nat)
    requires k < |parts|
    ensures Contains(Join(parts, sep), parts[k])
    decreases |parts|
  {
    if k == 0 {
      var j := Join(parts, sep);
      if |parts| > 1 {
        assert j == parts[0] + (sep + Join(parts[1..], sep));
        assert j[0..|parts[0]|] == parts[0];
      }
      OccursContains(j, parts[0], 0);
    } else {
      JoinContains(parts[1..], sep, k - 1);
      assert parts[1..][k - 1] == parts[k];
      assert Join(parts, sep) == (parts[0] + sep) + Join(parts[1..], sep);
      ContainsInSuffix(parts[0] + sep, Join(parts[1..], sep), parts[k]);
    }
  }


  /** Joining the pieces of a split with the same separator gives back the
      original string. */
  lemma {:induction false} JoinSplit(s: string, sep: string)
    requires |sep| > 0
    ensures Join(Split(s, sep), sep) == s
    decreases |s|
  {
    match IndexOf(s, sep)
    case None =>
    case Some(i) =>
      var rest := s[i + |sep|..];
      var parts := Split(rest, sep);
      assert Split(s, sep) == [s[..i]] + parts;
      JoinSplit(rest, sep);
      JoinCons(s[..i], parts, sep);
      assert s[i..i + |sep|] == sep;
      PrefixSepRest(s, i, sep);
  }

  /** A string splits around an occurrence of `sep` at `i`. */
  lemma PrefixSepRest(s: string, i: nat, sep: string)
    requires i + |sep| <= |s| && s[i..i + |sep|] == sep
    ensures s == s[..i] + sep + s[i + |sep|..]
  {
  }

  /** Joining a piece in front of a non-empty list puts the separator
      between them. */
  lemma JoinCons(a: string, parts: seq<string>, sep: string)
    requires |parts| >= 1
    ensures Join([a] + parts, sep) == a + sep + Join(parts, sep)
  {
    assert ([a] + parts)[1..] == parts;
  }

  lemma OccursInPrefix(s: string, sub: string, i: nat, j: int)
    requires i <= |s| && OccursAt(s[..i], sub, j)
    ensures OccursAt(s, sub, j) && j + |sub| <= i
  {
    assert s[..i][j..j + |sub|] == s[j..j + |sub|];
  }

  lemma NoOccurrenceBefore(s: string, sub: string, i: nat)
    requires i <= |s| && |sub| > 0
    requires forall j :: 0 <= j < i ==> !OccursAt(s, sub, j)
    ensures !Contains(s[..i], sub)
  {
    ContainsIffOccurs(s[..i], sub);
    if Contains(s[..i], sub) {
      var j :| OccursAt(s[..i], sub, j);
      OccursInPrefix(s, sub, i, j);
    }
  }

  /** No piece of a split contains the separator. */
  lemma {:induction false} SplitPartsAvoidSeparator(s: string, sep: string)
    requires |sep| > 0
    ensures forall k :: 0 <= k < |Split(s, sep)| ==> !Contains(Split(s, sep)[k], sep)
    decreases |s|
  {
    match IndexOf(s, sep)
    case None =>
      ContainsIffOccurs(s, sep);
    case Some(i) =>
      NoOccurrenceBefore(s, sep, i);
      SplitPartsAvoidSeparator(s[i + |sep|..], sep);
  }

  /** The first piece of a split is everything before the first separator. */
  lemma SplitFirst(s: string, sep: string)
    requires |sep| > 0
    ensures IndexOf(s, sep).None? ==> Split(s, sep) == [s]
    ensures IndexOf(s, sep).Some? ==> |Split(s, sep)| >= 2 && Split(s, sep)[0] == s[..IndexOf(s, sep).value]
  {
  }

  /** The first two pieces of a split: with no separator the string is one
      piece; otherwise the string starts with "first sep second", which is
      either all of it or followed by another separator. */
  lemma {:induction false} SplitFirstTwo(s: string, sep: string)
    requires |sep| > 0
    ensures !Contains(s, sep) ==> Split(s, sep) == [s]
    ensures Contains(s, sep) ==> |Split(s, sep)| >= 2
    ensures Contains(s, sep) ==>
      var parts := Split(s, sep);
      s == parts[0] + sep + parts[1] || IsPrefix(parts[0] + sep + parts[1] + sep, s)
  {
    var parts := Split(s, sep);
    JoinSplit(s, sep);
    ContainsIffOccurs(s, sep);
    if Contains(s, sep) {
      var tail := Join(parts[1..], sep);
      assert s == parts[0] + sep + tail;
      if |parts| > 2 {
        JoinThree(parts, sep);
        var head := parts[0] + sep + parts[1] + sep;
        assert s == head + Join(parts[2..], sep);
        assert s[..|head|] == head;
      }
    }
  }

  lemma JoinThree(parts: seq<string>, sep: string)
    requires |parts| > 2
    ensures Join(parts, sep) == parts[0] + sep + parts[1] + sep + Join(parts[2..], sep)
  {
    assert parts[1..][1..] == parts[2..];
  }

  /** A string free of the separator splits into itself alone. */
  lemma SplitFree(a: string, sep: string)
    requires |sep| > 0 && !Contains(a, sep)
    ensures Split(a, sep) == [a]
  {
    ContainsIffOccurs(a, sep);
  }

  /** The first character of `sep` does not recur later in it. */
  predicate HeadUnique(sep: string) {
    forall m :: 0 < m < |sep| ==> sep[m] != sep[0]
  }

  /** When `a` is free of `sep`, and `sep`'s first character does not recur
      inside it, the first occurrence of `sep` in `a + sep + b` is the one
      right after `a`. */
  lemma IndexOfAfterFree(a: string, sep: string, b: string)
    requires |sep| > 0 && !Contains(a, sep)
    requires HeadUnique(sep)
    ensures IndexOf(a + sep + b, sep) == Some(|a|)
  {
    var s := a + sep + b;
    ContainsIffOccurs(a, sep);
    assert s[|a|..|a| + |sep|] == sep;
    forall j | 0 <= j < |a|
      ensures !OccursAt(s, sep, j)
    {
      if j + |sep| <= |a| {
        assert s[j..j + |sep|] == a[j..j + |sep|];
        assert !OccursAt(a, sep, j);
      } else {
        var t := |a| - j;
        assert s[j..j + |sep|][t] == sep[0];
      }
    }
    assert OccursAt(s, sep, |a|);
    var r := IndexOf(s, sep);
    assert r.Some?;
    assert !(r.value < |a|);
    assert !(|a| < r.value);
  }

  /** Splitting `a + sep + b` peels `a` off the front. */
  lemma SplitJoined(a: string, sep: string, b: string)
    requires |sep| > 0 && !Contains(a, sep)
    requires HeadUnique(sep)
    ensures Split(a + sep + b, sep) == [a] + Split(b, sep)
  {
    var s := a + sep + b;
    IndexOfAfterFree(a, sep, b);
    assert s[..|a|] == a;
    assert s[|a| + |sep|..] == b;
  }

  /** Splitting undoes joining two separator-free pieces, whatever follows a
      further separator. */
  lemma SplitPairInverse(a: string, b: string, rest: string, sep: string)
    requires |sep| > 0 && !Contains(a, sep) && !Contains(b, sep)
    requires HeadUnique(sep)
    ensures Split(a + sep + b, sep) == [a, b]
    ensures |Split(a + sep + b + sep + rest, sep)| >= 2
    ensures Split(a + sep + b + sep + rest, sep)[..2] == [a, b]
  {
    SplitPair(a, b, sep);
    SplitPairThenRest(a, b, rest, sep);
  }

  lemma SplitPair(a: string, b: string, sep: string)
    requires |sep| > 0 && !Contains(a, sep) && !Contains(b, sep)
    requires HeadUnique(sep)
    ensures Split(a + sep + b, sep) == [a, b]
  {
    SplitJoined(a, sep, b);
    SplitFree(b, sep);
  }

  lemma SplitPairThenRest(a: string, b: string, rest: string, sep: string)
    requires |sep| > 0 && !Contains(a, sep) && !Contains(b, sep)
    requires HeadUnique(sep)
    ensures |Split(a + sep + b + sep + rest, sep)| >= 2
    ensures Split(a + sep + b + sep + rest, sep)[..2] == [a, b]
  {
    var tail := b + sep + rest;
    SplitJoined(b, sep, rest);
    RegroupTwoFields(a, b, rest, sep);
    SplitJoined(a, sep, tail);
    var ps := Split(tail, sep);
    assert ps[0] == b;
    assert ([a] + ps)[..2] == [a, b];
  }

  lemma RegroupTwoFields(a: string, b: string, rest: string, sep: string)
    ensures a + sep + b + sep + rest == a + sep + (b + sep + rest)
  {
  }

  lemma SplitPairFirstTwo(a: string, b: string, rest: string, sep: string)
    requires |sep| > 0 && !Contains(a, sep) && !Contains(b, sep)
    requires HeadUnique(sep)
    ensures |Split(a + sep + b + sep + rest, sep)| >= 2
    ensures Split(a + sep + b + sep + rest, sep)[0] == a
    ensures Split(a + sep + b + sep + rest, sep)[1] == b
  {
    SplitPairInverse(a, b, rest, sep);
    var parts := Split(a + sep + b + sep + rest, sep);
    assert parts[0] == parts[..2][0];
    assert parts[1] == parts[..2][1];
  }

  /** The first two fields of `a + sep + b + sep + rest` are `a` and `b`. */
  lemma SplitTwoFields(a: string, b: string, rest: string, sep: string)
    requires |sep| > 0 && !Contains(a, sep) && !Contains(b, sep)
    requires HeadUnique(sep)
    ensures Contains(a + sep + b + sep + rest, sep)
    ensures |Split(a + sep + b + sep + rest, sep)| >= 2
    ensures Split(a + sep + b + sep + rest, sep)[0] == a
    ensures Split(a + sep + b + sep + rest, sep)[1] == b
  {
    var s := a + sep + b + sep + rest;
    var tail := b + sep + rest;
    assert s == a + sep + tail;
    ContainsInfix(a, sep, tail);
    SplitPairFirstTwo(a, b, rest, sep);
  }

  /** The concatenation of a list of pieces (an f-string's literal and
      interpolated parts, in order). */
  function Concat(parts: seq<string>): string {
    if |parts| == 0 then "" else parts[0] + Concat(parts[1..])
  }

  /** Parts opening with a non-empty one join to a non-empty string. */
  lemma ConcatHeadNonEmpty(parts: seq<string>)
    requires |parts| > 0 && parts[0] != ""
    ensures Concat(parts) != ""
  {
    assert Concat(parts) == parts[0] + Concat(parts[1..]);
  }

  predicate EndsWith(s: string, suffix: string) {
    |suffix| <= |s| && s[|s| - |suffix|..] == suffix
  }

  lemma {:induction false} ConcatSplit(parts: seq<string>, k: nat)
    requires k <= |parts|
    ensures Concat(parts) == Concat(parts[..k]) + Concat(parts[k..])
  {
    if k > 0 {
      ConcatSplit(parts[1..], k - 1);
      assert parts[1..][..k - 1] == parts[..k][1..];
      assert parts[1..][k - 1..] == parts[k..];
    }
  }

  lemma Concat3(a: string, b: string, c: string)
    ensures Concat([a, b, c]) == a + b + c
  {
    assert [a, b, c][1..] == [b, c];
    assert [b, c][1..] == [c];
    assert [c][1..] == [];
    assert Concat([c]) == c + "";
    assert c + "" == c;
  }

  /** Every piece occurs in the concatenation. */
  lemma ConcatContains(parts: seq<string>, k: nat)
    requires k < |parts|
    ensures Contains(Concat(parts), parts[k])
  {
    var a := Concat(parts[..k]);
    var b := Concat(parts[k + 1..]);
    ConcatSplit(parts, k);
    assert parts[k..][1..] == parts[k + 1..];
    assert Concat(parts[k..]) == parts[k] + b;
    assert Concat(parts) == a + parts[k] + b;
    ContainsInfix(a, parts[k], b);
  }

  /** The concatenation starts with its first three pieces and ends with its
      last three. */
  lemma ConcatEnds(parts: seq<string>)
    requires |parts| >= 3
    ensures IsPrefix(parts[0] + parts[1] + parts[2], Concat(parts))
    ensures EndsWith(Concat(parts), parts[|parts| - 3] + parts[|parts| - 2] + parts[|parts| - 1])
  {
    ConcatStarts(parts);
    ConcatFinishes(parts);
  }

  lemma ConcatStarts(parts: seq<string>)
    requires |parts| >= 3
    ensures IsPrefix(parts[0] + parts[1] + parts[2], Concat(parts))
  {
    ConcatSplit(parts, 3);
    Concat3(parts[0], parts[1], parts[2]);
    assert parts[..3] == [parts[0], parts[1], parts[2]];
    PrefixOfAppend(parts[0] + parts[1] + parts[2], Concat(parts[3..]));
  }

  lemma ConcatFinishes(parts: seq<string>)
    requires |parts| >= 3
    ensures EndsWith(Concat(parts), parts[|parts| - 3] + parts[|parts| - 2] + parts[|parts| - 1])
  {
    var n := |parts|;
    var x, y, z := parts[n - 3], parts[n - 2], parts[n - 1];
    var head := Concat(parts[..n - 3]);
    assert Concat(parts[n - 3..]) == x + y + z by {
      assert parts[n - 3..] == [x, y, z];
      Concat3(x, y, z);
    }
    assert Concat(parts) == head + (x + y + z) by {
      ConcatSplit(parts, n - 3);
    }
    SuffixOfAppend(head, x + y + z);
  }

  lemma PrefixOfAppend(a: string, b: string)
    ensures IsPrefix(a, a + b)
  {
    assert (a + b)[..|a|] == a;
  }

  lemma SuffixOfAppend(a: string, b: string)
    ensures EndsWith(a + b, b)
  {
    assert (a + b)[|a + b| - |b|..] == b;
  }

  // ---------------------------------------------------------------------------
  // strip

  /** `s.lstrip(chars)` with `chars` given as a set. */
  function StripLeft(s: string, cs: set<char>): (r: string)
    ensures |r| <= |s| && r == s[|s| - |r|..]
    ensures r == "" || r[0] !in cs
    ensures forall k :: 0 <= k < |s| - |r| ==> s[k] in cs
  {
    if |s| > 0 && s[0] in cs then StripLeft(s[1..], cs) else s
  }

  /** `s.rstrip(chars)` with `chars` given as a set. */
  function StripRight(s: string, cs: set<char>): (r: string)
    ensures |r| <= |s| && r == s[..|r|]
    ensures r == "" || r[|r| - 1] !in cs
    ensures forall k :: |r| <= k < |s| ==> s[k] in cs
  {
    if |s| > 0 && s[|s| - 1] in cs then StripRight(s[..|s| - 1], cs) else s
  }

  /** `s.strip(chars)`: drop every leading and trailing character in `cs`. */
  function Strip(s: string, cs: set<char>): string {
    StripRight(StripLeft(s, cs), cs)
  }

  /** Reference definition of a strip result: the slice `s[i..j]` such that
      everything outside it belongs to `cs` and it neither starts nor ends with
      a character of `cs`. */
  ghost predicate IsStripOf(s: string, cs: set<char>, r: string) {
    exists i, j :: IsStripSlice(s, cs, r, i, j)
  }

  ghost predicate IsStripSlice(s: string, cs: set<char>, r: string, i: int, j: int) {
    && 0 <= i <= j <= |s|
    && r == s[i..j]
    && (forall k :: 0 <= k < i ==> s[k] in cs)
    && (forall k :: j <= k < |s| ==> s[k] in cs)
    && (r == "" || (r[0] !in cs && r[|r| - 1] !in cs))
  }

  lemma {:induction false} StripLeftUnique(s: string, cs: set<char>, i: nat)
    requires i <= |s|
    requires forall k :: 0 <= k < i ==> s[k] in cs
    requires i == |s| || s[i] !in cs
    ensures StripLeft(s, cs) == s[i..]
    decreases i
  {
    if i > 0 {
      StripLeftUnique(s[1..], cs, i - 1);
      assert s[1..][i - 1..] == s[i..];
    }
  }

  lemma {:induction false} StripRightUnique(s: string, cs: set<char>, j: nat)
    requires j <= |s|
    requires forall k :: j <= k < |s| ==> s[k] in cs
    requires j == 0 || s[j - 1] !in cs
    ensures StripRight(s, cs) == s[..j]
    decreases |s| - j
  {
    if j < |s| {
      StripRightUnique(s[..|s| - 1], cs, j);
      assert s[..|s| - 1][..j] == s[..j];
    }
  }

  /** `Strip` meets the reference definition. */
  lemma StripMeetsDefinition(s: string, cs: set<char>)
    ensures IsStripOf(s, cs, Strip(s, cs))
  {
    var left := StripLeft(s, cs);
    var i := |s| - |left|;
    var right := StripRight(left, cs);
    assert right == s[i..i + |right|];
    forall k | i + |right| <= k < |s|
      ensures s[k] in cs
    {
      assert s[k] == left[k - i];
    }
    assert IsStripSlice(s, cs, right, i, i + |right|);
  }

  /** Nothing but `Strip(s, cs)` meets the reference definition. */
  lemma StripUnique(s: string, cs: set<char>, r: string)
    requires IsStripOf(s, cs, r)
    ensures r == Strip(s, cs)
  {
    var a, b :| IsStripSlice(s, cs, r, a, b);
    StripSliceUnique(s, cs, r, a, b);
  }

  lemma StripSliceUnique(s: string, cs: set<char>, r: string, a: int, b: int)
    requires IsStripSlice(s, cs, r, a, b)
    ensures r == Strip(s, cs)
  {
    if a == b {
      forall k | 0 <= k < |s|
        ensures s[k] in cs
      {
        if k >= b {
        }
      }
      StripLeftUnique(s, cs, |s|);
    } else {
      StripSliceUniqueNonEmpty(s, cs, a, b);
    }
  }

  lemma StripSliceUniqueNonEmpty(s: string, cs: set<char>, a: nat, b: nat)
    requires a < b <= |s|
    requires forall k :: 0 <= k < a ==> s[k] in cs
    requires forall k :: b <= k < |s| ==> s[k] in cs
    requires s[a] !in cs && s[b - 1] !in cs
    ensures Strip(s, cs) == s[a..b]
  {
    StripLeftUnique(s, cs, a);
    StripRightOfSuffix(s, cs, a, b);
    StripComposes(s, cs, s[a..], s[a..b]);
  }

  lemma StripRightOfSuffix(s: string, cs: set<char>, a: nat, b: nat)
    requires a < b <= |s|
    requires forall k :: b <= k < |s| ==> s[k] in cs
    requires s[b - 1] !in cs
    ensures StripRight(s[a..], cs) == s[a..b]
  {
    var t := s[a..];
    SuffixTailInSet(s, cs, a, b);
    assert t[b - a - 1] == s[b - 1];
    StripRightUnique(t, cs, b - a);
    assert t[..b - a] == s[a..b];
  }

  lemma StripComposes(s: string, cs: set<char>, t: string, r: string)
    requires StripLeft(s, cs) == t && StripRight(t, cs) == r
    ensures Strip(s, cs) == r
  {
  }

  lemma SuffixTailInSet(s: string, cs: set<char>, a: nat, b: nat)
    requires a <= b <= |s|
    requires forall k :: b <= k < |s| ==> s[k] in cs
    ensures forall k :: b - a <= k < |s[a..]| ==> s[a..][k] in cs
  {
    forall k | b - a <= k < |s[a..]|
      ensures s[a..][k] in cs
    {
      assert s[a..][k] == s[a + k];
    }
  }

  lemma {:induction false} StripLeftAppend(x: string, p: string, cs: set<char>)
    ensures StripLeft(x + p, cs) == if StripLeft(x, cs) == "" then StripLeft(p, cs) else StripLeft(x, cs) + p
    decreases |x|
  {
    if |x| > 0 {
      assert (x + p)[0] == x[0];
      assert (x + p)[1..] == x[1..] + p;
      if x[0] in cs {
        StripLeftAppend(x[1..], p, cs);
      }
    } else {
      assert x + p == p;
    }
  }

  lemma {:induction false} StripLeftOnlyStripped(p: string, cs: set<char>)
    requires forall k :: 0 <= k < |p| ==> p[k] in cs
    ensures StripLeft(p, cs) == ""
    decreases |p|
  {
    if |p| > 0 {
      StripLeftOnlyStripped(p[1..], cs);
    }
  }

  lemma {:induction false} StripRightAppend(x: string, p: string, cs: set<char>)
    requires forall k :: 0 <= k < |p| ==> p[k] in cs
    ensures StripRight(x + p, cs) == StripRight(x, cs)
    decreases |p|
  {
    if |p| > 0 {
      assert (x + p)[..|x + p| - 1] == x + p[..|p| - 1];
      StripRightAppend(x, p[..|p| - 1], cs);
    } else {
      assert x + p == x;
    }
  }

  /** Appending characters that are all stripped does not change the strip. */
  lemma StripAppendStripped(x: string, p: string, cs: set<char>)
    requires forall k :: 0 <= k < |p| ==> p[k] in cs
    ensures Strip(x + p, cs) == Strip(x, cs)
  {
    StripLeftAppend(x, p, cs);
    if StripLeft(x, cs) == "" {
      StripLeftOnlyStripped(p, cs);
    } else {
      StripRightAppend(StripLeft(x, cs), p, cs);
    }
  }

  /** Prepending characters that are all stripped does not change the strip. */
  lemma StripPrependStripped(p: string, x: string, cs: set<char>)
    requires forall k :: 0 <= k < |p| ==> p[k] in cs
    ensures Strip(p + x, cs) == Strip(x, cs)
  {
    StripLeftAppend(p, x, cs);
    StripLeftOnlyStripped(p, cs);
  }

  /** Stripping a stripped string changes nothing. */
  lemma StripIdempotent(s: string, cs: set<char>)
    ensures Strip(Strip(s, cs), cs) == Strip(s, cs)
  {
    var r := Strip(s, cs);
    if r == "" {
    } else {
      StripLeftUnique(r, cs, 0);
      StripRightUnique(r, cs, |r|);
    }
  }

  // ---------------------------------------------------------------------------
  // Whitespace words

  /** The characters Python's `str.isspace()` accepts, which `str.split()`
      and `str.strip()` with no argument treat as whitespace: tab through
      carriage return, the separators 0x1C..0x1F and the space, NEL, the
      no-break space, and the Unicode spaces and line/paragraph separators. */
  predicate IsPySpace(c: char) {
    || ('\t' <= c <= '\r') || ('\U{1C}' <= c <= ' ')
    || c == '\U{85}' || c == '\U{A0}' || c == '\U{1680}'
    || ('\U{2000}' <= c <= '\U{200A}')
    || c == '\U{2028}' || c == '\U{2029}' || c == '\U{202F}' || c == '\U{205F}' || c == '\U{3000}'
  }

  const Whitespace: set<char> := set c: char | '\t' <= c <= '\U{3000}' && IsPySpace(c)

  /** The longest prefix of `s` holding no separator from `cs`. */
  function TakeWord(s: string, cs: set<char>): (w: string)
    ensures IsPrefix(w, s)
    ensures forall k :: 0 <= k < |w| ==> w[k] !in cs
    ensures |w| == |s| || s[|w|] in cs
  {
    if |s| == 0 || s[0] in cs then "" else [s[0]] + TakeWord(s[1..], cs)
  }

  /** The first token of `s` between separators from `cs`, or `None` when
      `s` holds only separators. */
  function FirstToken(s: string, cs: set<char>): (r: Option<string>)
    ensures r.None? <==> forall k :: 0 <= k < |s| ==> s[k] in cs
    ensures r.Some? ==> r.value != "" && forall k :: 0 <= k < |r.value| ==> r.value[k] !in cs
    ensures r.Some? ==> exists i :: OccursAt(s, r.value, i) && (forall k :: 0 <= k < i ==> s[k] in cs)
                                    && (i + |r.value| == |s| || s[i + |r.value|] in cs)
  {
    var t := StripLeft(s, cs);
    if t == "" then None
    else
      var w := TakeWord(t, cs);
      var i := |s| - |t|;
      assert s[i..i + |w|] == t[..|w|];
      assert OccursAt(s, w, i);
      assert i + |w| == |s| || s[i + |w|] == t[|w|];
      Some(w)
  }

  /** `s.split()[0]`: the first whitespace-separated token, or `None` where
      Python raises `IndexError` because `s` is blank. */
  function FirstWord(s: string): (r: Option<string>)
    ensures r.None? <==> forall k :: 0 <= k < |s| ==> s[k] in Whitespace
    ensures r.Some? ==> r.value != "" && forall k :: 0 <= k < |r.value| ==> r.value[k] !in Whitespace
    ensures r.Some? ==> exists i :: OccursAt(s, r.value, i) && (forall k :: 0 <= k < i ==> s[k] in Whitespace)
                                    && (i + |r.value| == |s| || s[i + |r.value|] in Whitespace)
  {
    FirstToken(s, Whitespace)
  }

  /** A token followed by nothing or by a separator is what `TakeWord`
      takes. */
  lemma {:induction false} TakeWordOf(w: string, rest: string, cs: set<char>)
    requires forall k :: 0 <= k < |w| ==> w[k] !in cs
    requires rest == "" || rest[0] in cs
    ensures TakeWord(w + rest, cs) == w
    decreases |w|
  {
    if w != "" {
      assert (w + rest)[1..] == w[1..] + rest;
      TakeWordOf(w[1..], rest, cs);
    }
  }

  /** A string opening with a token that ends at a separator or at the end
      has that token first. */
  lemma FirstTokenOf(w: string, rest: string, cs: set<char>)
    requires w != "" && forall k :: 0 <= k < |w| ==> w[k] !in cs
    requires rest == "" || rest[0] in cs
    ensures FirstToken(w + rest, cs) == Some(w)
  {
    StripLeftUnique(w + rest, cs, 0);
    TakeWordOf(w, rest, cs);
  }

  /** A string opening with a word that ends at whitespace or at the end
      splits with that word first. */
  lemma FirstWordOf(w: string, rest: string)
    requires w != "" && forall k :: 0 <= k < |w| ==> w[k] !in Whitespace
    requires rest == "" || rest[0] in Whitespace
    ensures FirstWord(w + rest) == Some(w)
  {
    FirstTokenOf(w, rest, Whitespace);
  }

  // ---------------------------------------------------------------------------
  // Decimal numerals

  predicate IsDigit(c: char) {
    '0' <= c <= '9'
  }

  function DigitChar(d: nat): (c: char)
    requires d < 10
    ensures IsDigit(c)
  {
    ('0' as int + d) as char
  }

  /** Python's `str(n)` and JavaScript's `${n}` for a non-negative integer. */
  function NatToString(n: nat): (r: string)
    ensures |r| >= 1
    ensures forall k :: 0 <= k < |r| ==> IsDigit(r[k])
    ensures (r[0] == '0') == (n == 0)
    decreases n
  {
    if n < 10 then [DigitChar(n)] else NatToString(n / 10) + [DigitChar(n % 10)]
  }

  /** The value of a string of decimal digits. */
  function DigitsValue(s: string): nat
    requires forall k :: 0 <= k < |s| ==> IsDigit(s[k])
  {
    if |s| == 0 then 0
    else
      assert IsDigit(s[|s| - 1]);
      DigitsValue(s[..|s| - 1]) * 10 + (s[|s| - 1] as int - '0' as int)
  }

  /** Reading the numeral back gives the number: the rendering loses nothing. */
  lemma {:induction false} NatToStringRoundTrip(n: nat)
    ensures DigitsValue(NatToString(n)) == n
    decreases n
  {
    if n >= 10 {
      NatToStringRoundTrip(n / 10);
      var r := NatToString(n);
      assert r[..|r| - 1] == NatToString(n / 10);
    }
  }

  /** Different numbers render differently. */
  lemma NatToStringInjective(a: nat, b: nat)
    ensures NatToString(a) == NatToString(b) ==> a == b
  {
    NatToStringRoundTrip(a);
    NatToStringRoundTrip(b);
  }

  /** The longest prefix of decimal digits. */
  function TakeDigits(s: string): (d: string)
    ensures forall k :: 0 <= k < |d| ==> IsDigit(d[k])
  {
    if s != [] && IsDigit(s[0]) then [s[0]] + TakeDigits(s[1..]) else []
  }

  /** A run of digits ended by a non-digit (or the end) is read back
      whole. */
  lemma {:induction false} TakeDigitsOf(d: string, t: string)
    requires forall k :: 0 <= k < |d| ==> IsDigit(d[k])
    requires t == [] || !IsDigit(t[0])
    ensures TakeDigits(d + t) == d
    decreases |d|
  {
    if d != [] {
      TakeDigitsOf(d[1..], t);
      assert (d + t)[1..] == d[1..] + t;
    } else {
      assert d + t == t;
    }
  }
}
