/** The handful of Python string operations the instrument code relies on, as total functions. */
module Text {
  import opened Outcomes

  function Min(a: int, b: int): int { if a <= b then a else b }

  /** `needle` sits in `hay` starting at index `i`. */
  ghost predicate OccursAt<T>(hay: seq<T>, needle: seq<T>, i: int) {
    0 <= i && i + |needle| <= |hay| && hay[i..i + |needle|] == needle
  }

  /** Left-to-right search for the first occurrence (Python's `str.find`, None for -1). */
  function IndexOf<T(==)>(hay: seq<T>, needle: seq<T>): (r: Option<nat>)
    ensures r.Some? ==> OccursAt(hay, needle, r.value)
    ensures r.Some? ==> forall j :: 0 <= j < r.value ==> !OccursAt(hay, needle, j)
    ensures r.None? ==> forall j :: !OccursAt(hay, needle, j)
    decreases |hay|
  {
    if |needle| > |hay| then None
    else if hay[..|needle|] == needle then Some(0)
    else
      var tail := IndexOf(hay[1..], needle);
      assert !OccursAt(hay, needle, 0);
      assert forall j :: 1 <= j ==> (OccursAt(hay, needle, j) <==> OccursAt(hay[1..], needle, j - 1)) by {
        forall j | 1 <= j
          ensures OccursAt(hay, needle, j) <==> OccursAt(hay[1..], needle, j - 1)
        {
          if j + |needle| <= |hay| {
            assert hay[1..][j - 1..j - 1 + |needle|] == hay[j..j + |needle|];
          }
        }
      }
      match tail
      case None => None
      case Some(i) => Some(i + 1)
  }

  /** Python's `needle in hay`. */
  function Contains<T(==)>(hay: seq<T>, needle: seq<T>): (r: bool)
    ensures r <==> exists i :: OccursAt(hay, needle, i)
  {
    IndexOf(hay, needle).Some?
  }

  /** Python's `s.startswith(prefix)`. */
  predicate StartsWith<T(==)>(s: seq<T>, prefix: seq<T>) {
    |prefix| <= |s| && s[..|prefix|] == prefix
  }

  /** Python's `s[:n]` for n >= 0. */
  function Take<T>(s: seq<T>, n: nat): (r: seq<T>)
    ensures |r| == Min(n, |s|) && r == s[..|r|]
  {
    if n <= |s| then s[..n] else s
  }

  /** Lower-casing of one character, ASCII letters only. */
  function LowerChar(c: char): char {
    if 'A' <= c <= 'Z' then (c as int + 32) as char else c
  }

  function UpperChar(c: char): char {
    if 'a' <= c <= 'z' then (c as int - 32) as char else c
  }

  /** Python's `s.lower()`, one character at a time. */
  function Lower(s: string): (r: string)
    ensures |r| == |s| && forall i :: 0 <= i < |s| ==> r[i] == LowerChar(s[i])
  {
    if s == [] then [] else [LowerChar(s[0])] + Lower(s[1..])
  }

  /** Python's `s.upper()`, one character at a time. */
  function Upper(s: string): (r: string)
    ensures |r| == |s| && forall i :: 0 <= i < |s| ==> r[i] == UpperChar(s[i])
  {
    if s == [] then [] else [UpperChar(s[0])] + Upper(s[1..])
  }

  /** Lowering forgets case entirely: lowering an upper-cased string lowers the original. */
  lemma LowerUpper(s: string)
    ensures Lower(Upper(s)) == Lower(s)
  {
    var a, b := Lower(Upper(s)), Lower(s);
    forall i | 0 <= i < |s| ensures a[i] == b[i] {
      var c := s[i];
      if 'a' <= c <= 'z' {
        assert UpperChar(c) as int == c as int - 32;
      }
    }
  }

  /** Python's `s.replace(old, new)` where both are single characters. */
  function ReplaceChar(s: string, from: char, to: char): (r: string)
    ensures |r| == |s|
    ensures forall i :: 0 <= i < |s| ==> r[i] == (if s[i] == from then to else s[i])
  {
    if s == [] then [] else [if s[0] == from then to else s[0]] + ReplaceChar(s[1..], from, to)
  }

  /** The characters for which Python's `str.isspace()` holds, i.e. what `str.strip()` removes. */
  predicate IsSpace(c: char) {
    || ('\U{9}' <= c <= '\U{D}') || ('\U{1C}' <= c <= ' ')
    || c == '\U{85}' || c == '\U{A0}' || c == '\U{1680}'
    || ('\U{2000}' <= c <= '\U{200A}') || c == '\U{2028}' || c == '\U{2029}'
    || c == '\U{202F}' || c == '\U{205F}' || c == '\U{3000}'
  }

  /** Index of the first element at or after `lo` that `skip` does not hold of (or `|s|`). */
  function SkipWhile<T>(s: seq<T>, skip: T -> bool, lo: nat): (i: nat)
    requires lo <= |s|
    ensures lo <= i <= |s| && (i < |s| ==> !skip(s[i]))
    ensures forall k :: lo <= k < i ==> skip(s[k])
    decreases |s| - lo
  {
    if lo < |s| && skip(s[lo]) then SkipWhile(s, skip, lo + 1) else lo
  }

  /** One past the last element before `hi` that `skip` does not hold of (but not below `lo`). */
  function SkipBackWhile<T>(s: seq<T>, skip: T -> bool, lo: nat, hi: nat): (j: nat)
    requires lo <= hi <= |s|
    ensures lo <= j <= hi && (lo < j ==> !skip(s[j - 1]))
    ensures forall k :: j <= k < hi ==> skip(s[k])
    decreases hi
  {
    if lo < hi && skip(s[hi - 1]) then SkipBackWhile(s, skip, lo, hi - 1) else hi
  }

  /** `r` is `s[i..j]`, and everything before `i` and from `j` on is of the kind `skip` picks out. */
  ghost predicate Trimmed<T>(s: seq<T>, skip: T -> bool, r: seq<T>, i: int, j: int) {
    && 0 <= i <= j <= |s| && r == s[i..j]
    && (forall k :: 0 <= k < i ==> skip(s[k]))
    && (forall k :: j <= k < |s| ==> skip(s[k]))
  }

  /** `s` without its leading and trailing elements of the kind `skip` picks out. */
  function StripWith<T>(s: seq<T>, skip: T -> bool): (r: seq<T>)
    ensures exists i, j :: Trimmed(s, skip, r, i, j)
    ensures r != [] ==> !skip(r[0]) && !skip(r[|r| - 1])
    ensures |s| > 0 && !skip(s[0]) && !skip(s[|s| - 1]) ==> r == s
  {
    var i := SkipWhile(s, skip, 0);
    var j := SkipBackWhile(s, skip, i, |s|);
    assert Trimmed(s, skip, s[i..j], i, j);
    s[i..j]
  }

  /** Python's `s.strip()`. */
  function Strip(s: string): (r: string)
    ensures exists i, j :: Trimmed(s, IsSpace, r, i, j)
    ensures r != [] ==> !IsSpace(r[0]) && !IsSpace(r[|r| - 1])
  {
    StripWith(s, IsSpace)
  }

  /** Python's `s.split(sep)` for a non-empty separator: cut at each occurrence, left to right. */
  function Split(s: string, sep: string): (parts: seq<string>)
    requires sep != []
    ensures parts != []
    decreases |s|
  {
    match IndexOf(s, sep)
    case None => [s]
    case Some(i) => [s[..i]] + Split(s[i + |sep|..], sep)
  }

  /** Python's `sep.join(parts)`. */
  function Join(parts: seq<string>, sep: string): string
    requires parts != []
  {
    if |parts| == 1 then parts[0] else parts[0] + sep + Join(parts[1..], sep)
  }

  /** Splitting loses nothing: joining the pieces with the separator gives back the string. */
  lemma {:induction false} JoinSplit(s: string, sep: string)
    requires sep != []
    ensures Join(Split(s, sep), sep) == s
    decreases |s|
  {
    match IndexOf(s, sep)
    case None =>
    case Some(i) =>
      var rest := s[i + |sep|..];
      JoinSplit(rest, sep);
      assert s[i..i + |sep|] == sep;
      assert s == s[..i] + sep + rest;
  }

  /** No piece produced by the split contains the separator. */
  lemma {:induction false} SplitPiecesFree(s: string, sep: string)
    requires sep != []
    ensures forall k :: 0 <= k < |Split(s, sep)| ==> !Contains(Split(s, sep)[k], sep)
    decreases |s|
  {
    match IndexOf(s, sep)
    case None =>
    case Some(i) =>
      var rest := s[i + |sep|..];
      SplitPiecesFree(rest, sep);
      var head := s[..i];
      forall j | OccursAt(head, sep, j) ensures false {
        assert head[j..j + |sep|] == s[j..j + |sep|];
        assert OccursAt(s, sep, j);
      }
      assert Split(s, sep) == [head] + Split(rest, sep);
  }

  /** A slice that lies within the left operand of a concatenation is a slice of that operand. */
  lemma SliceLeft<T>(a: seq<T>, b: seq<T>, i: int, j: int)
    requires 0 <= i <= j <= |a|
    ensures (a + b)[i..j] == a[i..j]
  {
  }

  /** A string that contains the separator splits into at least two pieces. */
  lemma SplitHasTwo(s: string, sep: string)
    requires sep != [] && Contains(s, sep)
    ensures |Split(s, sep)| >= 2
  {
  }

  /**
   * The first piece of a split is the longest prefix before the first separator: the string
   * starts with it, and it is either the whole string or followed by the separator.
   */
  lemma SplitFirst(s: string, sep: string)
    requires sep != []
    ensures var p := Split(s, sep)[0];
      StartsWith(s, p) && !Contains(p, sep) && (p == s || OccursAt(s, sep, |p|))
  {
    SplitPiecesFree(s, sep);
  }

  /** The decimal digit character of a value below ten. */
  function DigitChar(d: nat): char
    requires d < 10
  {
    ('0' as int + d) as char
  }

  /** Python's `str(n)` for a natural number. */
  function NatToString(n: nat): (r: string)
    ensures r != [] && forall k :: 0 <= k < |r| ==> '0' <= r[k] <= '9'
    ensures |r| > 1 ==> r[0] != '0'
  {
    if n < 10 then [DigitChar(n)] else NatToString(n / 10) + [DigitChar(n % 10)]
  }

  /** The value of a string of decimal digits, most significant first. */
  function DecimalValue(s: string): nat
    requires forall k :: 0 <= k < |s| ==> '0' <= s[k] <= '9'
  {
    if s == [] then 0 else 10 * DecimalValue(s[..|s| - 1]) + (s[|s| - 1] as int - '0' as int)
  }

  /** Reading back what `str(n)` writes gives `n`. */
  lemma {:induction false} NatToStringRoundTrip(n: nat)
    ensures DecimalValue(NatToString(n)) == n
  {
    if n >= 10 {
      NatToStringRoundTrip(n / 10);
      var r := NatToString(n);
      assert r[..|r| - 1] == NatToString(n / 10);
    }
  }

  /** Concatenation is associative (stated once, so that callers need not re-derive it). */
  lemma AppendAssoc<T>(a: seq<T>, b: seq<T>, c: seq<T>)
    ensures a + b + c == a + (b + c)
  {
  }

  /** Python's `[x for x in s if keep(x)]`. */
  function Filter<T(!new)>(s: seq<T>, keep: T -> bool): (r: seq<T>)
    ensures |r| <= |s|
    ensures forall x :: x in r <==> x in s && keep(x)
  {
    if s == [] then [] else (if keep(s[0]) then [s[0]] else []) + Filter(s[1..], keep)
  }

  /** Filtering works piece by piece, so it keeps the original order. */
  lemma {:induction false} FilterAppend<T(!new)>(a: seq<T>, b: seq<T>, keep: T -> bool)
    ensures Filter(a + b, keep) == Filter(a, keep) + Filter(b, keep)
    decreases |a|
  {
    if a == [] {
      assert a + b == b;
    } else {
      assert (a + b)[0] == a[0];
      assert (a + b)[1..] == a[1..] + b;
      FilterAppend(a[1..], b, keep);
    }
  }

  /** Filtering a list extended by one element. */
  lemma FilterSnoc<T(!new)>(s: seq<T>, x: T, keep: T -> bool)
    ensures Filter(s + [x], keep) == Filter(s, keep) + (if keep(x) then [x] else [])
  {
    FilterAppend(s, [x], keep);
    assert [x][1..] == [];
  }

  /** How many elements of `s` satisfy `keep`; Python's `sum(1 for x in s if keep(x))`. */
  function CountWhere<T>(s: seq<T>, keep: T -> bool): nat {
    if s == [] then 0 else (if keep(s[0]) then 1 else 0) + CountWhere(s[1..], keep)
  }

  /** Counting the kept elements is taking the length of the filtered list. */
  lemma {:induction false} CountIsFilterLength<T(!new)>(s: seq<T>, keep: T -> bool)
    ensures CountWhere(s, keep) == |Filter(s, keep)|
    decreases |s|
  {
    if s != [] {
      CountIsFilterLength(s[1..], keep);
    }
  }

  /**
   * Python's `posixpath.join(folder, name)`. For a relative name the path starts with the
   * folder and ends with the name; between them at most one character is added, a '/', and
   * in a non-empty folder the name always follows a '/'.
   */
  function JoinPath(folder: string, name: string): (r: string)
    ensures name != [] && name[0] != '/' ==>
              && |folder| + |name| <= |r| <= |folder| + |name| + 1
              && r[..|folder|] == folder
              && r[|r| - |name|..] == name
              && (|r| > |folder| + |name| ==> r[|folder|] == '/')
              && (folder != [] ==> r[|r| - |name| - 1] == '/')
  {
    if name != [] && name[0] == '/' then name
    else if folder == [] || folder[|folder| - 1] == '/' then folder + name
    else folder + "/" + name
  }

  /** Python's `posixpath.basename(path)`: everything after the last '/'. */
  function Basename(path: string): (r: string)
    ensures '/' !in r && |r| <= |path|
  {
    if path == [] || path[|path| - 1] == '/' then []
    else Basename(path[..|path| - 1]) + [path[|path| - 1]]
  }

  /** A file name without '/' is what basename gives back from the joined path. */
  lemma BasenameJoinPath(folder: string, name: string)
    requires name != [] && forall k :: 0 <= k < |name| ==> name[k] != '/'
    ensures Basename(JoinPath(folder, name)) == name
  {
    var dir := if folder == [] || folder[|folder| - 1] == '/' then folder else folder + "/";
    assert dir == [] || dir[|dir| - 1] == '/';
    BasenameAfterSlash(dir, name);
  }

  lemma {:induction false} BasenameAfterSlash(dir: string, name: string)
    requires dir == [] || dir[|dir| - 1] == '/'
    requires forall k :: 0 <= k < |name| ==> name[k] != '/'
    ensures Basename(dir + name) == name
    decreases |name|
  {
    if name == [] {
      assert dir + name == dir;
    } else {
      var p := dir + name;
      var last, init := name[|name| - 1], name[..|name| - 1];
      assert p[..|p| - 1] == dir + init;
      assert p[|p| - 1] == last;
      BasenameAfterSlash(dir, init);
      assert init + [last] == name;
    }
  }
}
