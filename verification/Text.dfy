/** The string operations of Go's `strings`, `unicode` and `sort` packages that the
    configuration parser, the registry and the listing tool rely on. A string is a
    sequence of code points, so code-point order is Go's byte order on valid UTF-8. */
module Text {

  datatype Option<+T> = None | Some(value: T)

  datatype Result<+T, +E> = Success(value: T) | Failure(error: E)

  // ----- trimming -----

  /** unicode.IsSpace */
  predicate IsSpace(c: char) {
    || '\t' <= c <= '\r' || c == ' ' || c == '\U{85}' || c == '\U{A0}' || c == '\U{1680}'
    || '\U{2000}' <= c <= '\U{200A}' || c == '\U{2028}' || c == '\U{2029}' || c == '\U{202F}'
    || c == '\U{205F}' || c == '\U{3000}'
  }

  predicate AllSpace(s: string) {
    forall c | c in s :: IsSpace(c)
  }

  predicate Trimmed(s: string) {
    s != "" ==> !IsSpace(s[0]) && !IsSpace(s[|s| - 1])
  }

  function TrimLeft(s: string): string {
    if s != "" && IsSpace(s[0]) then TrimLeft(s[1..]) else s
  }

  function TrimRight(s: string): string {
    if s != "" && IsSpace(s[|s| - 1]) then TrimRight(s[..|s| - 1]) else s
  }

  /** strings.TrimSpace */
  function Trim(s: string): string {
    TrimRight(TrimLeft(s))
  }

  lemma {:induction false} TrimLeftResult(s: string)
    ensures TrimLeft(s) != "" ==> !IsSpace(TrimLeft(s)[0])
    ensures forall c | c in TrimLeft(s) :: c in s
  {
    if s != "" && IsSpace(s[0]) {
      TrimLeftResult(s[1..]);
    }
  }

  lemma {:induction false} TrimRightResult(s: string)
    ensures TrimRight(s) != "" ==> !IsSpace(TrimRight(s)[|TrimRight(s)| - 1]) && TrimRight(s)[0] == s[0]
    ensures forall c | c in TrimRight(s) :: c in s
    ensures s == "" ==> TrimRight(s) == ""
  {
    if s != "" && IsSpace(s[|s| - 1]) {
      TrimRightResult(s[..|s| - 1]);
    }
  }

  /** A trimmed string has no padding and invents no characters. */
  lemma TrimResult(s: string)
    ensures Trimmed(Trim(s))
    ensures forall c | c in Trim(s) :: c in s
  {
    TrimLeftResult(s);
    TrimRightResult(TrimLeft(s));
  }

  lemma {:induction false} TrimLeftPadded(left: string, t: string)
    requires AllSpace(left) && (t != "" ==> !IsSpace(t[0]))
    ensures TrimLeft(left + t) == t
  {
    if left == "" {
      assert left + t == t;
    } else {
      assert (left + t)[1..] == left[1..] + t;
      TrimLeftPadded(left[1..], t);
    }
  }

  lemma {:induction false} TrimRightPadded(t: string, right: string)
    requires AllSpace(right) && (t != "" ==> !IsSpace(t[|t| - 1]))
    ensures TrimRight(t + right) == t
  {
    if right == "" {
      assert t + right == t;
    } else {
      var n := |right| - 1;
      assert (t + right)[..|t| + n] == t + right[..n];
      TrimRightPadded(t, right[..n]);
    }
  }

  /** Padding on either side of a trimmed core is exactly what Trim removes. */
  lemma TrimPadded(left: string, core: string, right: string)
    requires AllSpace(left) && AllSpace(right) && Trimmed(core)
    ensures Trim(left + core + right) == core
  {
    if core == "" {
      assert left + core + right == left + right + "";
      TrimLeftPadded(left + right, "");
    } else {
      assert left + core + right == left + (core + right);
      TrimLeftPadded(left, core + right);
      TrimRightPadded(core, right);
    }
  }

  lemma {:induction false} TrimLeftSplits(s: string) returns (left: string)
    ensures AllSpace(left) && s == left + TrimLeft(s)
  {
    if s == "" || !IsSpace(s[0]) {
      left := "";
    } else {
      var rest := TrimLeftSplits(s[1..]);
      left := [s[0]] + rest;
      assert s == [s[0]] + s[1..] == [s[0]] + (rest + TrimLeft(s));
    }
  }

  lemma {:induction false} TrimRightSplits(s: string) returns (right: string)
    ensures AllSpace(right) && s == TrimRight(s) + right
  {
    if s == "" || !IsSpace(s[|s| - 1]) {
      right := "";
    } else {
      var rest := TrimRightSplits(s[..|s| - 1]);
      right := rest + [s[|s| - 1]];
      assert s == s[..|s| - 1] + [s[|s| - 1]];
    }
  }

  /** What Trim removes is padding and nothing else. */
  lemma TrimSplits(s: string) returns (left: string, right: string)
    ensures AllSpace(left) && AllSpace(right) && s == left + Trim(s) + right
  {
    left := TrimLeftSplits(s);
    right := TrimRightSplits(TrimLeft(s));
    assert left + (Trim(s) + right) == left + Trim(s) + right;
  }

  lemma TrimIgnoresPadding(left: string, s: string, right: string)
    requires AllSpace(left) && AllSpace(right)
    ensures Trim(left + s + right) == Trim(s)
  {
    var a, b := TrimSplits(s);
    TrimResult(s);
    assert left + s + right == (left + a) + Trim(s) + (b + right);
    TrimPadded(left + a, Trim(s), b + right);
  }

  lemma TrimmedAway(s: string)
    ensures Trim(s) == "" <==> AllSpace(s)
  {
    if AllSpace(s) {
      assert s + "" + "" == s;
      TrimPadded(s, "", "");
    } else {
      var left, right := TrimSplits(s);
      assert Trim(s) == "" ==> s == left + right;
    }
  }

  // ----- splitting -----

  function Index(s: string, c: char): (i: nat)
    requires c in s
    ensures i < |s| && s[i] == c && c !in s[..i]
  {
    if s[0] == c then 0 else
      var i := 1 + Index(s[1..], c);
      assert s[..i] == [s[0]] + s[1..][..i - 1];
      i
  }

  lemma {:induction false} IndexAt(a: string, c: char, b: string)
    requires c !in a
    ensures c in a + [c] + b
    ensures Index(a + [c] + b, c) == |a|
  {
    var s := a + [c] + b;
    assert s[|a|] == c;
    if a == "" {
    } else {
      assert a[0] in a;
      assert s[1..] == a[1..] + [c] + b;
      IndexAt(a[1..], c, b);
    }
  }

  /** strings.Join with a one-character separator */
  function Join(pieces: seq<string>, sep: char): string
    requires |pieces| >= 1
  {
    if |pieces| == 1 then pieces[0] else pieces[0] + [sep] + Join(pieces[1..], sep)
  }

  /** strings.Split by a one-character separator */
  function Split(s: string, sep: char): (pieces: seq<string>)
    ensures |pieces| >= 1
    ensures forall p | p in pieces :: sep !in p
    ensures Join(pieces, sep) == s
    decreases |s|
  {
    if sep !in s then [s] else
      var i := Index(s, sep);
      var rest := Split(s[i + 1..], sep);
      assert ([s[..i]] + rest)[1..] == rest;
      [s[..i]] + rest
  }

  lemma SplitCons(piece: string, sep: char, rest: string)
    requires sep !in piece
    ensures Split(piece + [sep] + rest, sep) == [piece] + Split(rest, sep)
  {
    var s := piece + [sep] + rest;
    IndexAt(piece, sep, rest);
    assert s[..|piece|] == piece && s[|piece| + 1..] == rest;
  }

  /** Splitting undoes joining whenever no piece contains the separator. */
  lemma {:induction false} SplitJoin(pieces: seq<string>, sep: char)
    requires |pieces| >= 1
    requires forall i | 0 <= i < |pieces| :: sep !in pieces[i]
    ensures Split(Join(pieces, sep), sep) == pieces
  {
    if |pieces| == 1 {
    } else {
      SplitCons(pieces[0], sep, Join(pieces[1..], sep));
      SplitJoin(pieces[1..], sep);
    }
  }

  function TrimAll(pieces: seq<string>): (r: seq<string>)
    ensures |r| == |pieces|
    ensures forall i | 0 <= i < |r| :: r[i] == Trim(pieces[i])
  {
    if pieces == [] then [] else [Trim(pieces[0])] + TrimAll(pieces[1..])
  }

  function SplitTrimmed(s: string, sep: char): (r: seq<string>)
    ensures |r| == |Split(s, sep)|
    ensures forall i | 0 <= i < |r| :: r[i] == Trim(Split(s, sep)[i])
  {
    TrimAll(Split(s, sep))
  }

  /** strings.Split followed by strings.TrimSpace on every element, written back in
      place as the configuration code does for its list-valued settings. */
  method SplitTrim(s: string, sep: char) returns (r: seq<string>)
    ensures r == SplitTrimmed(s, sep)
  {
    var pieces := Split(s, sep);
    var a := new string[|pieces|];
    forall i | 0 <= i < |pieces| {
      a[i] := pieces[i];
    }
    for i := 0 to a.Length
      invariant forall j | 0 <= j < i :: a[j] == Trim(pieces[j])
      invariant forall j | i <= j < a.Length :: a[j] == pieces[j]
    {
      a[i] := Trim(a[i]);
    }
    r := a[..];
  }

  // ----- order and sorting -----

  predicate LexLe(a: string, b: string) {
    a == "" || (b != "" && (a[0] < b[0] || (a[0] == b[0] && LexLe(a[1..], b[1..]))))
  }

  lemma {:induction false} LexTotal(a: string, b: string)
    ensures LexLe(a, b) || LexLe(b, a)
  {
    if a != "" && b != "" && a[0] == b[0] {
      LexTotal(a[1..], b[1..]);
    }
  }

  lemma {:induction false} LexAntisymmetric(a: string, b: string)
    requires LexLe(a, b) && LexLe(b, a)
    ensures a == b
  {
    if a == "" {
    } else {
      LexAntisymmetric(a[1..], b[1..]);
      assert a == [a[0]] + a[1..] && b == [b[0]] + b[1..];
    }
  }

  lemma {:induction false} LexTransitive(a: string, b: string, c: string)
    requires LexLe(a, b) && LexLe(b, c)
    ensures LexLe(a, c)
  {
    if a != "" && a[0] == b[0] && b[0] == c[0] {
      LexTransitive(a[1..], b[1..], c[1..]);
    }
  }

  /** The order is lexicographic: a prefix comes first, otherwise the first different character decides. */
  lemma {:induction false} LexExact(a: string, b: string)
    ensures LexLe(a, b) <==>
              || a <= b
              || exists i | 0 <= i < |a| && i < |b| :: a[..i] == b[..i] && a[i] < b[i]
  {
    if a == "" || b == "" {
    } else if a[0] != b[0] {
      assert a[..0] == b[..0];
      assert forall i | 0 < i < |a| && i < |b| :: a[..i][0] == a[0] && b[..i][0] == b[0];
    } else {
      LexExact(a[1..], b[1..]);
      assert a == [a[0]] + a[1..] && b == [b[0]] + b[1..];
      assert a <= b <==> a[1..] <= b[1..];
      if i :| 0 <= i < |a[1..]| && i < |b[1..]| && a[1..][..i] == b[1..][..i] && a[1..][i] < b[1..][i] {
        assert a[..i + 1] == [a[0]] + a[1..][..i] && b[..i + 1] == [b[0]] + b[1..][..i];
        assert a[i + 1] < b[i + 1];
      }
      if i :| 0 <= i < |a| && i < |b| && a[..i] == b[..i] && a[i] < b[i] {
        assert a[1..][..i - 1] == a[..i][1..] && b[1..][..i - 1] == b[..i][1..];
        assert a[1..][i - 1] < b[1..][i - 1];
      }
    }
  }

  ghost predicate Sorted(s: seq<string>) {
    forall i, j | 0 <= i < j < |s| :: LexLe(s[i], s[j])
  }

  ghost predicate Distinct<T(!new)>(s: seq<T>) {
    forall i, j | 0 <= i < j < |s| :: s[i] != s[j]
  }

  ghost function Elements<T(!new)>(s: seq<T>): (r: set<T>)
    ensures forall x :: x in r <==> x in s
  {
    set x | x in s
  }

  function Insert(x: string, s: seq<string>): seq<string> {
    if s == [] || LexLe(x, s[0]) then [x] + s else [s[0]] + Insert(x, s[1..])
  }

  lemma {:induction false} InsertCounts(x: string, s: seq<string>)
    ensures multiset(Insert(x, s)) == multiset(s) + multiset{x}
  {
    if s != [] && !LexLe(x, s[0]) {
      assert s == [s[0]] + s[1..];
      InsertCounts(x, s[1..]);
    }
  }

  lemma {:induction false} InsertKeeps(x: string, s: seq<string>)
    requires Sorted(s)
    ensures Sorted(Insert(x, s))
  {
    if s == [] {
    } else if LexLe(x, s[0]) {
      forall j | 0 < j < |s| ensures LexLe(x, s[j]) {
        LexTransitive(x, s[0], s[j]);
      }
    } else {
      InsertKeeps(x, s[1..]);
      InsertCounts(x, s[1..]);
      LexTotal(x, s[0]);
      var t := Insert(x, s[1..]);
      forall j | 0 <= j < |t| ensures LexLe(s[0], t[j]) {
        assert t[j] in multiset(t);
        assert t[j] == x || t[j] in s[1..];
      }
    }
  }

  /** sort.Strings */
  function Sort(s: seq<string>): (r: seq<string>)
    ensures Sorted(r)
    ensures multiset(r) == multiset(s)
  {
    if s == [] then [] else
      assert s == [s[0]] + s[1..];
      InsertKeeps(s[0], Sort(s[1..]));
      InsertCounts(s[0], Sort(s[1..]));
      Insert(s[0], Sort(s[1..]))
  }

  ghost predicate IsLeast(m: string, s: set<string>) {
    m in s && forall x | x in s :: LexLe(m, x)
  }

  lemma LeastOfTwo(m: string, n: string, s: set<string>)
    requires m in s && IsLeast(n, s - {m})
    ensures IsLeast(if LexLe(m, n) then m else n, s)
  {
    LexTotal(m, n);
    LexTotal(m, m);
    if LexLe(m, n) {
      forall x | x in s - {m} ensures LexLe(m, x) {
        LexTransitive(m, n, x);
      }
    }
  }

  lemma {:induction false} LeastExists(s: set<string>)
    requires s != {}
    ensures exists m :: IsLeast(m, s)
  {
    var m :| m in s;
    if s == {m} {
      LexTotal(m, m);
      assert IsLeast(m, s);
    } else {
      LeastExists(s - {m});
      var n :| IsLeast(n, s - {m});
      LeastOfTwo(m, n, s);
    }
  }

  ghost function Prepend(m: string, rest: seq<string>): (r: seq<string>)
    requires Sorted(rest) && Distinct(rest)
    requires forall x | x in rest :: LexLe(m, x) && m != x
    ensures r == [m] + rest && Sorted(r) && Distinct(r)
    ensures Elements(r) == Elements(rest) + {m}
  {
    [m] + rest
  }

  /** The elements of a set in increasing order: what sorting the keys of a Go map
      must give whatever order the map was iterated in. */
  ghost function InOrder(s: set<string>): (r: seq<string>)
    ensures Sorted(r) && Distinct(r)
    ensures Elements(r) == s
  {
    if s == {} then [] else
      LeastExists(s);
      var m :| IsLeast(m, s);
      Prepend(m, InOrder(s - {m}))
  }

  lemma {:induction false} SortedUnique(a: seq<string>, b: seq<string>)
    requires Sorted(a) && Distinct(a) && Sorted(b) && Distinct(b)
    requires Elements(a) == Elements(b)
    ensures a == b
  {
    if a == [] {
      assert forall i | 0 <= i < |b| :: b[i] in Elements(b);
    } else {
      assert a[0] in Elements(b);
      assert b[0] in Elements(a);
      assert LexLe(a[0], b[0]) by {
        LexTotal(a[0], a[0]);
        var j :| 0 <= j < |a| && a[j] == b[0];
      }
      assert LexLe(b[0], a[0]) by {
        LexTotal(b[0], b[0]);
        var j :| 0 <= j < |b| && b[j] == a[0];
      }
      LexAntisymmetric(a[0], b[0]);
      forall x ensures x in Elements(a[1..]) <==> x in Elements(b[1..]) {
        assert a == [a[0]] + a[1..] && b == [b[0]] + b[1..];
        assert x in a[1..] <==> x in Elements(a) && x != a[0];
        assert x in b[1..] <==> x in Elements(b) && x != b[0];
      }
      SortedUnique(a[1..], b[1..]);
      assert a == [a[0]] + a[1..] && b == [b[0]] + b[1..];
    }
  }

  lemma {:induction false} DistinctCounts<T(!new)>(s: seq<T>, x: T)
    requires Distinct(s)
    ensures multiset(s)[x] <= 1
  {
    if s == [] {
    } else {
      assert s == [s[0]] + s[1..];
      DistinctCounts(s[1..], x);
      if x == s[0] {
        assert x !in s[1..];
      }
    }
  }

  lemma DistinctByCount<T(!new)>(s: seq<T>, t: seq<T>)
    requires Distinct(s) && multiset(s) == multiset(t)
    ensures Distinct(t) && Elements(t) == Elements(s)
  {
    forall x ensures x in s <==> x in t {
      assert x in multiset(s) <==> x in multiset(t);
    }
    forall i, j | 0 <= i < j < |t| ensures t[i] != t[j] {
      if t[i] == t[j] {
        assert t == t[..i] + [t[i]] + t[i + 1..j] + [t[j]] + t[j + 1..];
        assert multiset(t)[t[i]] >= 2;
        DistinctCounts(s, t[i]);
      }
    }
  }

  /** Sorting any enumeration of a set gives the same sequence. */
  lemma SortEnumeration(s: seq<string>)
    requires Distinct(s)
    ensures Sort(s) == InOrder(Elements(s))
  {
    DistinctByCount(s, Sort(s));
    SortedUnique(Sort(s), InOrder(Elements(s)));
  }

  /** Collecting the keys of a map in whatever order it iterates, then sorting them. */
  method SortedKeys(keys: set<string>) returns (ids: seq<string>)
    ensures ids == InOrder(keys)
  {
    ids := [];
    var left := keys;
    while left != {}
      invariant left <= keys
      invariant Distinct(ids) && Elements(ids) == keys - left
      decreases left
    {
      var id :| id in left;
      assert id !in Elements(ids);
      ids := ids + [id];
      left := left - {id};
    }
    assert Elements(ids) == keys;
    SortEnumeration(ids);
    ids := Sort(ids);
  }
}
