/** The parts of the Kotlin standard library whose behaviour the screens depend on:
    UTF-16 strings with trim/isBlank/take/takeLast, 32- and 64-bit integers with
    Long.toInt(), and the collection operations take, maxOfOrNull and the stable
    sortedByDescending. `Filter` is not a library call of the screens: it is the shape of
    the store's selecting queries (`whereEqualTo`, and `orderBy` dropping documents that
    lack the ordering field). */
module Kotlin {

  datatype Option<+T> = None | Some(value: T) {
    /** `x ?: default` */
    function GetOr(default: T): T {
      match this
      case Some(v) => v
      case None => default
    }
  }

  datatype Result<+R, +E> = Ok(value: R) | Err(error: E)

  // ---------------------------------------------------------------- integers

  /** Kotlin Int */
  type Int32 = x: int | -0x8000_0000 <= x < 0x8000_0000
  /** Kotlin Long */
  type Int64 = x: int | -0x8000_0000_0000_0000 <= x < 0x8000_0000_0000_0000

  /** Long.toInt(): keeps the low 32 bits, read as a two's-complement Int. */
  function LongToInt(x: Int64): (r: Int32)
    ensures (x - r) % 0x1_0000_0000 == 0
    ensures -0x8000_0000 <= x < 0x8000_0000 ==> r == x
  {
    var m := x % 0x1_0000_0000;
    if m < 0x8000_0000 then m else m - 0x1_0000_0000
  }

  // ----------------------------------------------------------------- strings

  /** A UTF-16 code unit: a Kotlin Char. */
  type CodeUnit = x: int | 0 <= x < 0x1_0000
  /** A Kotlin String: `length`, `take` and `takeLast` count UTF-16 code units. */
  type KString = seq<CodeUnit>

  /** The UTF-16 form of a text whose characters all lie in the Basic Multilingual Plane
      (used for the literals the screens compare with or display). */
  function Utf16(s: string): (r: KString)
    requires forall i | 0 <= i < |s| :: s[i] as int < 0x1_0000
    ensures |r| == |s|
    ensures forall i | 0 <= i < |s| :: r[i] == s[i] as int
  {
    seq(|s|, i requires 0 <= i < |s| => s[i] as int)
  }

  /** Char.isWhitespace() on the JVM: Java's isWhitespace or isSpaceChar, i.e. the
      controls TAB..CR and FS..US, and the space, line and paragraph separators. */
  predicate IsWhitespace(c: CodeUnit) {
    || 0x09 <= c <= 0x0D
    || 0x1C <= c <= 0x20
    || c == 0xA0
    || c == 0x1680
    || 0x2000 <= c <= 0x200A
    || c == 0x2028
    || c == 0x2029
    || c == 0x202F
    || c == 0x205F
    || c == 0x3000
  }

  /** String.isBlank(): empty or whitespace only. */
  predicate IsBlank(s: KString): (blank: bool)
    ensures blank <==> TrimStart(s) == []
  {
    forall i | 0 <= i < |s| :: IsWhitespace(s[i])
  }

  /** Drops the leading whitespace: the result is a suffix of `s`. */
  function TrimStart(s: KString): (r: KString)
    ensures |r| <= |s| && r == s[|s| - |r|..]
    ensures forall i | 0 <= i < |s| - |r| :: IsWhitespace(s[i])
    ensures r != [] ==> !IsWhitespace(r[0])
  {
    if s != [] && IsWhitespace(s[0]) then TrimStart(s[1..]) else s
  }

  /** Drops the trailing whitespace: the result is a prefix of `s`. */
  function TrimEnd(s: KString): (r: KString)
    ensures |r| <= |s| && r == s[..|r|]
    ensures forall i | |r| <= i < |s| :: IsWhitespace(s[i])
    ensures r != [] ==> !IsWhitespace(r[|r| - 1])
  {
    if s != [] && IsWhitespace(s[|s| - 1]) then TrimEnd(s[..|s| - 1]) else s
  }

  /** String.trim(): drops leading and trailing whitespace. */
  function Trim(s: KString): (r: KString)
    ensures |r| <= |s|
    ensures r != [] ==> !IsWhitespace(r[0]) && !IsWhitespace(r[|r| - 1])
  {
    TrimEnd(TrimStart(s))
  }

  /** `s.trim().isEmpty()` holds exactly when `s.isBlank()`. */
  lemma TrimEmptyIffBlank(s: KString)
    ensures Trim(s) == [] <==> IsBlank(s)
  {
    var t := TrimStart(s);
    if Trim(s) == [] {
      assert t == [];
    } else {
      var r := Trim(s);
      assert r[0] == t[0] == s[|s| - |t|];
    }
  }

  /** Where the trimmed text starts in `s`: the length of the leading whitespace. */
  function TrimOffset(s: KString): nat {
    |s| - |TrimStart(s)|
  }

  /** The trimmed text is the slice of `s` between a whitespace prefix and a whitespace suffix. */
  lemma TrimIsSlice(s: KString)
    ensures TrimOffset(s) + |Trim(s)| <= |s|
    ensures Trim(s) == s[TrimOffset(s)..TrimOffset(s) + |Trim(s)|]
    ensures forall k | 0 <= k < TrimOffset(s) :: IsWhitespace(s[k])
    ensures forall k | TrimOffset(s) + |Trim(s)| <= k < |s| :: IsWhitespace(s[k])
  {
    var t := TrimStart(s);
    var i := TrimOffset(s);
    var r := Trim(s);
    assert t == s[i..];
    assert r == t[..|r|];
    assert t[..|r|] == s[i..i + |r|];
    AllOfSuffix(s, i, |r|, IsWhitespace);
  }

  /** What holds from position `lo` of the suffix `s[i..]` holds from position `i + lo` of `s`. */
  lemma AllOfSuffix<T>(s: seq<T>, i: nat, lo: nat, p: T -> bool)
    requires i + lo <= |s|
    requires forall k | lo <= k < |s[i..]| :: p(s[i..][k])
    ensures forall k | i + lo <= k < |s| :: p(s[k])
  {
    forall k | i + lo <= k < |s| ensures p(s[k]) {
      assert s[k] == s[i..][k - i];
    }
  }

  /** Trimming twice changes nothing more. */
  lemma TrimIdempotent(s: KString)
    ensures Trim(Trim(s)) == Trim(s)
  {
    var r := Trim(s);
    assert TrimStart(r) == r;
    assert TrimEnd(r) == r;
  }

  /** String.take(n) and List.take(n): the first `n` elements, or all of them. */
  function Take<T>(xs: seq<T>, n: nat): (r: seq<T>)
    ensures |r| == if |xs| <= n then |xs| else n
    ensures r == xs[..|r|]
  {
    if |xs| <= n then xs else xs[..n]
  }

  /** String.takeLast(n): the last `n` elements, or all of them. */
  function TakeLast<T>(xs: seq<T>, n: nat): (r: seq<T>)
    ensures |r| == if |xs| <= n then |xs| else n
    ensures r == xs[|xs| - |r|..]
  {
    if |xs| <= n then xs else xs[|xs| - n..]
  }

  // ------------------------------------------------------------- collections

  /** The elements of `xs` satisfying `p`, in their order: the shape of a store query that
      selects documents, such as `whereEqualTo`, or `orderBy` dropping documents that lack
      the ordering field. */
  function Filter<T>(xs: seq<T>, p: T -> bool): (r: seq<T>)
    ensures |r| <= |xs|
    ensures forall i | 0 <= i < |r| :: p(r[i])
  {
    if xs == [] then [] else (if p(xs[0]) then [xs[0]] else []) + Filter(xs[1..], p)
  }

  lemma {:induction false} FilterAppend<T>(a: seq<T>, b: seq<T>, p: T -> bool)
    ensures Filter(a + b, p) == Filter(a, p) + Filter(b, p)
  {
    if a == [] {
      assert a + b == b;
    } else {
      var head := if p(a[0]) then [a[0]] else [];
      assert (a + b)[0] == a[0] && (a + b)[1..] == a[1..] + b;
      assert Filter(a + b, p) == head + Filter(a[1..] + b, p);
      FilterAppend(a[1..], b, p);
      assert Filter(a, p) == head + Filter(a[1..], p);
    }
  }

  /** What filter keeps: every element satisfying `p`, as often as it occurs, and nothing else. */
  lemma {:induction false} FilterCounts<T>(xs: seq<T>, p: T -> bool, x: T)
    ensures multiset(Filter(xs, p))[x] == if p(x) then multiset(xs)[x] else 0
  {
    if xs != [] {
      FilterCounts(xs[1..], p, x);
      assert xs == [xs[0]] + xs[1..];
    }
  }

  /** Iterable.maxOfOrNull(f): null for no elements, otherwise the largest `f` value. */
  function MaxOfOrNull<T>(xs: seq<T>, f: T -> int): (r: Option<int>)
    ensures r == None <==> xs == []
    ensures r.Some? ==> exists i | 0 <= i < |xs| :: r.value == f(xs[i])
    ensures r.Some? ==> forall i | 0 <= i < |xs| :: f(xs[i]) <= r.value
  {
    if xs == [] then None
    else
      match MaxOfOrNull(xs[1..], f)
      case None => Some(f(xs[0]))
      case Some(m) => Some(if m < f(xs[0]) then f(xs[0]) else m)
  }

  /** Only the values matter: a sequence with the same elements has the same maximum. */
  lemma {:induction false} MaxOfOrNullMonotone<T>(xs: seq<T>, ys: seq<T>, f: T -> int)
    requires multiset(xs) <= multiset(ys) && xs != []
    ensures MaxOfOrNull(xs, f).value <= MaxOfOrNull(ys, f).value
  {
    var i :| 0 <= i < |xs| && MaxOfOrNull(xs, f).value == f(xs[i]);
    assert xs[i] in multiset(ys);
    var j :| 0 <= j < |ys| && ys[j] == xs[i];
  }

  // ---------------------------------------------------------------- sorting

  /** `xs` is ordered by `key`, largest first. */
  ghost predicate NonIncreasing<T>(xs: seq<T>, key: T -> int) {
    forall i, j | 0 <= i < j < |xs| :: key(xs[i]) >= key(xs[j])
  }

  /** The elements whose key is `k`. */
  function HasKey<T>(key: T -> int, k: int): T -> bool {
    x => key(x) == k
  }

  /** Inserts `x` before the first element whose key is not larger than its own. */
  function InsertDesc<T>(x: T, ys: seq<T>, key: T -> int): (r: seq<T>)
    ensures |r| == |ys| + 1
  {
    if ys == [] || key(x) >= key(ys[0]) then [x] + ys
    else [ys[0]] + InsertDesc(x, ys[1..], key)
  }

  /** Iterable.sortedByDescending(key): Kotlin's sort is stable, so elements with equal
      keys keep their input order (an insertion sort with that property). */
  function SortedByDescending<T>(xs: seq<T>, key: T -> int): (r: seq<T>)
    ensures |r| == |xs|
  {
    if xs == [] then [] else InsertDesc(xs[0], SortedByDescending(xs[1..], key), key)
  }

  lemma {:induction false} InsertDescPermutes<T>(x: T, ys: seq<T>, key: T -> int)
    ensures multiset(InsertDesc(x, ys, key)) == multiset(ys) + multiset{x}
  {
    if ys != [] && key(x) < key(ys[0]) {
      InsertDescPermutes(x, ys[1..], key);
      assert ys == [ys[0]] + ys[1..];
    }
  }

  lemma {:induction false} InsertDescOrdered<T>(x: T, ys: seq<T>, key: T -> int)
    requires NonIncreasing(ys, key)
    ensures NonIncreasing(InsertDesc(x, ys, key), key)
  {
    if ys != [] && key(x) < key(ys[0]) {
      var rest := InsertDesc(x, ys[1..], key);
      InsertDescOrdered(x, ys[1..], key);
      InsertDescPermutes(x, ys[1..], key);
      forall j | 0 <= j < |rest| ensures key(ys[0]) >= key(rest[j]) {
        assert rest[j] in multiset(ys[1..]) + multiset{x};
        if rest[j] != x {
          var m :| 0 <= m < |ys[1..]| && ys[1..][m] == rest[j];
          assert ys[m + 1] == rest[j];
        }
      }
    }
  }

  lemma {:induction false} InsertDescStable<T>(x: T, ys: seq<T>, key: T -> int, k: int)
    ensures Filter(InsertDesc(x, ys, key), HasKey(key, k))
         == Filter([x], HasKey(key, k)) + Filter(ys, HasKey(key, k))
  {
    var p := HasKey(key, k);
    if ys == [] || key(x) >= key(ys[0]) {
      FilterAppend([x], ys, p);
    } else {
      var rest := InsertDesc(x, ys[1..], key);
      InsertDescStable(x, ys[1..], key, k);
      FilterAppend([ys[0]], rest, p);
      FilterAppend([ys[0]], ys[1..], p);
      assert ys == [ys[0]] + ys[1..];
      // ys[0] outranks x, so at most one of them has key k and the two may swap.
      assert Filter([x], p) == [] || Filter([ys[0]], p) == [];
    }
  }

  /** The sorted list holds exactly the input elements. */
  lemma {:induction false} SortedByDescendingPermutes<T>(xs: seq<T>, key: T -> int)
    ensures multiset(SortedByDescending(xs, key)) == multiset(xs)
  {
    if xs != [] {
      SortedByDescendingPermutes(xs[1..], key);
      InsertDescPermutes(xs[0], SortedByDescending(xs[1..], key), key);
      assert xs == [xs[0]] + xs[1..];
    }
  }

  /** The sorted list is ordered by key, largest first. */
  lemma {:induction false} SortedByDescendingOrdered<T>(xs: seq<T>, key: T -> int)
    ensures NonIncreasing(SortedByDescending(xs, key), key)
  {
    if xs != [] {
      SortedByDescendingOrdered(xs[1..], key);
      InsertDescOrdered(xs[0], SortedByDescending(xs[1..], key), key);
    }
  }

  /** Stability: for every key, the elements with that key appear in input order. */
  lemma {:induction false} SortedByDescendingStable<T>(xs: seq<T>, key: T -> int, k: int)
    ensures Filter(SortedByDescending(xs, key), HasKey(key, k)) == Filter(xs, HasKey(key, k))
  {
    if xs != [] {
      var p := HasKey(key, k);
      SortedByDescendingStable(xs[1..], key, k);
      InsertDescStable(xs[0], SortedByDescending(xs[1..], key), key, k);
      FilterAppend([xs[0]], xs[1..], p);
      assert xs == [xs[0]] + xs[1..];
    }
  }

  /** A list sorted largest-first and cut after `n` elements holds the `n` largest:
      no element left out has a larger key than any element kept. */
  /** A take keeps elements of the list only, each at most as often as it occurs. */
  lemma TakeIsSubMultiset<T>(xs: seq<T>, n: nat)
    ensures multiset(Take(xs, n)) <= multiset(xs)
  {
    assert xs == Take(xs, n) + xs[|Take(xs, n)|..];
  }

  lemma TakeOfSortedIsTop<T>(xs: seq<T>, key: T -> int, n: nat, x: T)
    requires x in xs && x !in Take(SortedByDescending(xs, key), n)
    ensures forall i | 0 <= i < |Take(SortedByDescending(xs, key), n)| ::
      key(Take(SortedByDescending(xs, key), n)[i]) >= key(x)
  {
    var s := SortedByDescending(xs, key);
    SortedByDescendingPermutes(xs, key);
    SortedByDescendingOrdered(xs, key);
    assert x in multiset(s);
    var j :| 0 <= j < |s| && s[j] == x;
    assert j >= |Take(s, n)|;
  }
}
