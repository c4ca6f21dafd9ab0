/** Facts about a lookup table (a dictionary literal) read against the list of
    options a form widget offers and the list of codes those options stand for,
    position by position. */
module Tables {

  /** The position of the first occurrence of `x` in `s`. */
  function Position<T(==)>(s: seq<T>, x: T): (i: nat)
    requires x in s
    ensures i < |s| && s[i] == x
    ensures forall j :: 0 <= j < i ==> s[j] != x
  {
    if s[0] == x then 0 else 1 + Position(s[1..], x)
  }

  /** No element occurs twice. */
  predicate Distinct<T(==)>(s: seq<T>) {
    forall i, j :: 0 <= i < j < |s| ==> s[i] != s[j]
  }

  /** Distinct keys have distinct values: the table loses no information. */
  predicate Injective<K, V(==)>(m: map<K, V>) {
    forall x, y :: x in m && y in m && x != y ==> m[x] != m[y]
  }

  /** The keys of `m` are exactly the `options`, and the option at position `i`
      maps to the code at position `i`. */
  predicate Tabulates<K, V(==)>(m: map<K, V>, options: seq<K>, codes: seq<V>) {
    && |codes| == |options|
    && (forall k :: k in m ==> k in options)
    && (forall i :: 0 <= i < |options| ==> options[i] in m && m[options[i]] == codes[i])
  }

  /** The ordinal scale `base, base + 1, ..., base + n - 1`. */
  function Scale(base: int, n: nat): (s: seq<int>)
    ensures |s| == n
    ensures forall i :: 0 <= i < n ==> s[i] == base + i
  {
    if n == 0 then [] else Scale(base, n - 1) + [base + n - 1]
  }

  /** Listing the options in order lists their codes in strictly increasing order. */
  predicate StrictlyIncreasing<K>(m: map<K, int>, options: seq<K>)
    requires forall i :: 0 <= i < |options| ==> options[i] in m
  {
    forall i, j :: 0 <= i < j < |options| ==> m[options[i]] < m[options[j]]
  }

  /** A lookup succeeds exactly on the offered options, and yields the code
      listed at the position of the option. */
  lemma TabulatedLookup<K, V>(m: map<K, V>, options: seq<K>, codes: seq<V>, x: K)
    requires Tabulates(m, options, codes)
    ensures x in m <==> x in options
    ensures x in options ==> m[x] == codes[Position(options, x)]
  {
    if x in options {
      var i := Position(options, x);
      assert options[i] == x;
    }
  }

  /** Over distinct codes, two options listed with the same code are the same option. */
  lemma CodeDeterminesOption<K, V>(codes: seq<V>, options: seq<K>, x: K, y: K)
    requires x in options && y in options && |codes| == |options| && Distinct(codes)
    requires codes[Position(options, x)] == codes[Position(options, y)]
    ensures x == y
  {
  }

  /** A table that tabulates distinct codes is injective. */
  lemma TabulatedInjective<K, V>(m: map<K, V>, options: seq<K>, codes: seq<V>)
    requires Tabulates(m, options, codes)
    requires Distinct(codes)
    ensures Injective(m)
  {
    forall x, y | x in m && y in m && x != y
      ensures m[x] != m[y]
    {
      TabulatedLookup(m, options, codes, x);
      TabulatedLookup(m, options, codes, y);
      var i, j := Position(options, x), Position(options, y);
      assert i != j;
      if i < j {
        assert codes[i] != codes[j];
      } else {
        assert codes[j] != codes[i];
      }
    }
  }

  /** A table that tabulates an ordinal scale orders the options as they are listed. */
  lemma OrdinalIncreasing<K>(m: map<K, int>, options: seq<K>, base: int)
    requires Tabulates(m, options, Scale(base, |options|))
    ensures StrictlyIncreasing(m, options)
  {
    var codes := Scale(base, |options|);
    forall i, j | 0 <= i < j < |options|
      ensures m[options[i]] < m[options[j]]
    {
      assert m[options[i]] == codes[i] == base + i;
      assert m[options[j]] == codes[j] == base + j;
    }
  }

  /** The codes of an ordinal scale are distinct. */
  lemma ScaleDistinct(base: int, n: nat)
    ensures Distinct(Scale(base, n))
  {
  }

  /** A sequence with no repeated element has as many distinct elements as it is long. */
  lemma {:induction false} DistinctCardinality<T>(s: seq<T>)
    requires Distinct(s)
    ensures |set x | x in s| == |s|
  {
    if s != [] {
      DistinctCardinality(s[1..]);
      assert (set x | x in s) == (set x | x in s[1..]) + {s[0]};
      assert s[0] !in (set x | x in s[1..]);
    }
  }
}
