/**
 * The bounded "already seen" sets of the reconciliation loops: a JavaScript
 * `Set` of transaction ids keeps insertion order, ignores a second `add` of the
 * same id, and is cut back to its newest `Cap` entries by
 * `new Set(Array.from(set).slice(-Cap))`.
 */
module SeenSet {

  /** The cap every seen-set uses (SOL_PROCESSED_CAP and the literal 1000 of the monitors). */
  const Cap: nat := 1000

  predicate NoDup<T(==)>(s: seq<T>) {
    forall i, j :: 0 <= i < j < |s| ==> s[i] != s[j]
  }

  /** `set.add(x)`. */
  function Add<T(==)>(s: seq<T>, x: T): (r: seq<T>)
    ensures (set y | y in r) == (set y | y in s) + {x}
    ensures NoDup(s) ==> NoDup(r)
    ensures |s| <= |r| <= |s| + 1 && r[..|s|] == s
  {
    if x in s then s else s + [x]
  }

  /** Adding every id of `xs` in order, as the seeding loop of a first check does. */
  function AddAll<T(==,!new)>(s: seq<T>, xs: seq<T>): (r: seq<T>)
    ensures NoDup(s) ==> NoDup(r)
    ensures forall y :: y in r <==> y in s || y in xs
    ensures |s| <= |r| <= |s| + |xs| && r[..|s|] == s
    decreases |xs|
  {
    if xs == [] then s else Add(AddAll(s, xs[..|xs| - 1]), xs[|xs| - 1])
  }

  /** The newest `cap` entries (the whole set when it is not over the cap). */
  function Newest<T(==)>(s: seq<T>, cap: nat): (r: seq<T>)
    ensures |r| == if |s| <= cap then |s| else cap
    ensures r == s[|s| - |r|..]
    ensures NoDup(s) ==> NoDup(r)
  {
    if |s| > cap then s[|s| - cap..] else s
  }

  /** An id that survives trimming is kept, and every id dropped is older than every id kept. */
  lemma NewestDropsOnlyOlder<T>(s: seq<T>, cap: nat, i: nat, j: nat)
    requires NoDup(s) && i < j < |s| && s[i] in Newest(s, cap)
    ensures s[j] in Newest(s, cap)
  {
    var r := Newest(s, cap);
    var k :| 0 <= k < |r| && r[k] == s[i];
    assert r[k] == s[|s| - |r| + k];
    assert |s| - |r| + k == i;
    assert r[j - (|s| - |r|)] == s[j];
  }
}
