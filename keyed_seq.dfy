/**
 * Sequences searched by an integer key: `findIndex` by id, `some` by id, and the
 * toggle idiom "splice out the first element with this id, or push the new one".
 */
module KeyedSeq {
  import opened Wrappers

  /** Some element of `s` has key `k` (the model of `s.some(x => key(x) === k)`). */
  predicate HasKey<T>(s: seq<T>, k: int, key: T -> int) {
    exists i :: 0 <= i < |s| && key(s[i]) == k
  }

  /** No two elements of `s` share a key. */
  predicate DistinctKeys<T>(s: seq<T>, key: T -> int) {
    forall i, j :: 0 <= i < j < |s| ==> key(s[i]) != key(s[j])
  }

  /** The index of the first element with key `k` (the model of `findIndex`, with `None` for -1). */
  function FindIndex<T>(s: seq<T>, k: int, key: T -> int): (r: Option<nat>)
    ensures r.Some? ==> r.value < |s| && key(s[r.value]) == k
    ensures r.Some? ==> forall j :: 0 <= j < r.value ==> key(s[j]) != k
    ensures r.None? <==> !HasKey(s, k, key)
    decreases |s|
  {
    if |s| == 0 then None
    else if key(s[0]) == k then Some(0)
    else match FindIndex(s[1..], k, key)
      case None => (assert forall j :: 1 <= j < |s| ==> s[j] == s[1..][j - 1]; None)
      case Some(i) => Some(i + 1)
  }

  /** Removes the first element with the key of `x` if there is one, and appends `x` otherwise. */
  function Toggle<T>(s: seq<T>, x: T, key: T -> int): (r: seq<T>)
    ensures HasKey(s, key(x), key) ==> |r| == |s| - 1
    ensures !HasKey(s, key(x), key) ==> |r| == |s| + 1 && r[..|s|] == s && r[|s|] == x
  {
    match FindIndex(s, key(x), key)
    case Some(i) => s[..i] + s[i + 1..]
    case None => s + [x]
  }

  /** Toggling an absent key appends exactly that element; toggling a present one removes exactly one element, the first with that key. */
  lemma ToggleShape<T>(s: seq<T>, x: T, key: T -> int)
    ensures !HasKey(s, key(x), key) ==> Toggle(s, x, key) == s + [x]
    ensures HasKey(s, key(x), key) ==>
              exists i :: 0 <= i < |s| && key(s[i]) == key(x) &&
                          (forall j :: 0 <= j < i ==> key(s[j]) != key(x)) &&
                          Toggle(s, x, key) == s[..i] + s[i + 1..]
  {
    var f := FindIndex(s, key(x), key);
    if f.Some? {
      assert key(s[f.value]) == key(x);
    }
  }

  /** On a sequence with distinct keys, toggling flips membership of the key of `x`, leaves every other key's membership as it was, and keeps the keys distinct. */
  lemma ToggleFlips<T>(s: seq<T>, x: T, key: T -> int)
    requires DistinctKeys(s, key)
    ensures HasKey(Toggle(s, x, key), key(x), key) <==> !HasKey(s, key(x), key)
    ensures forall k :: k != key(x) ==> (HasKey(Toggle(s, x, key), k, key) <==> HasKey(s, k, key))
    ensures DistinctKeys(Toggle(s, x, key), key)
  {
    var t := Toggle(s, x, key);
    match FindIndex(s, key(x), key)
    case None =>
      assert t == s + [x];
      assert t[|s|] == x;
      forall k | k != key(x) ensures HasKey(t, k, key) <==> HasKey(s, k, key) {
        if HasKey(s, k, key) {
          var i :| 0 <= i < |s| && key(s[i]) == k;
          assert t[i] == s[i];
        }
        if HasKey(t, k, key) {
          var i :| 0 <= i < |t| && key(t[i]) == k;
          assert i < |s| && s[i] == t[i];
        }
      }
    case Some(i) =>
      assert t == s[..i] + s[i + 1..];
      assert |t| == |s| - 1;
      assert forall j :: 0 <= j < |t| ==> t[j] == if j < i then s[j] else s[j + 1];
      forall k | k != key(x) ensures HasKey(t, k, key) <==> HasKey(s, k, key) {
        if HasKey(s, k, key) {
          var m :| 0 <= m < |s| && key(s[m]) == k;
          assert m != i;
          if m < i { assert t[m] == s[m]; } else { assert t[m - 1] == s[m]; }
        }
      }
  }

  /** Toggling an absent element twice restores the exact sequence. */
  lemma ToggleTwiceAbsent<T>(s: seq<T>, x: T, key: T -> int)
    requires !HasKey(s, key(x), key)
    ensures Toggle(Toggle(s, x, key), x, key) == s
  {
    var t := s + [x];
    assert Toggle(s, x, key) == t;
    var f := FindIndex(t, key(x), key);
    assert t[|s|] == x;
    assert f.Some?;
    assert f.value == |s|;
    assert t[..|s|] == s;
  }

  /** On distinct keys, toggling any element twice restores which keys are present. */
  lemma ToggleTwiceKeys<T>(s: seq<T>, x: T, key: T -> int)
    requires DistinctKeys(s, key)
    ensures forall k :: HasKey(Toggle(Toggle(s, x, key), x, key), k, key) <==> HasKey(s, k, key)
  {
    ToggleFlips(s, x, key);
    ToggleFlips(Toggle(s, x, key), x, key);
  }
}
