/** Small result types shared by every module of the model. */
module Wrappers {

  /** A value that may be missing (a Go nil pointer or interface). */
  datatype Option<+T> = None | Some(value: T)

  /** A value or a Go `error`, the error kept as its message. */
  datatype Result<+T> = Ok(value: T) | Err(msg: string)

  /** The outcome of a Go call that may `panic` instead of returning. */
  datatype Outcome<+T> = Panic(reason: string) | Done(value: T)

  /** The set of elements of a sequence. */
  function Elements<T>(s: seq<T>): (r: set<T>)
    ensures forall i :: 0 <= i < |s| ==> s[i] in r
    ensures forall x :: x in r ==> exists i :: 0 <= i < |s| && s[i] == x
  {
    set x | x in s
  }

  /** Concatenation is associative. */
  lemma SeqAssoc<T>(a: seq<T>, b: seq<T>, c: seq<T>)
    ensures a + (b + c) == (a + b) + c
  {
  }

  /** The elements of a prefix one longer. */
  lemma ElementsSnoc<T>(s: seq<T>, i: nat)
    requires i < |s|
    ensures Elements(s[..i + 1]) == Elements(s[..i]) + {s[i]}
  {
    assert s[..i + 1] == s[..i] + [s[i]];
  }

  /** Moving one pending key to the done set keeps `todo` the keys not yet done. */
  lemma PendingStep<K>(keys: set<K>, done: set<K>, todo: set<K>, k: K)
    requires done <= keys && todo == keys - done && k in todo
    ensures done + {k} <= keys && todo - {k} == keys - (done + {k})
  {
  }

  /** Nothing pending: every key is done. */
  lemma PendingDone<K>(keys: set<K>, done: set<K>, todo: set<K>)
    requires done <= keys && todo == keys - done && todo == {}
    ensures done == keys
  {
    forall k | k in keys
      ensures k in done
    {
      assert k !in todo;
    }
  }

  /** No element occurs twice. */
  ghost predicate Distinct<T>(s: seq<T>)
  {
    forall i, j :: 0 <= i < j < |s| ==> s[i] != s[j]
  }

  /** The entries of `m` whose keys are in `ks`. */
  function Restrict<K, V>(m: map<K, V>, ks: set<K>): (r: map<K, V>)
    ensures r.Keys == m.Keys * ks
  {
    map k | k in m && k in ks :: m[k]
  }

  /** Restricting to one more key of `m` adds exactly that entry. */
  lemma RestrictInsert<K, V>(m: map<K, V>, ks: set<K>, k: K)
    requires k in m
    ensures Restrict(m, ks + {k}) == Restrict(m, ks)[k := m[k]]
  {
  }

  /** Restricting to all of its keys gives the map back. */
  lemma RestrictAll<K, V>(m: map<K, V>, ks: set<K>)
    requires ks == m.Keys
    ensures Restrict(m, ks) == m
  {
  }
}
