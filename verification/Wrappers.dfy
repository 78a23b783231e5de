/** Option and Result values, and the two Python containers the models share. */
module Wrappers {
  datatype Option<+T> = None | Some(value: T)

  datatype Result<+T, +E> = Ok(value: T) | Err(error: E)

  /** A `dict` built from key/value pairs in order: a later pair replaces an earlier one. */
  function Dict<K, V>(pairs: seq<(K, V)>): (m: map<K, V>)
  {
    if pairs == [] then map[]
    else
      var last := pairs[|pairs| - 1];
      Dict(pairs[..|pairs| - 1])[last.0 := last.1]
  }

  ghost predicate DistinctKeys<K, V>(pairs: seq<(K, V)>) {
    forall i, j :: 0 <= i < j < |pairs| ==> pairs[i].0 != pairs[j].0
  }

  /** With distinct keys the dictionary holds exactly the pairs it was built from. */
  lemma {:induction false} DictOfDistinct<K, V>(pairs: seq<(K, V)>)
    requires DistinctKeys(pairs)
    ensures forall i :: 0 <= i < |pairs| ==> pairs[i].0 in Dict(pairs) && Dict(pairs)[pairs[i].0] == pairs[i].1
    ensures forall k :: k in Dict(pairs) ==> exists i :: 0 <= i < |pairs| && pairs[i].0 == k
  {
    if pairs != [] {
      var n := |pairs| - 1;
      var front := pairs[..n];
      assert forall i :: 0 <= i < n ==> front[i] == pairs[i];
      DictOfDistinct(front);
      forall k | k in Dict(pairs) ensures exists i :: 0 <= i < |pairs| && pairs[i].0 == k {
        if k == pairs[n].0 {
          assert pairs[n].0 == k;
        } else {
          assert k in Dict(front);
          var i :| 0 <= i < |front| && front[i].0 == k;
          assert pairs[i].0 == k;
        }
      }
    }
  }

  /** The value of a key is the value of its last pair. */
  lemma {:induction false} DictLastWins<K, V>(pairs: seq<(K, V)>, i: nat)
    requires i < |pairs|
    requires forall j :: i < j < |pairs| ==> pairs[j].0 != pairs[i].0
    ensures pairs[i].0 in Dict(pairs) && Dict(pairs)[pairs[i].0] == pairs[i].1
  {
    var n := |pairs| - 1;
    if i < n {
      assert pairs[..n][i] == pairs[i];
      DictLastWins(pairs[..n], i);
    }
  }

  /** The keys of a dictionary are the keys of its pairs. */
  lemma {:induction false} DictKeys<K, V>(pairs: seq<(K, V)>)
    ensures Dict(pairs).Keys == set i | 0 <= i < |pairs| :: pairs[i].0
  {
    if pairs != [] {
      var n := |pairs| - 1;
      DictKeys(pairs[..n]);
      assert (set i | 0 <= i < |pairs| :: pairs[i].0) == (set i | 0 <= i < n :: pairs[..n][i].0) + {pairs[n].0};
    }
  }
}
