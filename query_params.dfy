/**
  `URLSearchParams` as the client uses it: an ordered list of key/value
  pairs in which a key may repeat. `get` answers the first value of a key,
  `append` adds a pair at the end and `set` keeps one pair for the key, at
  the position of its first occurrence (or at the end), dropping the others.
  Percent-encoding is not modelled: keys and values are kept as given.
*/
module QueryParams {
  import opened Wrappers

  type Params = seq<(string, string)>

  /** A URL as the client builds it: the endpoint and its query pairs. */
  datatype Url = Url(path: string, query: Params)

  predicate HasKey(ps: Params, key: string)
  {
    exists i :: 0 <= i < |ps| && ps[i].0 == key
  }

  /** `params.get(key)`: the value of the first pair with that key, or `null`. */
  function Get(ps: Params, key: string): (r: Option<string>)
    ensures r.Some? <==> HasKey(ps, key)
    ensures r.Some? ==> exists i :: 0 <= i < |ps| && ps[i] == (key, r.value) && forall j :: 0 <= j < i ==> ps[j].0 != key
  {
    if |ps| == 0 then None
    else if ps[0].0 == key then
      assert ps[0] == (key, ps[0].1);
      Some(ps[0].1)
    else
      var r := Get(ps[1..], key);
      assert HasKey(ps, key) ==> HasKey(ps[1..], key) by {
        if HasKey(ps, key) {
          var i :| 0 <= i < |ps| && ps[i].0 == key;
          assert ps[1..][i - 1].0 == key;
        }
      }
      if r.Some? then
        var i :| 0 <= i < |ps[1..]| && ps[1..][i] == (key, r.value) && forall j :: 0 <= j < i ==> ps[1..][j].0 != key;
        assert ps[i + 1] == (key, r.value);
        assert forall j :: 0 <= j < i + 1 ==> ps[j].0 != key by {
          forall j | 0 <= j < i + 1 ensures ps[j].0 != key {
            if j > 0 { assert ps[j] == ps[1..][j - 1]; }
          }
        }
        r
      else
        r
  }

  /** Django's `QueryDict.get(key)`: the value of the last pair with that key, or `None`. */
  function GetLast(ps: Params, key: string): (r: Option<string>)
    ensures r.Some? <==> HasKey(ps, key)
    ensures r.Some? ==> exists i :: 0 <= i < |ps| && ps[i] == (key, r.value) && forall j :: i < j < |ps| ==> ps[j].0 != key
  {
    if |ps| == 0 then None
    else
      var n := |ps| - 1;
      if ps[n].0 == key then
        assert ps[n] == (key, ps[n].1);
        Some(ps[n].1)
      else
        var r := GetLast(ps[..n], key);
        assert HasKey(ps, key) ==> HasKey(ps[..n], key) by {
          if HasKey(ps, key) {
            var i :| 0 <= i < |ps| && ps[i].0 == key;
            assert ps[..n][i].0 == key;
          }
        }
        if r.Some? then
          var i :| 0 <= i < n && ps[..n][i] == (key, r.value) && forall j :: i < j < n ==> ps[..n][j].0 != key;
          assert ps[i] == (key, r.value);
          assert forall j :: i < j < |ps| ==> ps[j].0 != key by {
            forall j | i < j < |ps| ensures ps[j].0 != key {
              if j < n { assert ps[j] == ps[..n][j]; }
            }
          }
          r
        else
          r
  }

  /** With a key that occurs once, the client's `get` and the server's read agree. */
  lemma {:induction false} GetLastSingle(ps: Params, key: string)
    requires forall i, j :: 0 <= i < j < |ps| && ps[i].0 == key ==> ps[j].0 != key
    ensures GetLast(ps, key) == Get(ps, key)
  {
    if Get(ps, key).Some? {
      var a :| 0 <= a < |ps| && ps[a] == (key, Get(ps, key).value) && forall j :: 0 <= j < a ==> ps[j].0 != key;
      var b :| 0 <= b < |ps| && ps[b] == (key, GetLast(ps, key).value) && forall j :: b < j < |ps| ==> ps[j].0 != key;
      assert forall j :: a < j < |ps| ==> ps[j].0 != key;
      assert b == a;
    }
  }

  /** `params.append(key, value)`. */
  function Append(ps: Params, key: string, value: string): (r: Params)
    ensures |r| == |ps| + 1 && r[..|ps|] == ps && r[|ps|] == (key, value)
  {
    ps + [(key, value)]
  }

  /** The pairs whose key is not `key`, in their order. */
  function Without(ps: Params, key: string): (r: Params)
    ensures !HasKey(r, key)
    ensures |r| <= |ps|
  {
    if |ps| == 0 then []
    else if ps[0].0 == key then Without(ps[1..], key)
    else
      var rest := Without(ps[1..], key);
      assert forall i :: 1 <= i < |[ps[0]] + rest| ==> ([ps[0]] + rest)[i] == rest[i - 1];
      [ps[0]] + rest
  }

  /** `set` once the key is known to occur: the first occurrence takes the value, later ones go. */
  function Replace(ps: Params, key: string, value: string): Params
  {
    if |ps| == 0 then []
    else if ps[0].0 == key then [(key, value)] + Without(ps[1..], key)
    else [ps[0]] + Replace(ps[1..], key, value)
  }

  /** `params.set(key, value)`. */
  function Set(ps: Params, key: string, value: string): Params
  {
    if HasKey(ps, key) then Replace(ps, key, value) else Append(ps, key, value)
  }

  /** Reading a key of which every pair is gone finds nothing; reading any other key is unaffected. */
  lemma {:induction false} GetWithout(ps: Params, key: string, other: string)
    requires other != key
    ensures Get(Without(ps, key), other) == Get(ps, other)
  {
    if |ps| > 0 {
      GetWithout(ps[1..], key, other);
      if ps[0].0 != key {
        assert ([ps[0]] + Without(ps[1..], key))[1..] == Without(ps[1..], key);
      }
    }
  }

  /** Removing a key that does not occur changes nothing. */
  lemma {:induction false} WithoutAbsent(ps: Params, key: string)
    requires !HasKey(ps, key)
    ensures Without(ps, key) == ps
  {
    if |ps| > 0 {
      assert forall i :: 0 <= i < |ps[1..]| ==> ps[1..][i] == ps[i + 1];
      assert ps[0].0 != key;
      WithoutAbsent(ps[1..], key);
    }
  }

  lemma {:induction false} ReplaceProperties(ps: Params, key: string, value: string, other: string)
    requires HasKey(ps, key) && other != key
    ensures Get(Replace(ps, key, value), key) == Some(value)
    ensures Get(Replace(ps, key, value), other) == Get(ps, other)
    ensures Without(Replace(ps, key, value), key) == Without(ps, key)
  {
    if ps[0].0 == key {
      var r := [(key, value)] + Without(ps[1..], key);
      assert r[1..] == Without(ps[1..], key);
      GetWithout(ps[1..], key, other);
      WithoutAbsent(Without(ps[1..], key), key);
    } else {
      assert HasKey(ps[1..], key) by {
        var i :| 0 <= i < |ps| && ps[i].0 == key;
        assert ps[1..][i - 1].0 == key;
      }
      ReplaceProperties(ps[1..], key, value, other);
      var r := [ps[0]] + Replace(ps[1..], key, value);
      assert r[1..] == Replace(ps[1..], key, value);
    }
  }

  lemma {:induction false} GetAppended(ps: Params, key: string, value: string, other: string)
    ensures !HasKey(ps, key) ==> Get(Append(ps, key, value), key) == Some(value)
    ensures other != key ==> Get(Append(ps, key, value), other) == Get(ps, other)
  {
    if |ps| > 0 {
      assert Append(ps, key, value)[1..] == Append(ps[1..], key, value);
      assert forall i :: 0 <= i < |ps[1..]| ==> ps[1..][i] == ps[i + 1];
      GetAppended(ps[1..], key, value, other);
    }
  }

  lemma {:induction false} WithoutAppended(ps: Params, key: string, value: string)
    ensures Without(Append(ps, key, value), key) == Without(ps, key)
  {
    if |ps| == 0 {
      assert Append(ps, key, value) == [(key, value)];
      assert Without([(key, value)], key) == Without([(key, value)][1..], key);
    } else {
      assert Append(ps, key, value)[1..] == Append(ps[1..], key, value);
      WithoutAppended(ps[1..], key, value);
    }
  }

  /** After `set`, `get` answers the new value, every other key reads as before and the
      pairs of other keys keep their order. */
  lemma SetProperties(ps: Params, key: string, value: string, other: string)
    requires other != key
    ensures Get(Set(ps, key, value), key) == Some(value)
    ensures Get(Set(ps, key, value), other) == Get(ps, other)
    ensures Without(Set(ps, key, value), key) == Without(ps, key)
  {
    if HasKey(ps, key) {
      ReplaceProperties(ps, key, value, other);
    } else {
      GetAppended(ps, key, value, other);
      WithoutAppended(ps, key, value);
    }
  }
}
