/**
 * The query part of a URL, as `URLSearchParams` sees it (WHATWG URL Standard,
 * section 6.2, "URLSearchParams class"): an ordered list of name-value pairs
 * in which a name may occur more than once.
 */
module Query {
  import opened Wrappers

  /** One name-value pair of a query, in the order it appears. */
  datatype Param = Param(name: string, value: string)

  /**
   * A URL reduced to what the application reads: everything before the query
   * (scheme, host, path) kept as one opaque string, and the query's pairs.
   */
  datatype Url = Url(location: string, query: seq<Param>)

  /** `get(name)`: the value of the first pair called `name`, or None (null). */
  function GetParam(q: seq<Param>, name: string): (r: Option<string>)
    ensures r.None? <==> forall i :: 0 <= i < |q| ==> q[i].name != name
    ensures r.Some? ==> exists i :: 0 <= i < |q| && q[i] == Param(name, r.value) && IsFirst(q, name, i)
  {
    if q == [] then None
    else if q[0].name == name then
      assert IsFirst(q, name, 0);
      Some(q[0].value)
    else
      var r := GetParam(q[1..], name);
      assert r.Some? ==> exists i :: 0 <= i < |q| && q[i] == Param(name, r.value) && IsFirst(q, name, i) by {
        if r.Some? {
          var i :| 0 <= i < |q| - 1 && q[1..][i] == Param(name, r.value) && IsFirst(q[1..], name, i);
          assert q[i + 1] == Param(name, r.value) && IsFirst(q, name, i + 1);
        }
      }
      r
  }

  /** Index `i` holds the first pair called `name`. */
  ghost predicate IsFirst(q: seq<Param>, name: string, i: int)
  {
    0 <= i < |q| && q[i].name == name && forall j :: 0 <= j < i ==> q[j].name != name
  }

  /** The pairs not called `name`, in their order. */
  function Without(q: seq<Param>, name: string): (r: seq<Param>)
    ensures forall i :: 0 <= i < |r| ==> r[i].name != name
    ensures forall p :: p in r <==> p in q && p.name != name
  {
    if q == [] then []
    else if q[0].name == name then Without(q[1..], name)
    else [q[0]] + Without(q[1..], name)
  }

  /** Replaces the value of the first pair called `name` and drops the later ones. */
  function ReplaceFirst(q: seq<Param>, name: string, value: string): seq<Param>
  {
    if q == [] then []
    else if q[0].name == name then [Param(name, value)] + Without(q[1..], name)
    else [q[0]] + ReplaceFirst(q[1..], name, value)
  }

  /**
   * `set(name, value)`: if a pair called `name` exists, the first one gets
   * `value` and the others are removed; otherwise the pair is appended.
   */
  function SetParam(q: seq<Param>, name: string, value: string): (r: seq<Param>)
    ensures GetParam(q, name).None? ==> r == q + [Param(name, value)]
  {
    if GetParam(q, name).Some? then ReplaceFirst(q, name, value) else q + [Param(name, value)]
  }

  /** `ReplaceFirst` puts the new pair where the first pair called `name` stood. */
  lemma {:induction false} ReplaceFirstAt(q: seq<Param>, name: string, value: string, i: int)
    requires IsFirst(q, name, i)
    ensures ReplaceFirst(q, name, value) == q[..i] + [Param(name, value)] + Without(q[i + 1..], name)
    decreases i
  {
    if i > 0 {
      assert IsFirst(q[1..], name, i - 1);
      ReplaceFirstAt(q[1..], name, value, i - 1);
      assert q[1..][..i - 1] == q[1..i] && q[1..][i - 1 + 1..] == q[i + 1..];
      assert q[..i] == [q[0]] + q[1..i];
    }
  }

  /**
   * `set` in place: when index `i` holds the first pair called `name`, the
   * new pair stands at `i`, the pairs before it stay, and the later pairs
   * called `name` are dropped.
   */
  lemma SetInPlace(q: seq<Param>, name: string, value: string, i: int)
    requires IsFirst(q, name, i)
    ensures SetParam(q, name, value) == q[..i] + [Param(name, value)] + Without(q[i + 1..], name)
  {
    assert GetParam(q, name).Some?;
    ReplaceFirstAt(q, name, value, i);
  }

  /** `Without` of a list with no pair called `name` is that list. */
  lemma {:induction false} WithoutAbsent(q: seq<Param>, name: string)
    requires forall i :: 0 <= i < |q| ==> q[i].name != name
    ensures Without(q, name) == q
  {
    if q != [] {
      WithoutAbsent(q[1..], name);
    }
  }

  /** Removing pairs called `name` does not change what `get` answers for any other name. */
  lemma {:induction false} GetWithout(q: seq<Param>, name: string, other: string)
    requires other != name
    ensures GetParam(Without(q, name), other) == GetParam(q, other)
  {
    if q != [] {
      GetWithout(q[1..], name, other);
      if q[0].name != name {
        assert Without(q, name) == [q[0]] + Without(q[1..], name);
        assert ([q[0]] + Without(q[1..], name))[1..] == Without(q[1..], name);
      }
    }
  }

  /** Removing the pairs called `name` twice is removing them once. */
  lemma {:induction false} WithoutIdempotent(q: seq<Param>, name: string)
    ensures Without(Without(q, name), name) == Without(q, name)
  {
    WithoutAbsent(Without(q, name), name);
  }

  /** What is left of `ReplaceFirst` once the pairs called `name` are removed. */
  lemma {:induction false} ReplaceFirstWithout(q: seq<Param>, name: string, value: string)
    ensures Without(ReplaceFirst(q, name, value), name) == Without(q, name)
  {
    if q != [] {
      if q[0].name == name {
        var r := [Param(name, value)] + Without(q[1..], name);
        assert r[1..] == Without(q[1..], name);
        WithoutIdempotent(q[1..], name);
      } else {
        ReplaceFirstWithout(q[1..], name, value);
        var r := [q[0]] + ReplaceFirst(q[1..], name, value);
        assert r[1..] == ReplaceFirst(q[1..], name, value);
      }
    }
  }

  /** After `ReplaceFirst` on a list that has `name`, the first pair called `name` carries `value`. */
  lemma {:induction false} ReplaceFirstGet(q: seq<Param>, name: string, value: string)
    requires GetParam(q, name).Some?
    ensures GetParam(ReplaceFirst(q, name, value), name) == Some(value)
  {
    if q[0].name != name {
      ReplaceFirstGet(q[1..], name, value);
      var r := [q[0]] + ReplaceFirst(q[1..], name, value);
      assert r[1..] == ReplaceFirst(q[1..], name, value);
    }
  }

  /** After `ReplaceFirst`, exactly one pair is called `name`. */
  lemma {:induction false} ReplaceFirstOne(q: seq<Param>, name: string, value: string)
    requires GetParam(q, name).Some?
    ensures exists i :: 0 <= i < |ReplaceFirst(q, name, value)| && OnlyAt(ReplaceFirst(q, name, value), name, i)
  {
    var r := ReplaceFirst(q, name, value);
    if q[0].name == name {
      assert OnlyAt(r, name, 0);
    } else {
      ReplaceFirstOne(q[1..], name, value);
      var t := ReplaceFirst(q[1..], name, value);
      var i :| 0 <= i < |t| && OnlyAt(t, name, i);
      assert r == [q[0]] + t;
      assert OnlyAt(r, name, i + 1);
    }
  }

  /** Index `i` holds the only pair called `name`. */
  ghost predicate OnlyAt(q: seq<Param>, name: string, i: int)
  {
    0 <= i < |q| && q[i].name == name && forall j :: 0 <= j < |q| && j != i ==> q[j].name != name
  }

  /** Reading `name` back after `set(name, value)` gives `value`. */
  lemma SetThenGet(q: seq<Param>, name: string, value: string)
    ensures GetParam(SetParam(q, name, value), name) == Some(value)
  {
    if GetParam(q, name).Some? {
      ReplaceFirstGet(q, name, value);
    } else {
      GetAppend(q, Param(name, value), name);
    }
  }

  /** `get` on a list with one pair appended. */
  lemma {:induction false} GetAppend(q: seq<Param>, p: Param, name: string)
    ensures GetParam(q + [p], name) == if GetParam(q, name).Some? then GetParam(q, name) else if p.name == name then Some(p.value) else None
  {
    if q != [] {
      assert (q + [p])[1..] == q[1..] + [p];
      GetAppend(q[1..], p, name);
    } else {
      assert [p][1..] == [];
    }
  }

  /** `set(name, value)` leaves every pair with another name in place and in order. */
  lemma SetKeepsOthers(q: seq<Param>, name: string, value: string)
    ensures Without(SetParam(q, name, value), name) == Without(q, name)
  {
    if GetParam(q, name).Some? {
      ReplaceFirstWithout(q, name, value);
    } else {
      WithoutAppend(q, Param(name, value), name);
    }
  }

  /** `Without` on a list with one pair called `name` appended. */
  lemma {:induction false} WithoutAppend(q: seq<Param>, p: Param, name: string)
    requires p.name == name
    ensures Without(q + [p], name) == Without(q, name)
  {
    if q == [] {
      assert [p][1..] == [];
    } else {
      assert (q + [p])[1..] == q[1..] + [p];
      WithoutAppend(q[1..], p, name);
    }
  }

  /** After `set(name, value)` there is exactly one pair called `name`, and it carries `value`. */
  lemma SetLeavesOnePair(q: seq<Param>, name: string, value: string)
    ensures exists i :: (0 <= i < |SetParam(q, name, value)| && OnlyAt(SetParam(q, name, value), name, i)
                         && SetParam(q, name, value)[i].value == value)
  {
    var r := SetParam(q, name, value);
    SetThenGet(q, name, value);
    if GetParam(q, name).Some? {
      ReplaceFirstOne(q, name, value);
      var i :| 0 <= i < |r| && OnlyAt(r, name, i);
      assert IsFirst(r, name, i);
    } else {
      assert OnlyAt(r, name, |q|);
    }
  }

  /** `set(name, value)` does not change what `get` answers for any other name. */
  lemma SetGetOther(q: seq<Param>, name: string, value: string, other: string)
    requires other != name
    ensures GetParam(SetParam(q, name, value), other) == GetParam(q, other)
  {
    GetWithout(SetParam(q, name, value), name, other);
    SetKeepsOthers(q, name, value);
    GetWithout(q, name, other);
  }

  /** Setting the same pair twice is setting it once. */
  lemma SetIdempotent(q: seq<Param>, name: string, value: string)
    ensures SetParam(SetParam(q, name, value), name, value) == SetParam(q, name, value)
  {
    var r := SetParam(q, name, value);
    SetLeavesOnePair(q, name, value);
    var i :| 0 <= i < |r| && OnlyAt(r, name, i) && r[i].value == value;
    SetThenGet(q, name, value);
    ReplaceFirstOnly(r, name, value, i);
  }

  /** `ReplaceFirst` on a list where the only pair called `name` already carries `value`. */
  lemma {:induction false} ReplaceFirstOnly(q: seq<Param>, name: string, value: string, i: int)
    requires OnlyAt(q, name, i) && q[i].value == value
    ensures ReplaceFirst(q, name, value) == q
  {
    if i == 0 {
      WithoutAbsent(q[1..], name);
    } else {
      ReplaceFirstOnly(q[1..], name, value, i - 1);
    }
  }

  /** An object whose list of pairs `set` changes in place, as `url.searchParams` is. */
  class SearchParams {
    var list: seq<Param>

    constructor (query: seq<Param>)
      ensures list == query
    {
      list := query;
    }

    method Set(name: string, value: string)
      modifies this
      ensures list == SetParam(old(list), name, value)
      ensures GetParam(list, name) == Some(value)
      ensures Without(list, name) == Without(old(list), name)
    {
      SetThenGet(list, name, value);
      SetKeepsOthers(list, name, value);
      list := SetParam(list, name, value);
    }
  }
}
