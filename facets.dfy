/** The province facet and the province filter of the rainfall layer (app/page.tsx,
    the `provinces` and `filteredRain` expressions). */
module Facets {
  import opened Rain

  /** The select option meaning "every province". It is an ordinary string, compared by
      value, so a rain point whose province were literally this word could not be
      singled out. */
  const ALL: string := "ทั้งหมด"

  /** `rs.findIndex(r => r.province === x)`, with |rs| standing for "not found". */
  function FirstIndex(rs: seq<RainPoint>, x: string): (k: nat)
    ensures k <= |rs|
    ensures k < |rs| ==> rs[k].province == x
    ensures forall j :: 0 <= j < k ==> rs[j].province != x
  {
    if rs == [] then 0
    else if rs[0].province == x then 0
    else 1 + FirstIndex(rs[1..], x)
  }

  /** `[...new Set(rs.map(r => r.province).filter(Boolean))]`: each truthy (non-empty)
      province is inserted into the set in turn, and a set keeps its first insertion
      order, so a province is appended when it is first seen. */
  function Provinces(rs: seq<RainPoint>): seq<string>
  {
    if rs == [] then []
    else
      var seen := Provinces(rs[..|rs| - 1]);
      var p := rs[|rs| - 1].province;
      if p == "" || p in seen then seen else seen + [p]
  }

  /** A province found before the end of a list is found at the same place in the
      list with one more element. */
  lemma FirstIndexExtend(rs: seq<RainPoint>, r: RainPoint, x: string)
    requires FirstIndex(rs, x) < |rs|
    ensures FirstIndex(rs + [r], x) == FirstIndex(rs, x)
  {
    var k, k' := FirstIndex(rs, x), FirstIndex(rs + [r], x);
    assert (rs + [r])[k] == rs[k];
  }

  predicate NoDuplicates(ps: seq<string>)
  {
    forall i, j :: 0 <= i < j < |ps| ==> ps[i] != ps[j]
  }

  /** Earlier elements of `ps` occur earlier in `rs`. */
  predicate InFirstOccurrenceOrder(rs: seq<RainPoint>, ps: seq<string>)
  {
    forall i, j :: 0 <= i < j < |ps| ==> FirstIndex(rs, ps[i]) < FirstIndex(rs, ps[j])
  }

  /** The facet has no duplicates. */
  lemma {:induction false} ProvincesDistinct(rs: seq<RainPoint>)
    ensures NoDuplicates(Provinces(rs))
  {
    if rs != [] {
      var seen, p := Provinces(rs[..|rs| - 1]), rs[|rs| - 1].province;
      ProvincesDistinct(rs[..|rs| - 1]);
      if p != "" && p !in seen {
        var ps := seen + [p];
        assert Provinces(rs) == ps;
        forall i, j | 0 <= i < j < |ps| ensures ps[i] != ps[j] {
          assert ps[i] == seen[i] && ps[i] in seen;
          if j < |seen| {
            assert ps[j] == seen[j];
          } else {
            assert ps[j] == p;
          }
        }
      }
    }
  }

  /** The facet never offers the empty province. */
  lemma {:induction false} ProvincesNonEmpty(rs: seq<RainPoint>)
    ensures "" !in Provinces(rs)
  {
    if rs != [] {
      ProvincesNonEmpty(rs[..|rs| - 1]);
    }
  }

  /** Every facet element is the province of some rain point. */
  lemma {:induction false} ProvincesSound(rs: seq<RainPoint>)
    ensures forall x :: x in Provinces(rs) ==> FirstIndex(rs, x) < |rs|
  {
    if rs != [] {
      var init, r := rs[..|rs| - 1], rs[|rs| - 1];
      assert rs == init + [r];
      ProvincesSound(init);
      forall x | x in Provinces(rs) ensures FirstIndex(rs, x) < |rs| {
        if x in Provinces(init) {
          FirstIndexExtend(init, r, x);
        }
      }
    }
  }

  /** Every non-empty province of a rain point is offered by the facet. */
  lemma {:induction false} ProvincesComplete(rs: seq<RainPoint>)
    ensures forall k :: 0 <= k < |rs| && rs[k].province != "" ==> rs[k].province in Provinces(rs)
  {
    if rs != [] {
      var init := rs[..|rs| - 1];
      ProvincesComplete(init);
      forall k | 0 <= k < |rs| && rs[k].province != ""
        ensures rs[k].province in Provinces(rs)
      {
        if k < |init| {
          assert rs[k] == init[k];
        }
      }
    }
  }

  /** The facet lists the provinces in the order in which they first occur. */
  lemma {:induction false} ProvincesOrdered(rs: seq<RainPoint>)
    ensures InFirstOccurrenceOrder(rs, Provinces(rs))
  {
    if rs != [] {
      var init, r := rs[..|rs| - 1], rs[|rs| - 1];
      assert rs == init + [r];
      ProvincesOrdered(init);
      ProvincesSound(init);
      ProvincesComplete(init);
      var seen := Provinces(init);
      forall x | x in seen
        ensures FirstIndex(rs, x) == FirstIndex(init, x) < |init|
      {
        FirstIndexExtend(init, r, x);
      }
      if r.province != "" && r.province !in seen {
        assert FirstIndex(init, r.province) == |init|;
        assert FirstIndex(rs, r.province) == |init|;
        var ps := seen + [r.province];
        assert Provinces(rs) == ps;
        forall i, j | 0 <= i < j < |ps| ensures FirstIndex(rs, ps[i]) < FirstIndex(rs, ps[j]) {
          assert ps[i] == seen[i] && ps[i] in seen;
          if j < |seen| {
            assert ps[j] == seen[j] && ps[j] in seen;
          } else {
            assert ps[j] == r.province;
          }
        }
      }
    }
  }

  /** `rs.filter(r => r.province === p)`: exact string match, no trimming or folding. */
  function Where(rs: seq<RainPoint>, p: string): (r: seq<RainPoint>)
    ensures |r| <= |rs|
    ensures forall x :: x in r <==> x in rs && x.province == p
  {
    if rs == [] then []
    else (if rs[0].province == p then [rs[0]] else []) + Where(rs[1..], p)
  }

  /** `filteredRain`: the whole list for the sentinel, the matching points otherwise. */
  function FilterRain(rs: seq<RainPoint>, selected: string): seq<RainPoint>
  {
    if selected == ALL then rs else Where(rs, selected)
  }

  /** The filter keeps the relative order of the points it keeps: filtering a
      concatenation is concatenating the filtered parts. */
  lemma {:induction false} WhereAppend(a: seq<RainPoint>, b: seq<RainPoint>, p: string)
    ensures Where(a + b, p) == Where(a, p) + Where(b, p)
  {
    if a == [] {
      assert a + b == b;
    } else {
      assert (a + b)[0] == a[0];
      assert (a + b)[1..] == a[1..] + b;
      WhereAppend(a[1..], b, p);
    }
  }

  /** Each matching point is kept as often as it occurs and each other point is dropped,
      so the filter is an order-preserving sub-list and not merely a subset. */
  lemma {:induction false} WhereCounts(rs: seq<RainPoint>, p: string)
    ensures forall x :: multiset(Where(rs, p))[x] == if x.province == p then multiset(rs)[x] else 0
  {
    if rs != [] {
      WhereCounts(rs[1..], p);
      assert rs == [rs[0]] + rs[1..];
    }
  }

  /** The filter laws: the sentinel keeps the list as it is; any other value keeps
      exactly the points of that province; the result is empty exactly when no point
      has that province and the whole list exactly when every point has it. */
  lemma {:induction false} FilterRainLaws(rs: seq<RainPoint>, selected: string)
    ensures selected == ALL ==> FilterRain(rs, selected) == rs
    ensures selected != ALL ==> FilterRain(rs, selected) == Where(rs, selected)
    ensures selected != ALL ==>
      (FilterRain(rs, selected) == [] <==> forall k :: 0 <= k < |rs| ==> rs[k].province != selected)
    ensures selected != ALL ==>
      (FilterRain(rs, selected) == rs <==> forall k :: 0 <= k < |rs| ==> rs[k].province == selected)
  {
    if selected != ALL {
      WhereEmpty(rs, selected);
      WhereWhole(rs, selected);
    }
  }

  lemma {:induction false} WhereEmpty(rs: seq<RainPoint>, p: string)
    ensures Where(rs, p) == [] <==> forall k :: 0 <= k < |rs| ==> rs[k].province != p
  {
    if Where(rs, p) != [] {
      var x := Where(rs, p)[0];
      assert x in rs;
    } else {
      forall k | 0 <= k < |rs| ensures rs[k].province != p {
        assert rs[k] in rs;
      }
    }
  }

  lemma {:induction false} WhereWhole(rs: seq<RainPoint>, p: string)
    ensures Where(rs, p) == rs <==> forall k :: 0 <= k < |rs| ==> rs[k].province == p
  {
    if rs != [] {
      WhereWhole(rs[1..], p);
      if rs[0].province != p {
        assert |Where(rs, p)| == |Where(rs[1..], p)| <= |rs[1..]| < |rs|;
      } else {
        assert Where(rs, p) == [rs[0]] + Where(rs[1..], p);
        if Where(rs, p) == rs {
          assert Where(rs[1..], p) == rs[1..];
        }
        if forall k :: 0 <= k < |rs| ==> rs[k].province == p {
          assert forall k :: 0 <= k < |rs[1..]| ==> rs[1..][k].province == p by {
            forall k | 0 <= k < |rs[1..]| ensures rs[1..][k].province == p {
              assert rs[1..][k] == rs[k + 1];
            }
          }
        }
      }
    }
  }

  /** The facet and the filter agree: choosing an offered province shows at least one
      point, all of that province, and the facet of what is shown is that province
      alone; a non-empty province that is not offered shows nothing. */
  lemma {:induction false} FacetSelectsPoints(rs: seq<RainPoint>, x: string)
    requires x != ALL
    ensures x in Provinces(rs) ==> FilterRain(rs, x) != [] && Provinces(FilterRain(rs, x)) == [x]
    ensures x != "" && x !in Provinces(rs) ==> FilterRain(rs, x) == []
  {
    ProvincesSound(rs);
    ProvincesComplete(rs);
    ProvincesNonEmpty(rs);
    WhereEmpty(rs, x);
    if x in Provinces(rs) {
      assert rs[FirstIndex(rs, x)].province == x;
      ProvincesOfSingleProvince(Where(rs, x), x);
    }
  }

  /** The facet of a non-empty list whose points all have the same non-empty province
      is that province alone. */
  lemma {:induction false} ProvincesOfSingleProvince(rs: seq<RainPoint>, x: string)
    requires x != "" && rs != []
    requires forall r :: r in rs ==> r.province == x
    ensures Provinces(rs) == [x]
  {
    var init := rs[..|rs| - 1];
    if init != [] {
      forall r | r in init ensures r.province == x {
        assert r in rs;
      }
      ProvincesOfSingleProvince(init, x);
    }
    assert rs[|rs| - 1] in rs;
  }
}
