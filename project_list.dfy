/**
 * The list operations the project collections are built from: the
 * `filter(p => p.id !== id)` of a delete and the `findIndex(p => p.id === id)`
 * of an update, with the id-uniqueness invariant they keep.
 */
module ProjectList {
  import opened Common
  import opened Types

  /** Does some project in `ps` carry `id`? */
  predicate HasId(ps: seq<Project>, id: string)
  {
    exists i :: 0 <= i < |ps| && ps[i].id == id
  }

  /** No two projects share an id. */
  predicate UniqueIds(ps: seq<Project>)
  {
    forall i, j :: 0 <= i < j < |ps| ==> ps[i].id != ps[j].id
  }

  /** `ps.filter(p => p.id !== id)`. */
  function Without(ps: seq<Project>, id: string): (r: seq<Project>)
    ensures |r| <= |ps|
    ensures forall i :: 0 <= i < |r| ==> r[i].id != id && r[i] in ps
    ensures forall p :: p in ps && p.id != id ==> p in r
  {
    if |ps| == 0 then []
    else if ps[0].id == id then Without(ps[1..], id)
    else [ps[0]] + Without(ps[1..], id)
  }

  /** `ps.findIndex(p => p.id === id)`, with `-1` as `None`. */
  function FindIndex(ps: seq<Project>, id: string): (r: Option<nat>)
    ensures r.Some? ==> r.value < |ps| && ps[r.value].id == id
    ensures r.Some? ==> forall j :: 0 <= j < r.value ==> ps[j].id != id
    ensures r.None? <==> !HasId(ps, id)
  {
    if |ps| == 0 then None
    else if ps[0].id == id then Some(0)
    else
      match FindIndex(ps[1..], id)
      case None => None
      case Some(k) => Some(k + 1)
  }

  /** Filtering commutes with concatenation, so the survivors keep their relative order. */
  lemma {:induction false} WithoutConcat(a: seq<Project>, b: seq<Project>, id: string)
    ensures Without(a + b, id) == Without(a, id) + Without(b, id)
    decreases |a|
  {
    if |a| > 0 {
      assert (a + b)[1..] == a[1..] + b;
      WithoutConcat(a[1..], b, id);
    } else {
      assert a + b == b;
    }
  }

  /** Filtering an id nobody carries changes nothing. */
  lemma {:induction false} WithoutAbsent(ps: seq<Project>, id: string)
    requires !HasId(ps, id)
    ensures Without(ps, id) == ps
    decreases |ps|
  {
    if |ps| > 0 {
      assert !HasId(ps[1..], id) by {
        forall i | 0 <= i < |ps[1..]| ensures ps[1..][i].id != id {
          assert ps[1..][i] == ps[i + 1];
        }
      }
      WithoutAbsent(ps[1..], id);
      assert ps == [ps[0]] + ps[1..];
    }
  }

  /** After filtering no project carries the id, so a second delete is a no-op. */
  lemma WithoutIdempotent(ps: seq<Project>, id: string)
    ensures !HasId(Without(ps, id), id)
    ensures Without(Without(ps, id), id) == Without(ps, id)
  {
    WithoutAbsent(Without(ps, id), id);
  }

  /** Filtering removes exactly the projects carrying the id. */
  lemma {:induction false} WithoutLength(ps: seq<Project>, id: string)
    ensures |Without(ps, id)| == |ps| <==> !HasId(ps, id)
    decreases |ps|
  {
    if |ps| > 0 {
      WithoutLength(ps[1..], id);
      if ps[0].id != id && HasId(ps[1..], id) {
        var i :| 0 <= i < |ps[1..]| && ps[1..][i].id == id;
        assert ps[i + 1].id == id;
      }
      if !HasId(ps, id) {
        assert !HasId(ps[1..], id) by {
          forall i | 0 <= i < |ps[1..]| ensures ps[1..][i].id != id {
            assert ps[1..][i] == ps[i + 1];
          }
        }
      }
    }
  }

  /** Filtering keeps ids unique. */
  lemma {:induction false} WithoutUnique(ps: seq<Project>, id: string)
    requires UniqueIds(ps)
    ensures UniqueIds(Without(ps, id))
    decreases |ps|
  {
    if |ps| > 0 {
      assert UniqueIds(ps[1..]) by {
        forall i, j | 0 <= i < j < |ps[1..]| ensures ps[1..][i].id != ps[1..][j].id {
          assert ps[1..][i] == ps[i + 1] && ps[1..][j] == ps[j + 1];
        }
      }
      WithoutUnique(ps[1..], id);
      var r := Without(ps[1..], id);
      forall k | 0 <= k < |r| ensures r[k].id != ps[0].id {
        var m :| 0 <= m < |ps[1..]| && ps[1..][m] == r[k];
        assert ps[m + 1] == r[k];
      }
    }
  }

  /** Prepending a project with a fresh id keeps ids unique. */
  lemma PrependUnique(p: Project, ps: seq<Project>)
    requires UniqueIds(ps) && !HasId(ps, p.id)
    ensures UniqueIds([p] + ps)
  {
    forall i, j | 0 <= i < j < |[p] + ps| ensures ([p] + ps)[i].id != ([p] + ps)[j].id {
      if i > 0 {
        assert ([p] + ps)[i] == ps[i - 1];
      }
      assert ([p] + ps)[j] == ps[j - 1];
    }
  }

  /** Replacing a project by one with the same id, or with an id nobody carries, keeps ids unique. */
  lemma ReplaceUnique(ps: seq<Project>, i: nat, q: Project)
    requires UniqueIds(ps) && i < |ps|
    requires q.id == ps[i].id || !HasId(ps, q.id)
    ensures UniqueIds(ps[i := q])
  {
  }
}
