/**
 * The optimistic cache updaters shared by the three resource services. Each service keeps
 * one cached list of records carrying a numeric `id`; create, update and delete rewrite that
 * list at call time, before the server answers.
 */
module OptimisticCache {
  import opened Wrappers
  import Coercion

  /** A cached record: its `id` and the rest of its fields. */
  datatype Row<P> = Row(id: int, fields: P)

  /** Raised when `create` spreads a cache that was never loaded (`[...undefined]`). */
  datatype CacheError = AbsentCache

  ghost predicate UniqueIds<P>(s: seq<Row<P>>)
  {
    forall i, j :: 0 <= i < j < |s| ==> s[i].id != s[j].id
  }

  predicate HasId<P>(s: seq<Row<P>>, k: int)
  {
    exists i :: 0 <= i < |s| && s[i].id == k
  }

  /** `s.reduce((max, r) => (r.id > max ? r.id : max), acc)`. */
  function MaxIdFrom<P>(s: seq<Row<P>>, acc: int): (m: int)
    ensures m >= acc
    ensures forall i :: 0 <= i < |s| ==> s[i].id <= m
    ensures m == acc || HasId(s, m)
  {
    if s == [] then acc
    else
      var r := MaxIdFrom(s[1..], if s[0].id > acc then s[0].id else acc);
      assert r != acc && r != s[0].id ==> HasId(s[1..], r);
      r
  }

  /** The synthetic id given to a created record: `max(0, ids) + 1`. */
  function NextId<P>(s: seq<Row<P>>): (n: int)
    ensures n >= 1
    ensures forall i :: 0 <= i < |s| ==> s[i].id < n
    ensures n == 1 || HasId(s, n - 1)
    ensures s == [] ==> n == 1
  {
    MaxIdFrom(s, 0) + 1
  }

  /** `[...s, {...payload, id: NextId(s)}]`. */
  function Created<P>(s: seq<Row<P>>, payload: Row<P>): (r: seq<Row<P>>)
    ensures |r| == |s| + 1 && r[..|s|] == s
    ensures r[|s|].fields == payload.fields && r[|s|].id == NextId(s)
    ensures forall i :: 0 <= i < |s| ==> s[i].id < r[|s|].id
  {
    s + [payload.(id := NextId(s))]
  }

  /** The create updater on the cache entry, which may be absent. */
  function CreateUpdater<P>(prev: Option<seq<Row<P>>>, payload: Row<P>): (r: Result<seq<Row<P>>, CacheError>)
    ensures r.Failure? <==> prev.None?
    ensures r.Success? ==> r.value == Created(prev.value, payload)
  {
    match prev
    case None => Failure(AbsentCache)
    case Some(s) => Success(Created(s, payload))
  }

  /** `s.map(r => r.id === v.id ? v : r)`. */
  function Updated<P>(s: seq<Row<P>>, v: Row<P>): (r: seq<Row<P>>)
    ensures |r| == |s|
    ensures forall i :: 0 <= i < |s| ==> r[i] == if s[i].id == v.id then v else s[i]
  {
    if s == [] then [] else [if s[0].id == v.id then v else s[0]] + Updated(s[1..], v)
  }

  /** `s.filter(r => r.id !== k)`. */
  function Removed<P>(s: seq<Row<P>>, k: int): (r: seq<Row<P>>)
    ensures |r| <= |s|
    ensures multiset(r) <= multiset(s)
    ensures forall i :: 0 <= i < |r| ==> r[i].id != k
    ensures forall i :: 0 <= i < |s| && s[i].id != k ==> multiset(r)[s[i]] == multiset(s)[s[i]]
  {
    if s == [] then []
    else
      var rest := Removed(s[1..], k);
      assert s == [s[0]] + s[1..];
      assert forall i :: 1 <= i < |s| ==> s[i] == s[1..][i - 1];
      if s[0].id == k then rest else [s[0]] + rest
  }

  /** The delete updater for ids that arrive as text: `s.filter(r => r.id !== parseInt(t))`. */
  function RemovedByText<P>(s: seq<Row<P>>, t: string): (r: seq<Row<P>>)
    ensures |r| <= |s| && multiset(r) <= multiset(s)
    ensures forall i :: 0 <= i < |r| ==> Coercion.ParseInt(t) != Some(r[i].id)
    ensures Coercion.ParseInt(t).None? ==> r == s
  {
    match Coercion.ParseInt(t)
    case None => s   // NaN: every `r.id !== NaN` holds, nothing is removed
    case Some(k) => Removed(s, k)
  }

  // ---- create ----

  /** A create keeps the ids unique, because the synthetic id exceeds every existing one. */
  lemma CreatePreservesUniqueIds<P>(s: seq<Row<P>>, payload: Row<P>)
    requires UniqueIds(s)
    ensures UniqueIds(Created(s, payload))
  {
    var r := Created(s, payload);
    forall i, j | 0 <= i < j < |r| ensures r[i].id != r[j].id {
      if j == |s| {
        assert r[i] == s[i];
      } else {
        assert r[i] == s[i] && r[j] == s[j];
      }
    }
  }

  /** The synthetic id is the least one above every existing id and above 0. */
  lemma NextIdIsLeastFresh<P>(s: seq<Row<P>>, n: int)
    requires n >= 1 && forall i :: 0 <= i < |s| ==> s[i].id < n
    ensures NextId(s) <= n
  {
  }

  // ---- update ----

  /** An update whose id is not cached changes nothing. */
  lemma UpdateAbsentIsIdentity<P>(s: seq<Row<P>>, v: Row<P>)
    requires !HasId(s, v.id)
    ensures Updated(s, v) == s
  {
    assert forall i :: 0 <= i < |s| ==> Updated(s, v)[i] == s[i];
  }

  /** An update keeps every id in place, so it keeps the ids unique. */
  lemma UpdatePreservesUniqueIds<P>(s: seq<Row<P>>, v: Row<P>)
    requires UniqueIds(s)
    ensures UniqueIds(Updated(s, v))
  {
    var r := Updated(s, v);
    assert forall i :: 0 <= i < |s| ==> r[i].id == s[i].id;
  }

  /** Updating twice with the same value is updating once. */
  lemma UpdateIdempotent<P>(s: seq<Row<P>>, v: Row<P>)
    ensures Updated(Updated(s, v), v) == Updated(s, v)
  {
    var r := Updated(s, v);
    assert forall i :: 0 <= i < |s| ==> Updated(r, v)[i] == r[i];
  }

  // ---- delete ----

  /** Deleting from a concatenation deletes from each part: the survivors keep their order. */
  lemma {:induction false} RemovedConcat<P>(a: seq<Row<P>>, b: seq<Row<P>>, k: int)
    ensures Removed(a + b, k) == Removed(a, k) + Removed(b, k)
  {
    if a == [] {
      assert a + b == b;
    } else {
      assert (a + b)[0] == a[0];
      assert (a + b)[1..] == a[1..] + b;
      RemovedConcat(a[1..], b, k);
    }
  }

  /** A single record survives a delete exactly when its id differs. */
  lemma RemovedSingle<P>(x: Row<P>, k: int)
    ensures Removed([x], k) == if x.id == k then [] else [x]
  {
    assert [x][1..] == [];
  }

  /** Deleting an id that is not cached changes nothing. */
  lemma {:induction false} RemovedAbsentIsIdentity<P>(s: seq<Row<P>>, k: int)
    requires !HasId(s, k)
    ensures Removed(s, k) == s
  {
    if s != [] {
      assert !HasId(s[1..], k) by {
        forall i | 0 <= i < |s[1..]| ensures s[1..][i].id != k { assert s[1..][i] == s[i + 1]; }
      }
      RemovedAbsentIsIdentity(s[1..], k);
      assert s == [s[0]] + s[1..];
    }
  }

  /** Deleting twice is deleting once. */
  lemma RemovedIdempotent<P>(s: seq<Row<P>>, k: int)
    ensures Removed(Removed(s, k), k) == Removed(s, k)
  {
    var r := Removed(s, k);
    assert !HasId(r, k) by {
      forall i | 0 <= i < |r| ensures r[i].id != k { assert r[i] in r; }
    }
    RemovedAbsentIsIdentity(r, k);
  }

  /** A delete keeps unique ids unique: its survivors are drawn from the list. */
  lemma {:induction false} RemovedPreservesUniqueIds<P>(s: seq<Row<P>>, k: int)
    requires UniqueIds(s)
    ensures UniqueIds(Removed(s, k))
  {
    if s != [] {
      var rest := s[1..];
      assert UniqueIds(rest) by {
        forall i, j | 0 <= i < j < |rest| ensures rest[i].id != rest[j].id {
          assert rest[i] == s[i + 1] && rest[j] == s[j + 1];
        }
      }
      RemovedPreservesUniqueIds(rest, k);
      if s[0].id != k {
        var r := Removed(rest, k);
        forall i | 0 <= i < |r| ensures r[i].id != s[0].id {
          SurvivorComesFromList(rest, k, i);
        }
        ConsUnique(s[0], r);
      }
    }
  }

  lemma SurvivorComesFromList<P>(s: seq<Row<P>>, k: int, i: nat)
    requires i < |Removed(s, k)|
    ensures exists j :: 0 <= j < |s| && s[j] == Removed(s, k)[i]
  {
    var r := Removed(s, k);
    assert r[i] in multiset(r);
    assert r[i] in s;
  }

  lemma ConsUnique<P>(x: Row<P>, r: seq<Row<P>>)
    requires UniqueIds(r)
    requires forall i :: 0 <= i < |r| ==> r[i].id != x.id
    ensures UniqueIds([x] + r)
  {
    var out := [x] + r;
    forall i, j | 0 <= i < j < |out| ensures out[i].id != out[j].id {
      assert out[j] == r[j - 1];
      if i > 0 {
        assert out[i] == r[i - 1];
      }
    }
  }

  /** A delete counts: exactly the records with the id are dropped. */
  lemma {:induction false} RemovedCount<P>(s: seq<Row<P>>, k: int)
    ensures |Removed(s, k)| == |s| - CountId(s, k)
  {
    if s != [] {
      RemovedCount(s[1..], k);
    }
  }

  /** The number of records carrying id `k`. */
  function CountId<P>(s: seq<Row<P>>, k: int): (c: nat)
    ensures c <= |s|
    ensures c == 0 <==> !HasId(s, k)
  {
    if s == [] then 0 else (if s[0].id == k then 1 else 0) + CountId(s[1..], k)
  }

  /** An id sent as `id + ""` and parsed back with `parseInt` deletes exactly that id. */
  lemma RemovedByDecimalText<P>(s: seq<Row<P>>, k: int)
    ensures RemovedByText(s, Coercion.IntToDecimal(k)) == Removed(s, k)
  {
    Coercion.ParseIntRoundTrip(k);
  }

  /** Text that is not a number deletes nothing. */
  lemma RemovedByNonNumericText<P>(s: seq<Row<P>>, t: string)
    requires Coercion.ParseInt(t).None?
    ensures RemovedByText(s, t) == s
  {
  }
}
