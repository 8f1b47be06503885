/**
 * The id-keyed list operations both preset editors perform on their state:
 * appending a new preset, removing by id (`_.filter(p => p.id !== id)`) and
 * replacing by id (`_.map(p => p.id === q.id ? q : p)`). Generic in the preset
 * type; `idOf` reads a preset's id.
 */
module PresetLists {
  import opened Wrappers
  import opened Seqs

  function Ids<P>(ps: seq<P>, idOf: P -> string): (ids: seq<string>)
    ensures |ids| == |ps|
    ensures forall i :: 0 <= i < |ps| ==> ids[i] == idOf(ps[i])
  {
    seq(|ps|, i requires 0 <= i < |ps| => idOf(ps[i]))
  }

  /** No two presets share an id (uuids are unique). */
  predicate UniqueIds<P>(ps: seq<P>, idOf: P -> string) {
    forall i, j :: 0 <= i < j < |ps| ==> idOf(ps[i]) != idOf(ps[j])
  }

  /** The presets whose id differs from `id`, in their original order. */
  function Removed<P>(ps: seq<P>, id: string, idOf: P -> string): (r: seq<P>)
    ensures forall i :: 0 <= i < |r| ==> idOf(r[i]) != id
    ensures forall i :: 0 <= i < |ps| && idOf(ps[i]) != id ==> ps[i] in r
    ensures IsSubsequence(r, ps)
    ensures forall i :: 0 <= i < |ps| && idOf(ps[i]) != id ==> multiset(r)[ps[i]] == multiset(ps)[ps[i]]
  {
    FilterCounts(ps, p => idOf(p) != id);
    Filter(ps, p => idOf(p) != id)
  }

  /** Each preset whose id is `q`'s is replaced by `q`; the others stay where they are. */
  function Edited<P>(ps: seq<P>, q: P, idOf: P -> string): (r: seq<P>)
    ensures |r| == |ps|
    ensures forall i :: 0 <= i < |ps| ==> r[i] == (if idOf(ps[i]) == idOf(q) then q else ps[i])
  {
    seq(|ps|, i requires 0 <= i < |ps| => if idOf(ps[i]) == idOf(q) then q else ps[i])
  }

  /** `_.find(ps, p => p.id === id)`: the first preset with that id, if there is one. */
  function Find<P>(ps: seq<P>, id: string, idOf: P -> string): (r: Option<P>)
    ensures r.None? <==> id !in Ids(ps, idOf)
    ensures r.Some? ==> idOf(r.value) == id && r.value in ps
  {
    if |ps| == 0 then None
    else if idOf(ps[0]) == id then Some(ps[0])
    else
      assert Ids(ps, idOf) == [idOf(ps[0])] + Ids(ps[1..], idOf);
      Find(ps[1..], id, idOf)
  }

  /** What `Find` picks: the preset at the first position holding the id. */
  lemma {:induction false} FindFirst<P>(ps: seq<P>, id: string, idOf: P -> string, k: nat)
    requires k < |ps| && idOf(ps[k]) == id
    requires forall j :: 0 <= j < k ==> idOf(ps[j]) != id
    ensures Find(ps, id, idOf) == Some(ps[k])
  {
    if k > 0 {
      FindFirst(ps[1..], id, idOf, k - 1);
    }
  }

  /** Removing an id that no preset has leaves the list unchanged. */
  lemma RemovedAbsentId<P>(ps: seq<P>, id: string, idOf: P -> string)
    requires id !in Ids(ps, idOf)
    ensures Removed(ps, id, idOf) == ps
  {
    forall i | 0 <= i < |ps|
      ensures (p => idOf(p) != id)(ps[i])
    {
      assert Ids(ps, idOf)[i] == idOf(ps[i]);
    }
    FilterKeepsAll(ps, p => idOf(p) != id);
  }

  /** Appending a preset with a fresh id and then removing that id gives back the original list. */
  lemma AppendThenRemove<P>(ps: seq<P>, q: P, idOf: P -> string)
    requires idOf(q) !in Ids(ps, idOf)
    ensures Removed(ps + [q], idOf(q), idOf) == ps
  {
    forall i | 0 <= i < |ps|
      ensures (p => idOf(p) != idOf(q))(ps[i])
    {
      assert Ids(ps, idOf)[i] == idOf(ps[i]);
    }
    FilterDropsAppended(ps, q, p => idOf(p) != idOf(q));
  }

  /** Replacing by an id no preset has leaves the list unchanged. */
  lemma EditedAbsentId<P>(ps: seq<P>, q: P, idOf: P -> string)
    requires idOf(q) !in Ids(ps, idOf)
    ensures Edited(ps, q, idOf) == ps
  {
    forall i | 0 <= i < |ps|
      ensures Edited(ps, q, idOf)[i] == ps[i]
    {
      assert Ids(ps, idOf)[i] == idOf(ps[i]);
    }
  }

  /** Replacing by id keeps every id in its place. */
  lemma EditedKeepsIds<P>(ps: seq<P>, q: P, idOf: P -> string)
    ensures Ids(Edited(ps, q, idOf), idOf) == Ids(ps, idOf)
  {
  }

  /** Appending a fresh id keeps the ids unique. */
  lemma AppendKeepsUnique<P>(ps: seq<P>, q: P, idOf: P -> string)
    requires UniqueIds(ps, idOf)
    requires idOf(q) !in Ids(ps, idOf)
    ensures UniqueIds(ps + [q], idOf)
  {
    forall i, j | 0 <= i < j < |ps + [q]|
      ensures idOf((ps + [q])[i]) != idOf((ps + [q])[j])
    {
      if j == |ps| {
        assert Ids(ps, idOf)[i] == idOf(ps[i]);
      }
    }
  }

  /** Removal keeps the ids unique. */
  lemma {:induction false} RemovedKeepsUnique<P>(ps: seq<P>, id: string, idOf: P -> string)
    requires UniqueIds(ps, idOf)
    ensures UniqueIds(Removed(ps, id, idOf), idOf)
  {
    if |ps| > 0 {
      var keep := p => idOf(p) != id;
      assert UniqueIds(ps[1..], idOf) by {
        forall i, j | 0 <= i < j < |ps[1..]|
          ensures idOf(ps[1..][i]) != idOf(ps[1..][j])
        {
          assert ps[1..][i] == ps[i + 1] && ps[1..][j] == ps[j + 1];
        }
      }
      RemovedKeepsUnique(ps[1..], id, idOf);
      var rest := Filter(ps[1..], keep);
      assert rest == Removed(ps[1..], id, idOf);
      if keep(ps[0]) {
        assert Filter(ps, keep) == [ps[0]] + rest;
        forall k | 0 <= k < |rest|
          ensures idOf(rest[k]) != idOf(ps[0])
        {
          assert rest[k] in ps[1..];
          var m :| 0 <= m < |ps[1..]| && ps[1..][m] == rest[k];
          assert ps[1..][m] == ps[m + 1];
        }
        forall i, j | 0 <= i < j < |[ps[0]] + rest|
          ensures idOf(([ps[0]] + rest)[i]) != idOf(([ps[0]] + rest)[j])
        {
          if i == 0 {
            assert ([ps[0]] + rest)[j] == rest[j - 1];
          } else {
            assert ([ps[0]] + rest)[i] == rest[i - 1] && ([ps[0]] + rest)[j] == rest[j - 1];
          }
        }
      } else {
        assert Filter(ps, keep) == rest;
      }
    }
  }

  /** Replacing by id keeps the ids unique. */
  lemma EditedKeepsUnique<P>(ps: seq<P>, q: P, idOf: P -> string)
    requires UniqueIds(ps, idOf)
    ensures UniqueIds(Edited(ps, q, idOf), idOf)
  {
    EditedKeepsIds(ps, q, idOf);
    forall i, j | 0 <= i < j < |ps|
      ensures idOf(Edited(ps, q, idOf)[i]) != idOf(Edited(ps, q, idOf)[j])
    {
      assert Ids(Edited(ps, q, idOf), idOf)[i] == Ids(ps, idOf)[i];
      assert Ids(Edited(ps, q, idOf), idOf)[j] == Ids(ps, idOf)[j];
    }
  }
}
