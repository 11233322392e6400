/**
 * The favorites list of src/App.jsx as a function of its replies. The list
 * changes only once the backend has confirmed the insert or the delete.
 */
module Favorites {
  import opened Results
  import opened Records
  import opened Seqs

  /** `favorites.filter(id => id !== propertyId)`: every occurrence of `id` removed. */
  function Without(favorites: seq<PropertyId>, id: PropertyId): (r: seq<PropertyId>)
    ensures id !in r
    ensures forall y :: y != id ==> multiset(r)[y] == multiset(favorites)[y]
    ensures IsSubsequence(r, favorites)
  {
    FilterIsSubsequence(favorites, x => x != id);
    Filter(favorites, x => x != id)
  }

  /** The favorites after a toggle of `id` whose insert or delete got `reply`. */
  function AfterToggle(favorites: seq<PropertyId>, id: PropertyId, reply: Status): (r: seq<PropertyId>)
    ensures reply.Failed? ==> r == favorites
    ensures reply.Succeeded? ==> (id in r <==> id !in favorites)
  {
    if reply.Failed? then favorites
    else if id in favorites then Without(favorites, id)
    else favorites + [id]
  }

  /** `data.map(f => f.property_id)`. */
  function FavoriteIds(rows: seq<FavoriteRow>): (ids: seq<PropertyId>)
    ensures |ids| == |rows|
    ensures forall i :: 0 <= i < |rows| ==> ids[i] == rows[i].propertyId
  {
    if rows == [] then [] else [rows[0].propertyId] + FavoriteIds(rows[1..])
  }

  /** The favorites after `fetchFavorites`: emptied without a session, replaced on success, kept on failure. */
  function AfterFetch(favorites: seq<PropertyId>, signedIn: bool, reply: Result<seq<FavoriteRow>>): (r: seq<PropertyId>)
    ensures !signedIn ==> r == []
    ensures signedIn && reply.Ok? ==>
      |r| == |reply.value| && forall i :: 0 <= i < |r| ==> r[i] == reply.value[i].propertyId
    ensures signedIn && reply.Err? ==> r == favorites
  {
    if !signedIn then []
    else if reply.Ok? then FavoriteIds(reply.value)
    else favorites
  }

  /**
   * A failed toggle changes nothing. A successful one flips the membership of
   * `id`, appending exactly `id` when it was absent and dropping every copy of
   * it when it was present, and leaves every other id as it was.
   */
  lemma ToggleSpec(favorites: seq<PropertyId>, id: PropertyId, reply: Status)
    ensures reply.Failed? ==> AfterToggle(favorites, id, reply) == favorites
    ensures reply.Succeeded? ==> (id in AfterToggle(favorites, id, reply) <==> id !in favorites)
    ensures reply.Succeeded? && id !in favorites ==> AfterToggle(favorites, id, reply) == favorites + [id]
    ensures forall y :: y != id ==> multiset(AfterToggle(favorites, id, reply))[y] == multiset(favorites)[y]
  {
  }

  /**
   * Toggling twice, both calls succeeding, restores the membership of `id`; when
   * `id` was absent it restores the list exactly, and when present it moves the
   * id to the end, once.
   */
  lemma ToggleTwice(favorites: seq<PropertyId>, id: PropertyId)
    ensures var twice := AfterToggle(AfterToggle(favorites, id, Succeeded), id, Succeeded);
      (id in twice <==> id in favorites)
      && (id !in favorites ==> twice == favorites)
      && (id in favorites ==> twice == Without(favorites, id) + [id])
  {
    if id !in favorites {
      FilterAppend(favorites, [id], x => x != id);
      FilterKeepsAll(favorites, x => x != id);
      assert Filter([id], x => x != id) == [];
    }
  }

  /** Each id at most once. */
  predicate NoDuplicates(s: seq<PropertyId>) {
    forall i, j :: 0 <= i < j < |s| ==> s[i] != s[j]
  }

  lemma NoDuplicatesCount(s: seq<PropertyId>)
    requires NoDuplicates(s)
    ensures forall y :: multiset(s)[y] <= 1
  {
    if s != [] {
      assert s == [s[0]] + s[1..];
      NoDuplicatesCount(s[1..]);
      assert s[0] !in s[1..];
    }
  }

  lemma CountAtMostOne(s: seq<PropertyId>)
    requires forall y :: multiset(s)[y] <= 1
    ensures NoDuplicates(s)
  {
    forall i, j | 0 <= i < j < |s| ensures s[i] != s[j] {
      assert s == s[..j] + [s[j]] + s[j + 1..];
      assert multiset(s) == multiset(s[..j]) + multiset{s[j]} + multiset(s[j + 1..]);
      assert s[i] in s[..j];
      assert multiset(s[..j])[s[i]] >= 1;
      assert multiset(s)[s[j]] >= multiset(s[..j])[s[j]] + 1;
    }
  }

  /** A toggle never introduces a duplicate id: an id is appended only when absent. */
  lemma ToggleKeepsNoDuplicates(favorites: seq<PropertyId>, id: PropertyId, reply: Status)
    requires NoDuplicates(favorites)
    ensures NoDuplicates(AfterToggle(favorites, id, reply))
  {
    NoDuplicatesCount(favorites);
    var r := AfterToggle(favorites, id, reply);
    if reply.Succeeded? && id !in favorites {
      assert multiset(r) == multiset(favorites) + multiset{id};
    }
    CountAtMostOne(r);
  }
}
