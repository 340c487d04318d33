/** The DMTI list: a case-insensitive search over client, container and
    correlative, newest first, and the guarded delete. */
module DmtiSearch {
  import opened Base
  import opened Text
  import opened Domain
  import Store

  /** The term occurs, ignoring case, in the client, the container number
      or the correlative. */
  predicate DmtiMatches(d: Dmti, term: string) {
    MatchesTerm(d.clientName, term) || MatchesTerm(d.containerNumber, term) || MatchesTerm(d.id, term)
  }

  function Searched(term: string): Dmti -> bool {
    (d: Dmti) => term == "" || DmtiMatches(d, term)
  }

  function NewestDmtiFirst(d: Dmti): real { -(d.createdAt as real) }

  /** `filteredDmtis`: a copy, filtered by the search, sorted newest first. */
  function FilteredDmtis(dmtis: seq<Dmti>, searchTerm: string): seq<Dmti> {
    SortBy(Filter(dmtis, Searched(searchTerm)), NewestDmtiFirst)
  }

  /** An empty search keeps every DMTI, just reordered. */
  lemma {:induction false} EmptySearchKeepsAll(dmtis: seq<Dmti>)
    ensures multiset(FilteredDmtis(dmtis, "")) == multiset(dmtis)
    ensures SortedBy(FilteredDmtis(dmtis, ""), NewestDmtiFirst)
  {
    FilterAll(dmtis, Searched(""));
    SortByCorrect(dmtis, NewestDmtiFirst);
  }

  /** The result is newest first, holds every matching DMTI exactly as
      often as the input does, and holds a DMTI exactly when it matches. */
  lemma {:induction false} FilteredDmtisSpec(dmtis: seq<Dmti>, searchTerm: string)
    ensures var r := FilteredDmtis(dmtis, searchTerm);
      SortedBy(r, NewestDmtiFirst) && multiset(r) <= multiset(dmtis) &&
      multiset(r) == multiset(Filter(dmtis, Searched(searchTerm))) &&
      (forall d :: d in r <==> d in dmtis && (searchTerm == "" || DmtiMatches(d, searchTerm)))
  {
    var p := Searched(searchTerm);
    var f := Filter(dmtis, p);
    SortByCorrect(f, NewestDmtiFirst);
    SortByPerm(f, NewestDmtiFirst);
    SortByMembers(f, NewestDmtiFirst);
    forall d | d in dmtis && p(d) ensures d in f {
      var i :| 0 <= i < |dmtis| && dmtis[i] == d;
    }
  }

  /** The newest-first order in the source's terms. */
  lemma {:induction false} FilteredDmtisNewestFirst(dmtis: seq<Dmti>, searchTerm: string)
    ensures var r := FilteredDmtis(dmtis, searchTerm);
      forall i, j :: 0 <= i < j < |r| ==> r[i].createdAt >= r[j].createdAt
  {
    SortByCorrect(Filter(dmtis, Searched(searchTerm)), NewestDmtiFirst);
  }

  /** `handleDelete`: nothing without delete permission or confirmation;
      otherwise the store's delete of the record. */
  method HandleDelete(api: Store.ApiService, canDelete: bool, confirmed: bool, id: string)
    requires api.Valid()
    modifies api
    ensures api.dmtis == (if canDelete && confirmed then Store.Deleted(old(api.dmtis), id) else old(api.dmtis))
    ensures forall q :: q != Store.Dmtis ==> api.ListOf(q) == old(api.ListOf(q))
    ensures api.lastServiceNumber == old(api.lastServiceNumber)
    ensures api.Valid()
  {
    if !canDelete {
      return;
    }
    if confirmed {
      api.Delete(Store.Dmtis, id);
    }
  }
}
