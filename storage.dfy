/** The in-memory store of search requests: a table keyed by id and a
    counter that hands out the next id. */
module Storage {
  import opened Wrappers
  import opened Schema

  class MemStorage {
    var searchRequests: map<int, SearchRequest>
    var currentId: int

    /** Every stored id was handed out already (it is below the counter, which
        starts at 1) and is the id of the request stored under it. */
    ghost predicate Valid()
      reads this
    {
      && currentId >= 1
      && forall id :: id in searchRequests ==> 1 <= id < currentId && searchRequests[id].id == id
    }

    constructor ()
      ensures Valid()
      ensures searchRequests == map[] && currentId == 1
    {
      searchRequests := map[];
      currentId := 1;
    }

    /** `createSearchRequest`: store a new request under the next id. The
        creation time is a clock reading, passed in. */
    method CreateSearchRequest(insertRequest: InsertSearchRequest, createdAt: string) returns (request: SearchRequest)
      requires Valid()
      modifies this
      ensures Valid()
      ensures request == SearchRequest(old(currentId), insertRequest.searchQuery, None, createdAt)
      ensures request.id !in old(searchRequests)
      ensures currentId == old(currentId) + 1
      ensures searchRequests == old(searchRequests)[request.id := request]
    {
      var id := currentId;
      currentId := currentId + 1;
      request := SearchRequest(id, insertRequest.searchQuery, None, createdAt);
      searchRequests := searchRequests[id := request];
    }

    /** `updateSearchRequestResults`: attach results to a stored request.
        An unknown id yields `undefined` and changes nothing. */
    method UpdateSearchRequestResults(id: int, results: seq<ComparisonResult>) returns (updated: Option<SearchRequest>)
      requires Valid()
      modifies this
      ensures Valid()
      ensures currentId == old(currentId)
      ensures id !in old(searchRequests) ==> updated == None && searchRequests == old(searchRequests)
      ensures id in old(searchRequests) ==>
                && updated == Some(old(searchRequests)[id].(results := Some(results)))
                && updated.value.id == id
                && searchRequests == old(searchRequests)[id := updated.value]
    {
      if id !in searchRequests {
        return None;
      }
      var request := searchRequests[id];
      var updatedRequest := request.(results := Some(results));
      searchRequests := searchRequests[id := updatedRequest];
      return Some(updatedRequest);
    }

    /** `getSearchRequest`: look a request up; the store is not changed. */
    method GetSearchRequest(id: int) returns (request: Option<SearchRequest>)
      requires Valid()
      ensures request.Some? <==> id in searchRequests
      ensures request.Some? ==> request.value == searchRequests[id] && request.value.id == id
    {
      if id in searchRequests {
        return Some(searchRequests[id]);
      }
      return None;
    }
  }

  /** A client of the store: ids come out strictly increasing, a request can be
      read back right after it is created, and an update touches only its own
      entry and only the results. */
  method CreateUpdateGet(store: MemStorage, first: InsertSearchRequest, second: InsertSearchRequest,
                         results: seq<ComparisonResult>, time1: string, time2: string)
    requires store.Valid()
    modifies store
    ensures store.Valid()
  {
    var a := store.CreateSearchRequest(first, time1);
    var fetched := store.GetSearchRequest(a.id);
    assert fetched == Some(a);
    var b := store.CreateSearchRequest(second, time2);
    assert a.id < b.id && b.id == store.currentId - 1;
    var u := store.UpdateSearchRequestResults(a.id, results);
    assert u == Some(SearchRequest(a.id, first.searchQuery, Some(results), time1));
    var other := store.GetSearchRequest(b.id);
    assert other == Some(b) && other.value.results == None;
    var missing := store.UpdateSearchRequestResults(store.currentId, results);
    assert missing == None;
  }
}
