/**
 * The application service of the flow map: a repository of applications that assigns their
 * ids, a search index that mirrors them, and the lookups over both.
 *
 * The repository is a map from id to record with the next id it will assign; the search index
 * is the list of records added to it, oldest first. The search engine's ranking is not part of
 * this model: a search is given by the hits it returned.
 */
module FlowApps {
  import opened Wrappers

  datatype FlowApp = FlowApp(id: int, name: string, description: string)

  /** The body of a request to create an application. */
  datatype FlowAppDto = FlowAppDto(name: string, description: string)

  /** A record of the search index, and a search hit. */
  datatype SearchRecord = SearchRecord(objectID: int, name: string, description: string)

  /** Why a service call fails. */
  datatype ServiceError =
    | BadRequest          // an id named in the request is unknown
    | RepositoryFailure   // the repository refused a write
    | SearchIndexFailure  // the search index refused a write

  /** `find`: one application per hit, in hit order, carrying the hit's id, name and
      description. */
  function Find(hits: seq<SearchRecord>): (apps: seq<FlowApp>)
    ensures |apps| == |hits|
    ensures forall i :: 0 <= i < |hits| ==>
              && apps[i].id == hits[i].objectID
              && apps[i].name == hits[i].name
              && apps[i].description == hits[i].description
  {
    if hits == [] then []
    else
      var h := hits[|hits| - 1];
      Find(hits[..|hits| - 1]) + [FlowApp(h.objectID, h.name, h.description)]
  }

  class FlowAppService {
    /** The repository: every stored application under its id. */
    var apps: map<int, FlowApp>
    /** The id the repository assigns to the next application it stores. */
    var nextId: int
    /** The search index, oldest record first. */
    var index: seq<SearchRecord>

    /** Stored applications carry their own key, below the next id; every index record mirrors
        a stored application. */
    predicate Valid()
      reads this
    {
      && (forall id :: id in apps ==> apps[id].id == id && id < nextId)
      && (forall r :: r in index ==>
            && r.objectID in apps
            && apps[r.objectID].name == r.name
            && apps[r.objectID].description == r.description)
    }

    /** An empty repository whose first id is 1, and an empty index. */
    constructor ()
      ensures Valid()
      ensures apps == map[] && nextId == 1 && index == []
    {
      apps := map[];
      nextId := 1;
      index := [];
    }

    /** `getAll`: every stored application, and nothing else. */
    method GetAll() returns (all: set<FlowApp>)
      requires Valid()
      ensures forall id :: id in apps ==> apps[id] in all
      ensures forall a :: a in all ==> a.id in apps && apps[a.id] == a
    {
      all := set id | id in apps :: apps[id];
    }

    /** `getOneById`: the stored application with that id, absent for an unknown id. */
    method GetOneById(id: int) returns (r: Option<FlowApp>)
      requires Valid()
      ensures r.Some? <==> id in apps
      ensures r.Some? ==> r.value == apps[id] && r.value.id == id
    {
      if id in apps {
        r := Some(apps[id]);
      } else {
        r := None;
      }
    }

    /**
     * `saveNewApp`: the repository stores the record under the id it assigns, then the index
     * adds a record keyed by that id. `stored` and `indexed` say whether the repository and
     * the index accept their writes; the index is written only after a successful store.
     */
    method SaveNewApp(app: FlowAppDto, stored: bool, indexed: bool)
      returns (r: Result<FlowApp, ServiceError>)
      requires Valid()
      modifies this
      ensures Valid()
      ensures !stored ==> r == Err(RepositoryFailure) && unchanged(this)
      ensures stored ==>
        && old(nextId) !in old(apps)
        && apps == old(apps)[old(nextId) := FlowApp(old(nextId), app.name, app.description)]
        && nextId == old(nextId) + 1
      ensures stored && indexed ==>
        && index == old(index) + [SearchRecord(old(nextId), app.name, app.description)]
        && r == Ok(FlowApp(old(nextId), app.name, app.description))
      ensures stored && !indexed ==> index == old(index) && r == Err(SearchIndexFailure)
    {
      if !stored {
        return Err(RepositoryFailure);
      }
      var saved := FlowApp(nextId, app.name, app.description);
      apps := apps[nextId := saved];
      nextId := nextId + 1;
      if !indexed {
        return Err(SearchIndexFailure);
      }
      index := index + [SearchRecord(saved.id, saved.name, saved.description)];
      return Ok(saved);
    }
  }

  /** Hits drawn from the index are found as applications the repository holds, with the
      stored name and description. */
  lemma FoundAppsAreStored(s: FlowAppService, hits: seq<SearchRecord>)
    requires s.Valid()
    requires forall h :: h in hits ==> h in s.index
    ensures forall a :: a in Find(hits) ==> a.id in s.apps && s.apps[a.id] == a
  {
  }
}
