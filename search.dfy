/**
 * The search screen's view model and its category handler, as objects whose
 * fields the methods update in place. Every state-changing method is
 * specified by the step function of CategoryHandling it implements.
 */
module Search {
  import opened Wrappers
  import opened Resources
  import opened CategoryHandling

  /**
   * The part of the repository the handler uses: search hands out a new
   * observable source for a category and query. The repository keeps the
   * log of searches it was asked for; a source is named by its place in it.
   */
  class DataRepository {
    var issued: seq<SearchRequest>

    constructor ()
      ensures issued == []
    {
      issued := [];
    }

    method Search(category: MovieCategory, query: string) returns (src: SourceId)
      modifies this
      ensures src == |old(issued)|
      ensures issued == old(issued) + [SearchRequest(category, query)]
    {
      src := |issued|;
      issued := issued + [SearchRequest(category, query)];
    }
  }

  /** The query of the details request the view model makes each time the category map is set. */
  datatype DetailsRequest = DetailsRequest(category: MovieCategory, query: Option<string>)

  class CategoryHandler<D> {
    var categoryMap: LiveValue<Resource<D>>
    var liveData: Option<SourceId>
    var query: Option<string>
    const repository: DataRepository

    ghost function State(): Machine<D>
      reads this, repository
    {
      CategoryHandling.Machine(HandlerState(query, liveData, categoryMap), repository.issued)
    }

    ghost predicate Valid()
      reads this, repository
    {
      Inv(State())
    }

    constructor (repository: DataRepository)
      ensures Valid() && this.repository == repository
      ensures State() == CategoryHandling.Machine(InitialHandler(), repository.issued)
    {
      this.repository := repository;
      categoryMap := LiveValue(None, 0);
      liveData := None;
      query := None;
    }

    method OnChanged(result: Option<Resource<D>>)
      requires Valid()
      modifies this
      ensures Valid()
      ensures State() == old(State()).(handler := CategoryHandling.OnChanged(old(State().handler), result))
    {
      if result.None? {
        Unregister();
      } else {
        if result.value.status == Success || result.value.status == Error {
          categoryMap := LiveValue(result, categoryMap.version + 1);
          Unregister();
        }
      }
    }

    method Unregister()
      requires Valid()
      modifies this
      ensures Valid()
      ensures State() == old(State()).(handler := CategoryHandling.Unregister(old(State().handler)))
    {
      if liveData.Some? {
        liveData := None;
      }
    }

    /** The published value; it is only ever a terminal result. */
    method GetCategoryMap() returns (v: LiveValue<Resource<D>>)
      requires Valid()
      ensures v == categoryMap
      ensures v.value.Some? ==> IsTerminal(v.value.value)
    {
      v := categoryMap;
    }

    /** The stored query; while a source is registered it is the query that source was searched with. */
    method GetQuery() returns (q: Option<string>)
      requires Valid()
      ensures q == query
      ensures liveData.Some? ==>
        q.Some? && liveData.value < |repository.issued| && repository.issued[liveData.value] == SearchRequest(SearchMovie, q.value)
    {
      q := query;
    }

    method SetQuery(originalInput: string, env: Env)
      requires Valid()
      modifies this, repository
      ensures Valid()
      ensures State() == CategoryHandling.SetQuery(old(State()), env, originalInput)
    {
      var input := Normalize(env, originalInput);
      if query == Some(input) {
        return;
      }
      Unregister();
      var encoded := env.encode(input);
      if encoded.Some? {
        query := encoded;
        var src := repository.Search(SearchMovie, encoded.value);
        liveData := Some(src);
      }
    }

    /** Hand result, emitted by src, to the handler if it observes src. */
    method Deliver(src: SourceId, result: Option<Resource<D>>)
      requires Valid()
      modifies this
      ensures Valid()
      ensures State() == CategoryHandling.Deliver(old(State()), src, result)
    {
      if liveData == Some(src) {
        OnChanged(result);
      }
    }
  }

  class SearchViewModel<D> {
    const repository: DataRepository
    const categoryHandler: CategoryHandler<D>

    ghost predicate Valid()
      reads this, categoryHandler, repository
    {
      categoryHandler.repository == repository && categoryHandler.Valid()
    }

    constructor (repository: DataRepository)
      ensures Valid() && this.repository == repository && fresh(categoryHandler)
      ensures categoryHandler.State() == CategoryHandling.Machine(InitialHandler(), repository.issued)
    {
      this.repository := repository;
      categoryHandler := new CategoryHandler(repository);
    }

    method SetQuery(originalInput: string, env: Env)
      requires Valid()
      modifies categoryHandler, repository
      ensures Valid()
      ensures categoryHandler.State() == CategoryHandling.SetQuery(old(categoryHandler.State()), env, originalInput)
    {
      categoryHandler.SetQuery(originalInput, env);
    }

    /**
     * Hand an emission of src to the handler. When it sets the category map,
     * the view model asks for the search category's details with the
     * handler's current query, which is the query src was searched with.
     */
    method Deliver(src: SourceId, result: Option<Resource<D>>) returns (details: Option<DetailsRequest>)
      requires Valid()
      modifies categoryHandler
      ensures Valid()
      ensures categoryHandler.State() == CategoryHandling.Deliver(old(categoryHandler.State()), src, result)
      ensures details.Some? <==> Publishes(old(categoryHandler.State().handler), src, result)
      ensures details.Some? ==>
        src < |repository.issued|
        && details.value == DetailsRequest(SearchMovie, Some(repository.issued[src].query))
    {
      ghost var before := categoryHandler.State();
      var version := categoryHandler.categoryMap.version;
      categoryHandler.Deliver(src, result);
      if categoryHandler.categoryMap.version != version {
        PublishedQueryIsSearchedQuery(before, src, result);
        var q := categoryHandler.GetQuery();
        details := Some(DetailsRequest(SearchMovie, q));
      } else {
        details := None;
      }
    }
  }
}
