/**
 * The search screen's category handler as a state machine on values: its
 * three fields (the stored query, the source it observes, the published
 * category map) together with the repository's record of the searches it
 * has been asked for. Each step function here specifies one method of
 * Search.CategoryHandler.
 */
module CategoryHandling {
  import opened Wrappers
  import opened Resources
  import opened Text

  /** An observable search source handed out by the repository: the index of the search that created it. */
  type SourceId = nat

  /** The repository category the handler searches in (the only one it uses). */
  datatype MovieCategory = SearchMovie

  /** One call of the repository's search. */
  datatype SearchRequest = SearchRequest(category: MovieCategory, query: string)

  /** A mutable observable value: its current value (null at first) and how many times it was set. */
  datatype LiveValue<T> = LiveValue(value: Option<T>, version: nat)

  function SetValue<T>(lv: LiveValue<T>, v: T): LiveValue<T>
  {
    LiveValue(Some(v), lv.version + 1)
  }

  /** The handler's fields: mQuery, mLiveData and mCategoryMap. */
  datatype HandlerState<D> = HandlerState(query: Option<string>, liveData: Option<SourceId>, categoryMap: LiveValue<Resource<D>>)

  /** The platform functions setQuery depends on: lower-casing in the default locale, and URL-encoding as GBK (None when the charset is unsupported). */
  datatype Env = Env(lower: string -> string, encode: string -> Option<string>)

  /** The handler together with the repository's log of searches; a new source's id is the log's length. */
  datatype Machine<D> = Machine(handler: HandlerState<D>, issued: seq<SearchRequest>)

  function InitialHandler<D>(): (h: HandlerState<D>)
    ensures h.query == None && h.liveData == None && h.categoryMap.value == None
  {
    HandlerState(None, None, LiveValue(None, 0))
  }

  /**
   * What the handler keeps true: a registered source was handed out by the
   * repository for a search of the stored query, and the published value is
   * always a terminal result.
   */
  ghost predicate Inv<D>(m: Machine<D>)
  {
    (m.handler.liveData.Some? ==>
      var src := m.handler.liveData.value;
      src < |m.issued| && m.handler.query.Some? && m.issued[src] == SearchRequest(SearchMovie, m.handler.query.value))
    && (m.handler.categoryMap.value.Some? ==> IsTerminal(m.handler.categoryMap.value.value))
  }

  /** unregister: drop the registration if there is one. */
  function Unregister<D>(h: HandlerState<D>): (r: HandlerState<D>)
    ensures r.liveData == None
    ensures r.query == h.query && r.categoryMap == h.categoryMap
    ensures h.liveData == None ==> r == h
  {
    if h.liveData.Some? then h.(liveData := None) else h
  }

  /** onChanged: a null result detaches; a terminal one is published and then detaches; LOADING is ignored. */
  function OnChanged<D>(h: HandlerState<D>, result: Option<Resource<D>>): (r: HandlerState<D>)
    ensures result.None? ==> r.liveData == None && r.query == h.query && r.categoryMap == h.categoryMap
    ensures result.Some? && result.value.status == Loading ==> r == h
    ensures result.Some? && IsTerminal(result.value) ==>
      r.categoryMap.value == Some(result.value) && r.categoryMap.version == h.categoryMap.version + 1
      && r.liveData == None && r.query == h.query
  {
    match result
    case None => Unregister(h)
    case Some(res) =>
      if res.status == Success || res.status == Error then
        Unregister(h.(categoryMap := SetValue(h.categoryMap, res)))
      else
        h
  }

  /** The query setQuery compares and encodes: the input lower-cased, then trimmed. */
  function Normalize(env: Env, originalInput: string): string
  {
    Trim(env.lower(originalInput))
  }

  /**
   * setQuery: return at once when the normalised input equals the stored
   * query; otherwise unregister, then, if encoding succeeds, store the
   * encoded query and register on a fresh search source for it.
   */
  function SetQuery<D>(m: Machine<D>, env: Env, originalInput: string): (r: Machine<D>)
    ensures var input := Normalize(env, originalInput);
      m.handler.query == Some(input) ==> r == m
    ensures var input := Normalize(env, originalInput);
      m.handler.query != Some(input) && env.encode(input).Some? ==>
        r.handler.query == env.encode(input)
        && r.handler.liveData == Some(|m.issued|)
        && r.issued == m.issued + [SearchRequest(SearchMovie, env.encode(input).value)]
        && r.handler.categoryMap == m.handler.categoryMap
    ensures var input := Normalize(env, originalInput);
      m.handler.query != Some(input) && env.encode(input).None? ==>
        r.handler == Unregister(m.handler) && r.issued == m.issued
  {
    var input := Normalize(env, originalInput);
    if m.handler.query == Some(input) then m
    else
      var h := Unregister(m.handler);
      match env.encode(input)
      case None => m.(handler := h)
      case Some(q) =>
        Machine(h.(query := Some(q), liveData := Some(|m.issued|)), m.issued + [SearchRequest(SearchMovie, q)])
  }

  /** Whether an emission of src reaches mCategoryMap: src is the registered source and the result is terminal. */
  predicate Publishes<D>(h: HandlerState<D>, src: SourceId, result: Option<Resource<D>>)
  {
    h.liveData == Some(src) && result.Some? && IsTerminal(result.value)
  }

  /** An emission of src reaches onChanged only while the handler observes src. */
  function Deliver<D>(m: Machine<D>, src: SourceId, result: Option<Resource<D>>): (r: Machine<D>)
    ensures m.handler.liveData != Some(src) ==> r == m
    ensures m.handler.liveData == Some(src) ==> r.handler == OnChanged(m.handler, result)
    ensures r.issued == m.issued && r.handler.query == m.handler.query
    ensures r.handler.categoryMap.version != m.handler.categoryMap.version <==> Publishes(m.handler, src, result)
    ensures Publishes(m.handler, src, result) ==> r.handler.categoryMap.value == result && r.handler.liveData == None
  {
    if m.handler.liveData == Some(src) then m.(handler := OnChanged(m.handler, result)) else m
  }

  lemma SetQueryKeepsInv<D>(m: Machine<D>, env: Env, originalInput: string)
    requires Inv(m)
    ensures Inv(SetQuery(m, env, originalInput))
    ensures m.issued <= SetQuery(m, env, originalInput).issued
  {
  }

  lemma DeliverKeepsInv<D>(m: Machine<D>, src: SourceId, result: Option<Resource<D>>)
    requires Inv(m)
    ensures Inv(Deliver(m, src, result))
  {
  }

  /**
   * The query the details request reads after a publication is the one the
   * published source was searched with.
   */
  lemma PublishedQueryIsSearchedQuery<D>(m: Machine<D>, src: SourceId, result: Option<Resource<D>>)
    requires Inv(m) && Publishes(m.handler, src, result)
    ensures var r := Deliver(m, src, result);
      src < |r.issued| && r.handler.query == Some(r.issued[src].query) && r.issued[src].category == SearchMovie
  {
  }

  /**
   * The stored query is the encoded one, so an input whose encoding differs
   * from itself is never recognised as a repeat: setting it twice searches twice.
   */
  lemma SetQueryRepeatReissues<D>(m: Machine<D>, env: Env, originalInput: string)
    requires var input := Normalize(env, originalInput);
      env.encode(input).Some? && env.encode(input).value != input && m.handler.query != Some(input)
    ensures var once := SetQuery(m, env, originalInput);
      |SetQuery(once, env, originalInput).issued| == |m.issued| + 2
  {
  }

  /**
   * And an input equal to the stored encoded query is taken for a repeat and
   * dropped, even when it would itself encode to a different query.
   */
  lemma SetQueryEncodedCollision<D>(m: Machine<D>, env: Env, first: string, second: string)
    requires var in1 := Normalize(env, first);
      m.handler.query != Some(in1) && env.encode(in1).Some?
    requires Normalize(env, second) == env.encode(Normalize(env, first)).value
    ensures var once := SetQuery(m, env, first);
      SetQuery(once, env, second) == once
  {
  }

  /** Something that happens to the handler: a setQuery call, or an emission of one of the sources. */
  datatype Event<D> = QueryChange(input: string, env: Env) | Emission(src: SourceId, result: Option<Resource<D>>)

  /** One result that reached mCategoryMap, and the source it came from. */
  datatype Publication<D> = Publication(source: SourceId, result: Resource<D>)

  function Step<D>(m: Machine<D>, e: Event<D>): (Machine<D>, Option<Publication<D>>)
  {
    match e
    case QueryChange(input, env) => (SetQuery(m, env, input), None)
    case Emission(src, result) =>
      (Deliver(m, src, result), if Publishes(m.handler, src, result) then Some(Publication(src, result.value)) else None)
  }

  /** The final state after a sequence of events, and every publication in order. */
  function Run<D>(m: Machine<D>, events: seq<Event<D>>): (Machine<D>, seq<Publication<D>>)
    decreases |events|
  {
    if events == [] then (m, [])
    else
      var (m1, p) := Step(m, events[0]);
      var (f, log) := Run(m1, events[1..]);
      (f, (if p.Some? then [p.value] else []) + log)
  }

  /**
   * One-shot delivery: over any sequence of events, every published result
   * is terminal, comes from the source registered at the start or from one
   * handed out later, and no source publishes twice.
   */
  lemma {:induction false} RunOneShot<D>(m: Machine<D>, events: seq<Event<D>>)
    requires Inv(m)
    ensures var (f, log) := Run(m, events);
      Inv(f) && m.issued <= f.issued
      && (forall i :: 0 <= i < |log| ==>
            IsTerminal(log[i].result) && log[i].source < |f.issued|
            && (m.handler.liveData == Some(log[i].source) || |m.issued| <= log[i].source))
      && (forall i, j :: 0 <= i < j < |log| ==> log[i].source != log[j].source)
    decreases |events|
  {
    if events != [] {
      var (m1, p) := Step(m, events[0]);
      if events[0].QueryChange? {
        SetQueryKeepsInv(m, events[0].env, events[0].input);
      } else {
        DeliverKeepsInv(m, events[0].src, events[0].result);
      }
      RunOneShot(m1, events[1..]);
    }
  }
}
