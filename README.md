# The search screen's category handler (DYTT)

DYTT is an Android client for a movie-listing site. Its search screen sends a
free-text query through `SearchViewModel`. Inside it, `CategoryHandler`
normalises the query, asks the repository for a search source, and observes
that source until one terminal result arrives. It publishes that result and
then detaches. While the screen observes the video list, each published
result makes the view model ask the repository for the video details of the
search category, using the handler's query at that moment.

This project models that handler and the view model around it in Dafny.

- `CategoryHandling` (category_handling.dfy) is the handler as a state
  machine on values. Its state holds the three fields `mQuery`, `mLiveData`
  and `mCategoryMap`, plus the repository's log of search calls. There is one
  step function per handler operation, and lemmas relate them: the invariant
  the handler keeps, one-shot delivery over any sequence of events, and what
  comparing against the encoded query leads to.
- `Search` (search.dfy) holds the same operations as classes whose methods
  update fields in place. `CategoryHandler`, `SearchViewModel` and a
  stand-in `DataRepository` each have methods, and every method's contract
  ties its new state to the matching step function.
- `Text` (text.dfy) is Java's `String.trim`. It keeps everything between the
  first and the last character above U+0020.
- `Resources` and `Wrappers` hold the result wrapper (status SUCCESS, ERROR or
  LOADING) and `Option`. `Option` stands for Java's nullable references.

How the model represents the pieces the handler depends on:

- A search source is a number: the position of its `search` call in the
  repository's log. So every source that `search` hands out is new.
- Delivery goes through `Deliver(src, result)`. It forwards to `onChanged`
  only while the handler is registered on `src`. This stands in for
  `observeForever` and `removeObserver`.
- `mCategoryMap` is a value together with a version counter. Every
  `setValue` bumps the counter, the same way LiveData does. The view model
  uses the counter to tell that a result was published.
- Lower-casing in the default locale and `URLEncoder.encode(…, "GBK")` are
  two functions passed to `setQuery` in an `Env`. Encoding returns `None`
  where Java throws `UnsupportedEncodingException`.

Two behaviours of the code are modelled as written:

- `setQuery` compares the normalised input with the stored query, and the
  stored query is the encoded string. Whenever encoding changes the input
  (spaces, non-ASCII titles), the same input is never recognised as a
  repeat, and each call searches again (`SetQueryRepeatReissues`).
- For the same reason, an input equal to the stored encoded query is taken
  for a repeat and dropped (`SetQueryEncodedCollision`).

A failed encoding does not end the request with an error. The handler has
already detached, and it publishes nothing: the exception is only printed.

## Model

| member | source | states |
|---|---|---|
| `CategoryHandling.InitialHandler` | app/src/main/java/com/bzh/dytt/search/SearchViewModel.java:57-66 | a new handler has no query, no registration and a category map holding null |
| `CategoryHandling.Unregister` | app/src/main/java/com/bzh/dytt/search/SearchViewModel.java:80-85 | afterwards no source is registered; query and category map are kept; with nothing registered it changes nothing (idempotent) |
| `CategoryHandling.OnChanged` | app/src/main/java/com/bzh/dytt/search/SearchViewModel.java:69-78 | null detaches and keeps the category map; LOADING changes nothing; SUCCESS/ERROR is set as the category map unchanged, exactly once (version + 1), and then detaches, query unchanged |
| `CategoryHandling.SetQuery` | app/src/main/java/com/bzh/dytt/search/SearchViewModel.java:95-108 | no-op when trim(lower(input)) equals the stored query. Otherwise, when encoding succeeds: the stored query becomes encode(trim(lower(input))), exactly one search for it in SEARCH_MOVIE is made, and the handler is registered only on the source that search returned. When encoding fails: no search is made, the handler is unregistered, query and map are kept |
| `CategoryHandling.Deliver` | app/src/main/java/com/bzh/dytt/search/SearchViewModel.java:101-104 | an emission of a source other than the registered one changes nothing; an emission of the registered source has exactly the effect of `onChanged` (LOADING keeps registration and map, null detaches and keeps the map); the category map is set exactly when the registered source emits a terminal result, and then holds that result and the handler is detached; no search is made and the query is kept |
| `CategoryHandling.SetQueryKeepsInv` | app/src/main/java/com/bzh/dytt/search/SearchViewModel.java:100-104 | setQuery keeps the invariant: a registered source was searched for the stored query in SEARCH_MOVIE, and the map only holds terminal results; the search log only grows |
| `CategoryHandling.DeliverKeepsInv` | app/src/main/java/com/bzh/dytt/search/SearchViewModel.java:69-85 | delivering any emission keeps the same invariant |
| `CategoryHandling.PublishedQueryIsSearchedQuery` | app/src/main/java/com/bzh/dytt/search/SearchViewModel.java:102-103 | after a source's result is published, the stored query (what getQuery returns to the details request) is the query that source was searched with |
| `CategoryHandling.SetQueryRepeatReissues` | app/src/main/java/com/bzh/dytt/search/SearchViewModel.java:96-102 | because the stored query is the encoded one, an input whose encoding differs from itself, set twice in a row, makes two searches |
| `CategoryHandling.SetQueryEncodedCollision` | app/src/main/java/com/bzh/dytt/search/SearchViewModel.java:96-102 | an input whose normalised form equals the stored encoded query is treated as a repeat and changes nothing |
| `CategoryHandling.RunOneShot` | app/src/main/java/com/bzh/dytt/search/SearchViewModel.java:69-104 | over any sequence of setQuery calls and emissions: every published result is terminal; it comes from the source registered at the start or from one handed out later, never from an earlier one; no source publishes twice; the invariant holds at the end |
| `Text.TrimStart` | app/src/main/java/com/bzh/dytt/search/SearchViewModel.java:96 | the leading run that trim strips: everything before it is at most U+0020, and the character at it is not |
| `Text.TrimEnd` | app/src/main/java/com/bzh/dytt/search/SearchViewModel.java:96 | the end of what trim keeps: everything from it on is at most U+0020, and the character before it (if kept) is not |
| `Text.Trim` | app/src/main/java/com/bzh/dytt/search/SearchViewModel.java:96 | the result is a contiguous part of the input with only characters at most U+0020 removed on either side, begins and ends with a character above U+0020, and is empty exactly when every input character is at most U+0020 |
| `Text.TrimOfTrimmed` | app/src/main/java/com/bzh/dytt/search/SearchViewModel.java:96 | a string with no trimmable character at either end is left as it is |
| `Text.TrimIdempotent` | app/src/main/java/com/bzh/dytt/search/SearchViewModel.java:96 | trimming twice is trimming once |
| `Search.DataRepository.Search` | app/src/main/java/com/bzh/dytt/search/SearchViewModel.java:103 | each search is logged with its category and query, and returns a source id no earlier search returned |
| `Search.CategoryHandler.constructor` | app/src/main/java/com/bzh/dytt/search/SearchViewModel.java:64-66 | starts in the initial state, on the given repository, with the invariant established |
| `Search.CategoryHandler.OnChanged` | app/src/main/java/com/bzh/dytt/search/SearchViewModel.java:68-78 | updates the fields exactly as `CategoryHandling.OnChanged` and keeps the invariant |
| `Search.CategoryHandler.Unregister` | app/src/main/java/com/bzh/dytt/search/SearchViewModel.java:80-85 | updates the fields exactly as `CategoryHandling.Unregister` |
| `Search.CategoryHandler.GetCategoryMap` | app/src/main/java/com/bzh/dytt/search/SearchViewModel.java:87-89 | returns the category map, which only ever holds null or a terminal result |
| `Search.CategoryHandler.GetQuery` | app/src/main/java/com/bzh/dytt/search/SearchViewModel.java:91-93 | returns the stored query; while a source is registered, it is the query that source was searched with |
| `Search.CategoryHandler.SetQuery` | app/src/main/java/com/bzh/dytt/search/SearchViewModel.java:95-108 | updates the fields and the repository's search log exactly as `CategoryHandling.SetQuery` and keeps the invariant |
| `Search.CategoryHandler.Deliver` | app/src/main/java/com/bzh/dytt/search/SearchViewModel.java:101-104 | updates the fields exactly as `CategoryHandling.Deliver` |
| `Search.SearchViewModel.constructor` | app/src/main/java/com/bzh/dytt/search/SearchViewModel.java:34-45 | creates a fresh handler in its initial state on the same repository |
| `Search.SearchViewModel.SetQuery` | app/src/main/java/com/bzh/dytt/search/SearchViewModel.java:51-53 | forwards to the handler, with the handler's contract |
| `Search.SearchViewModel.Deliver` | app/src/main/java/com/bzh/dytt/search/SearchViewModel.java:39-44 | with the video list observed throughout, a details request is made exactly when the category map is set; it asks SEARCH_MOVIE with the query that the publishing source was searched with |

## Left out

- LiveData machinery: `observeForever` and `removeObserver` are modelled by the single `liveData` field and by `Deliver` forwarding only to the registered source. `observeForever` immediately delivers a value the source already holds; in the model that delivery is just the next `Deliver` call. The main-thread requirement of `setValue` is not modelled.
- `Transformations.switchMap`: only its effect of making a details request when a value is published is modelled (`SearchViewModel.Deliver` returns the request). Switching the screen's video list over to the returned source, and `getVideoList`, are not modelled.
- Search.SearchViewModel.Deliver: assumes the video list is observed the whole time. While it has no active observer, `switchMap` does not react to `setValue`: several publications collapse into one `apply` when it becomes active again, and that request reads the query at that later moment, which may differ from the one the publishing source was searched with if `setQuery` ran in between.
- Locale lower-casing and `URLEncoder.encode(…, "GBK")` are not defined here. They are parameters (`Env`), because both depend on the platform's locale and charset tables.
- `e.printStackTrace()` on an encoding failure is I/O and is left out. The state after the failure is modelled.
- What a result carries besides its status (its data and message) is one opaque payload. `mCategoryMap` passes it on without looking at it. `Resource`, `Status`, `CategoryMap` and `MovieCategory` are not part of this model beyond that; `SEARCH_MOVIE` is the only category the handler uses.
- `DataRepository.search` is not part of this model. `Search.DataRepository` is a stand-in: it only records each call and hands out a new source per call. What the source then emits comes in through `Deliver`. So `CategoryHandling.RunOneShot`'s "no source publishes twice" is per search call: if the repository handed back the same LiveData for a repeated query (which `SetQueryRepeatReissues` shows the handler can ask for), `observeForever` would deliver its stored terminal value again and it would be published again.
- `DataRepository.getVideoDetailsByCategoryAndQuery` is not part of this model beyond the request the view model makes: its category and its query.
