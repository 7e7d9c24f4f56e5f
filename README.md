# OpenAlex gateway model

A Dafny model of the OpenAlex gateway in `utils/openalex.py`, with proofs about it. The gateway does five things:

- It searches one of seven entity types (work, author, source, institution, concept, publisher, funder). Each type has a fixed field projection.
- It normalises a search request body: it applies defaults, joins list-valued filters with `|`, drops falsy non-list filter entries, and drops falsy sort entries.
- It serves searches and single-entity fetches from a cache, and writes the cache only when the call succeeds.
- It turns the exceptions of the first search or fetch request into failure messages. A query error passes its own text through, and every other exception gets a fixed message. Exceptions raised after that request are not caught.
- It completes single records:
  - a work gets its abstract rebuilt, and its first 20 referenced and related works resolved;
  - an author gets their works, and the collaborators computed from those works.

## Modules

- `pyvalues.dfy` (`PyValues`) holds the Python values the gateway handles:
  - JSON values;
  - dicts as ordered association lists, where assignment keeps a key's place and a new key goes last;
  - the exceptions that can escape (`KeyError`, `TypeError`, `QueryError`, `HTTPError`, any other);
  - `'|'.join`, together with its inverse.
- `entities.dfy` (`Entities`) holds the entity types and the `entities_fields` projections.
- `normalize.dfy` (`Normalize`) covers the filter and sort loops of `search_entities_by_body`. Each loop is a method, proved equal to a closed-form function over the input dict.
- `collaborators.dfy` (`Collaborators`) covers `calculate_collaborators`:
  - its two loops are methods over a map and a key-insertion order;
  - they are proved equal to a reference definition: first-seen ids, each with its occurrences in loop order;
  - the result is then sorted stably by descending `cooperation_times`.
- `records.dfy` (`Records`) covers how records are reshaped:
  - the inverted index is swapped for the abstract;
  - only the first 20 ids of a list are kept;
  - collaborators are turned back into dicts.
- `gateway.dfy` (`Gateway`) models the gateway itself:
  - the remote client is a class: fixed answers from an `Oracle`, plus a log of the requests made;
  - the two caches are a class holding two maps;
  - `search_entities`, `search_entities_by_body`, `search_works_by_author_id` and `get_single_entity` are methods;
  - each method is proved equal to a specification function over the old cache and the old request log;
  - the properties of the cache and of failures are proved about those functions.

In two places the code does something other than what a reader of the gateway might expect. The model follows the code in both:

- **Empty-list filter values.** They are not dropped. In the code, an empty list is falsy, so it is popped, but it is also a list, so it is then assigned `''`, which puts the key back at the end of the dict. `Normalize.EmptyListBecomesEmptyString` shows this on a concrete filter.
- **Failed works fetch for an author.** The collaborators are not treated as empty. In the code, `calculate_collaborators(None, id)` raises `TypeError`, and that exception escapes `get_single_entity`.
- **Exceptions after the first request.** They are not turned into messages. A failed resolve of the referenced or related works, and a record without its inverted index, raise out of `get_single_entity`; a record without its inverted index or a page without `count`, `page` or `per_page` raises out of `search_entities`. `search_works_by_author_id` alone catches everything, and gives `None`.

## Model

| member | source | states |
|---|---|---|
| Entities.EntityTypeOf | utils/openalex.py:8-16 | exactly the seven type names map to an entity type, each to the one whose name it is; any other name has none |
| Entities.Projection | utils/openalex.py:18-34 | each type selects `id` and `display_name` first, with no field twice; only works select `abstract_inverted_index`; works also select `authorships` |
| PyValues.Set | utils/openalex.py:94 | assigning a key makes lookups of it give the new value; an existing key keeps its place, and a new key is appended |
| PyValues.Remove | utils/openalex.py:92 | after `pop` the key is absent; the dict is never longer, and shorter when it held the key; `RemoveOthers` states that every other key keeps its value |
| PyValues.SetOthers | utils/openalex.py:94 | assigning one key leaves the lookup of every other key unchanged |
| PyValues.SplitJoin | utils/openalex.py:94 | splitting the `'|'`-joined string of a non-empty list of alternatives that contain no `|` gives back that list |
| Normalize.NormalizeFilter | utils/openalex.py:89-94 | the loop over the copied filter either raises TypeError (a list holding a non-string) or gives exactly `NormalizedFilter` of the input |
| Normalize.FilterTurnPieces | utils/openalex.py:90-94 | one turn of the loop: a truthy scalar stays where it is, a falsy scalar goes, a non-empty list is joined in place, and an empty list moves to the end as `''` |
| Normalize.NormalizedFilterLookup | utils/openalex.py:89-94 | every key of the normalised filter holds its joined list, or its value if truthy, or nothing if falsy; no key appears twice |
| Normalize.NormalizedFilterValues | utils/openalex.py:89-94 | no list is left, and a falsy value remains only where the original value was a list |
| Normalize.EmptyListBecomesEmptyString | utils/openalex.py:91-94 | `{year: [], type: 'article'}` becomes `{type: 'article', year: ''}` |
| Normalize.NormalizeSort | utils/openalex.py:95-98 | the sort loop gives exactly the truthy entries, in their original order |
| Normalize.TruthyEntriesLookup | utils/openalex.py:95-98 | a key keeps its value exactly when that value is truthy; no falsy value is left, and no key appears twice |
| Collaborators.Subscript | utils/openalex.py:124-125 | `v[key]` on a dict that holds the key gives that key's value; it raises KeyError on a dict without the key, and TypeError on anything else |
| Collaborators.OccurrencesRaises | utils/openalex.py:123-136 | once the works read so far raise, the whole computation raises that same exception |
| Collaborators.CountCoAuthor | utils/openalex.py:128-136 | a new id is entered after the known ones; its count goes up by one and the work is appended; a work without `id` or `display_name` raises KeyError |
| Collaborators.CountAuthorship | utils/openalex.py:124-136 | one authorship either raises, skips the author's own entry, or counts one occurrence for the co-author |
| Collaborators.TallyAuthorships | utils/openalex.py:124-136 | the inner loop over one work's authorships leaves the keys and the map equal to those occurrences counted, in order, into the keys and map it started from, or raises the first exception the loop meets |
| Collaborators.TallyWork | utils/openalex.py:124-136 | one work's authorships are read (KeyError without them, TypeError when they cannot be iterated) and counted into the keys and map it started from, or the first exception is raised |
| Collaborators.CountedFromNext | utils/openalex.py:128-136 | counting one more occurrence into a running tally updates only its entry and appends its key exactly when the key is new |
| Collaborators.FoldFrom | utils/openalex.py:123-136 | counting a work's occurrences into the tally of all earlier works gives the tally, and the first-seen key order, of all occurrences together |
| Collaborators.CalculateCollaborators | utils/openalex.py:115-140 | the two loops and the sort give exactly `CalculatedCollaborators(works, id)`, including every exception case |
| Collaborators.SeenIffOccurs | utils/openalex.py:128-131 | an id gets an entry exactly when some authorship of it was counted |
| Collaborators.FirstAuthorOccurs | utils/openalex.py:128-131 | an entry's author dict is the one from that id's first authorship: no earlier authorship carries the id |
| Collaborators.TallyMapSummary | utils/openalex.py:128-136 | the dict built by the loops holds, for each id, the reference summary: first author, count and works in order |
| Collaborators.NoSelfCollaborator | utils/openalex.py:126-127 | no collaborator has the author's own id, and every collaborator has an id |
| Collaborators.TimesCountWorks | utils/openalex.py:129-136 | every collaborator's `cooperation_times` equals the number of its collaborative works, and is at least 1; the works are that co-author's occurrences, in input order |
| Collaborators.OneEntryPerCoAuthor | utils/openalex.py:128-131 | no id appears twice, and every counted co-authorship has its collaborator |
| Collaborators.CooperationTimesSum | utils/openalex.py:132 | the counts add up to the number of non-self authorships |
| Collaborators.SortByTimesSorts | utils/openalex.py:137-139 | the sort gives a permutation of its input, in descending order of `cooperation_times` |
| Collaborators.SortByTimesStable | utils/openalex.py:137-139 | entries with equal `cooperation_times` keep their first-seen order (`sorted` is stable) |
| Collaborators.SortedByCooperationTimes | utils/openalex.py:137-139 | the result is descending, a permutation of the unsorted tally, and stable within each count |
| Collaborators.NoCoAuthorsNoCollaborators | utils/openalex.py:122-140 | no works gives `[]`; in general the result is empty exactly when there is no co-authorship |
| Records.SanitizedWork | utils/openalex.py:158-160 | a work without `abstract_inverted_index` raises KeyError; otherwise the index is gone, `abstract` holds the rebuilt text, and every other field is unchanged |
| Records.SanitizedAllRaises | utils/openalex.py:62-64 | sanitising a list raises exactly when some record has no inverted index |
| Records.SanitizedAllRecords | utils/openalex.py:62-64 | a sanitised list has one record per input record, each of them sanitised, in order |
| Records.SanitizeWorks | utils/openalex.py:107-109 | the record loop gives exactly `SanitizedAll` of its input |
| Records.FirstIds | utils/openalex.py:164 | `ids[0:20]` is a prefix of `ids` of length `min(|ids|, 20)` |
| Records.CollaboratorJsonFields | utils/openalex.py:129-136 | a collaborator dict carries its count and its `{id, display_name}` works in order; every other field is the author's own |
| Gateway.SearchKeyFor | utils/openalex.py:39-45 | an empty position becomes `'default'` and any other position is kept; a missing filter or sort becomes `{}`; the type, search text, page and size pass through unchanged |
| Gateway.PageDict | utils/openalex.py:65-70 | the page dict has the fields `total`, `page`, `size` and `result`, in that order, holding the given values |
| Gateway.SearchPageRecords | utils/openalex.py:61-70 | a built page lists every returned record in order; work records are sanitised and lose their inverted index |
| Gateway.BuildPage | utils/openalex.py:61-70 | sanitising and the reads of `count`, `page` and `per_page` give exactly `SearchPage`, including a KeyError for each missing field |
| Gateway.SearchSpec | utils/openalex.py:45-71 | see the list after the table |
| Gateway.SearchRepeats | utils/openalex.py:45-71 | repeating a successful search returns the same dict from the cache, makes no request, and writes nothing |
| Gateway.SearchEntities | utils/openalex.py:37-72 | the reply, the new search cache and the new request log are those of `SearchSpec` under the normalised key; the entity cache is untouched; a clean cache stays clean |
| Gateway.SearchUnderKey | utils/openalex.py:44-71 | under a complete key, the reply, the new search cache and the new request log are those of `SearchSpec`; the entity cache is untouched |
| Gateway.SearchKeepsClean | utils/openalex.py:61-71 | if no cached page of works lists a record with an inverted index, that stays true after a search; and a successful search for works, from the cache or not, lists no record with one |
| Gateway.BodyKeyNormalised | utils/openalex.py:82-99 | the search is keyed by the normalised filter and exactly the truthy sort entries; the search text defaults to `''`, a missing or empty position becomes `'default'`, and page and size default to 1 and 25 |
| Gateway.SearchEntitiesByBody | utils/openalex.py:75-100 | a filter list holding a non-string raises TypeError before any request or cache use; otherwise the call behaves as `search_entities` under the normalised key; a clean cache stays clean |
| Gateway.WorksByAuthorSanitized | utils/openalex.py:103-112 | works are found exactly when the request succeeds and every record has an inverted index; found works are those records, sanitised |
| Gateway.SearchWorksByAuthorId | utils/openalex.py:103-112 | one request for the author's works with the work projection; the result is `WorksByAuthor` (None whenever anything raised) |
| Gateway.ResolvedField | utils/openalex.py:162-167 | a list field makes exactly one request, for its first 20 ids; a missing field or a non-list value raises with no request |
| Gateway.ResolveField | utils/openalex.py:162-167 | the method makes the request and gives the result or exception of `ResolvedField` |
| Gateway.CompletedWork | utils/openalex.py:158-167 | completing a work only appends to the request log |
| Gateway.Completed | utils/openalex.py:158-171 | types other than work and author are returned as fetched, with no further request |
| Gateway.CompletedWorkFields | utils/openalex.py:158-167 | see the list after the table |
| Gateway.CompletedAuthorFields | utils/openalex.py:169-171 | a completed author holds the found works under `works` and their collaborators, as dicts, under `collaborators`; other fields are unchanged |
| Gateway.SingleSpec | utils/openalex.py:144-173 | see the list after the table |
| Gateway.SingleRepeats | utils/openalex.py:144-173 | repeating a successful fetch returns the same dict from the cache, makes no request, and writes nothing |
| Gateway.GetSingleEntity | utils/openalex.py:143-175 | the reply, the new entity cache and the new request log are those of `SingleSpec`; the search cache is untouched; a clean cache stays clean |
| Gateway.CompleteWork | utils/openalex.py:158-167 | sanitising the fetched work and resolving its two lists gives the result or exception of `CompletedWork`, with the same requests |
| Gateway.CompleteAuthor | utils/openalex.py:169-171 | one request for the author's works; the result or exception is that of `CompletedAuthor` |
| Gateway.CompletedClean | utils/openalex.py:158-171 | a completed work has no inverted index, and a completed author lists its works without theirs |
| Gateway.SingleKeepsClean | utils/openalex.py:144-173 | if no cached work has an inverted index and no cached author lists a work with one, that stays true after a fetch; and a successful fetch of a work, from the cache or not, has no inverted index |
| Gateway.Remote.Search | utils/openalex.py:48-50 | the chained query is answered by the oracle and logged |
| Gateway.Remote.Fetch | utils/openalex.py:147 | `entities[type]()[id]` is answered by the oracle and logged |
| Gateway.Remote.Resolve | utils/openalex.py:162-167 | resolving ids with the three-field projection is answered by the oracle and logged |
| Gateway.Remote.AuthorWorks | utils/openalex.py:105-106 | the author's works query with the work projection is answered by the oracle and logged |
| Gateway.Cache.LookupSearch | utils/openalex.py:45 | the lookup finds a value exactly when the key is cached, and returns that value |
| Gateway.Cache.StoreSearch | utils/openalex.py:71 | only the search map changes, and only at the key |
| Gateway.Cache.LookupEntity | utils/openalex.py:144 | the lookup finds a value exactly when the key is cached, and returns that value |
| Gateway.Cache.StoreEntity | utils/openalex.py:173 | only the entity map changes, and only at the key |

What the longer rows state:

- **Gateway.SearchSpec**
  - A hit returns the cached dict, with no request and no write.
  - A miss writes exactly the dict it returns, and only on success.
  - An unknown type gives '未知错误' with no request.
  - A known type makes one request.
  - A failed request gives its message: a QueryError gives its own text, a 404 gives '不存在对应id的实体', any other HTTP error gives 'OpenAlex请求出错', and anything else gives '未知错误'.
- **Gateway.CompletedWorkFields**
  - A completed work has the rebuilt abstract and no inverted index.
  - Its referenced and related works are replaced by the records for their first 20 ids: one request each, in that order.
  - Every other field is unchanged.
- **Gateway.SingleSpec**
  - A hit returns the cached dict, with no request and no write.
  - A miss writes exactly the dict it returns, and only on success.
  - An unknown type gives '未知错误' with no request.
  - The first request is the fetch.
  - A failed fetch gives the same messages as a failed search request.

## Left out

- The pyalex client is not modelled: its HTTP requests, its paging, and how it rebuilds an abstract from the inverted index. Remote answers are the fixed functions of an `Oracle`, and rebuilding the abstract is its `invert` parameter. So a repeated request always gets the same answer.
- `utils/cache.py` is not part of this model. Each cache is a map keyed by the tuple of arguments. Key serialisation, expiry and storage are not modelled.
- The `print` calls that log errors are left out, because they do not affect the result.
- Concurrency is not modelled: there is one caller at a time, and no locking on the shared caches.
- Floating-point JSON numbers are left out, and with them Python's equality between a float and an int (`1.0 == 1`).
  - The check that skips the author's own authorship compares the id with the author id as strings: an id of any other type is never the author's.
  - A bool used as a dict key stands for the int key: `True` is the key 1 and `False` the key 0.
- Gateway.SearchEntitiesByBody: the body's fields are typed (`RequestBody`).
  - The `ValueError` that `int(...)` raises on a non-numeric page or size is not modelled.
  - Neither are a `None` position, or a filter or sort that is not a dict.
- Gateway.SearchEntitiesByBody, Normalize.NormalizeFilter and Normalize.NormalizeSort require distinct keys. This is the dict invariant of Python, not a restriction on callers.
- Gateway.ResolvedField: a `referenced_works` or `related_works` value that is not a list raises TypeError in the model. In Python, a string would be sliced and then looked up as a single id.
- Gateway.GetSingleEntity: aliasing is not modelled.
  - `calculate_collaborators` writes `cooperation_times` and `collaborative_works` into the author dicts inside the works list, so the returned `works` also shows them. The model leaves the works unchanged.
- Gateway.SearchEntitiesByBody: the loops update the caller's `filter` and `sort` dicts in place. The model normalises copies, so the caller's body is not changed.
- Gateway.FailureMessage: a QueryError with no arguments, which would raise IndexError on `e.args[0]`, is not modelled. The message is always the error's text.
