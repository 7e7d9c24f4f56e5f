// The cache-or-fetch gateway of utils/openalex.py: `search_entities`
// (lines 37-72), `search_entities_by_body` (lines 75-100),
// `search_works_by_author_id` (lines 103-112) and `get_single_entity`
// (lines 143-175).
//
// The remote OpenAlex client is an oracle: a fixed answer for every request,
// and a log of the requests made. The two caches are maps. Each gateway
// method is proved equal to a specification function over the old cache and
// the old log; the cache and failure behaviour is proved about those
// functions.

module Gateway {
  import opened PyValues
  import opened Entities
  import opened Normalize
  import opened Collaborators
  import opened Records

  // ---------------------------------------------------------------------------
  // Replies and failure messages

  const NotFoundMessage := "不存在对应id的实体"
  const RequestFailedMessage := "OpenAlex请求出错"
  const UnknownErrorMessage := "未知错误"

  /**
   * What a call gives its caller: `(result, True)`, `(message, False)`, or an
   * exception that escapes the function.
   */
  datatype Reply = Success(value: Dict) | Failure(message: string) | Raised(error: PyError)

  /** The message for an exception caught around the remote call (lines 51-60, 148-157). */
  function FailureMessage(e: PyError): string
  {
    match e
    case QueryError(m) => m
    case HttpError(status) => if status == 404 then NotFoundMessage else RequestFailedMessage
    case _ => UnknownErrorMessage
  }

  // ---------------------------------------------------------------------------
  // The remote client and the caches

  /** The chained pyalex query of lines 48-50. */
  datatype SearchQuery = SearchQuery(
    entity: EntityType, position: string, search: string, filter: Dict, sort: Dict,
    select: seq<string>, page: int, perPage: int)

  /** The fields selected when referenced and related works are resolved (lines 163, 166). */
  const ResolvedFields := ["id", "display_name", "publication_year"]

  datatype RemoteCall =
    | SearchRequest(query: SearchQuery)
    | FetchRequest(entity: EntityType, id: string)              // entities[type]()[id]
    | ResolveRequest(select: seq<string>, ids: seq<Json>)       // Works({'select': ...})[ids]
    | AuthorWorksRequest(authorId: string, select: seq<string>) // Works().filter(author=...).select(...).get()

  /** The remote's answer to every request; `invert` rebuilds an abstract from its inverted index. */
  datatype Oracle = Oracle(
    search: SearchQuery -> Result<(seq<Dict>, Dict)>,
    fetch: (EntityType, string) -> Result<Dict>,
    resolve: seq<Json> -> Result<seq<Dict>>,
    authorWorks: string -> Result<seq<Dict>>,
    invert: Json -> Json)

  /** The remote OpenAlex client: fixed answers, and the requests made so far. */
  class Remote {
    const oracle: Oracle
    var calls: seq<RemoteCall>

    constructor(oracle: Oracle)
      ensures this.oracle == oracle && calls == []
    {
      this.oracle := oracle;
      calls := [];
    }

    method Search(q: SearchQuery) returns (r: Result<(seq<Dict>, Dict)>)
      modifies this
      ensures r == oracle.search(q) && calls == old(calls) + [SearchRequest(q)]
    {
      calls := calls + [SearchRequest(q)];
      r := oracle.search(q);
    }

    method Fetch(t: EntityType, id: string) returns (r: Result<Dict>)
      modifies this
      ensures r == oracle.fetch(t, id) && calls == old(calls) + [FetchRequest(t, id)]
    {
      calls := calls + [FetchRequest(t, id)];
      r := oracle.fetch(t, id);
    }

    method Resolve(ids: seq<Json>) returns (r: Result<seq<Dict>>)
      modifies this
      ensures r == oracle.resolve(ids) && calls == old(calls) + [ResolveRequest(ResolvedFields, ids)]
    {
      calls := calls + [ResolveRequest(ResolvedFields, ids)];
      r := oracle.resolve(ids);
    }

    method AuthorWorks(authorId: string) returns (r: Result<seq<Dict>>)
      modifies this
      ensures r == oracle.authorWorks(authorId)
      ensures calls == old(calls) + [AuthorWorksRequest(authorId, Projection(Work))]
    {
      calls := calls + [AuthorWorksRequest(authorId, Projection(Work))];
      r := oracle.authorWorks(authorId);
    }
  }

  /** `(type, search, position, filter, sort, page, size)`, as passed to the search cache. */
  datatype SearchKey = SearchKey(
    typeName: string, search: string, position: string, filter: Dict, sort: Dict, page: int, size: int)

  /** `(type, id)`, as passed to the single-entity cache. */
  datatype EntityKey = EntityKey(typeName: string, id: string)

  /** Every record listed under `field` is a dict without an inverted index. */
  predicate ListedClean(d: Dict, field: string)
  {
    Get(d, field).Some? && Get(d, field).value.JList?
    && forall i :: 0 <= i < |Get(d, field).value.items| ==>
         Get(d, field).value.items[i].JObject? && !HasKey(Get(d, field).value.items[i].entries, AbstractIndexField)
  }

  /** Every cached page of works lists its records without their inverted index. */
  predicate SearchesClean(searches: map<SearchKey, Dict>)
  {
    forall key :: key in searches && EntityTypeOf(key.typeName) == Some(Work) ==> ListedClean(searches[key], "result")
  }

  /**
   * Every cached work has no inverted index, and every cached author lists
   * its works without theirs.
   */
  predicate EntitiesClean(entities: map<EntityKey, Dict>)
  {
    forall key :: key in entities ==>
      (EntityTypeOf(key.typeName) == Some(Work) ==> !HasKey(entities[key], AbstractIndexField))
      && (EntityTypeOf(key.typeName) == Some(Author) ==> ListedClean(entities[key], "works"))
  }

  /** The two caches of utils/cache.py, as maps. */
  class Cache {
    var searches: map<SearchKey, Dict>
    var entities: map<EntityKey, Dict>

    /** No cached work record carries an inverted index. */
    predicate Clean()
      reads this
    {
      SearchesClean(searches) && EntitiesClean(entities)
    }

    constructor()
      ensures searches == map[] && entities == map[]
      ensures Clean()
    {
      searches := map[];
      entities := map[];
    }

    method LookupSearch(key: SearchKey) returns (r: Option<Dict>)
      ensures r.Some? <==> key in searches
      ensures r.Some? ==> r.value == searches[key]
    {
      r := if key in searches then Some(searches[key]) else None;
    }

    method StoreSearch(key: SearchKey, value: Dict)
      modifies this
      ensures searches == old(searches)[key := value] && entities == old(entities)
    {
      searches := searches[key := value];
    }

    method LookupEntity(key: EntityKey) returns (r: Option<Dict>)
      ensures r.Some? <==> key in entities
      ensures r.Some? ==> r.value == entities[key]
    {
      r := if key in entities then Some(entities[key]) else None;
    }

    method StoreEntity(key: EntityKey, value: Dict)
      modifies this
      ensures entities == old(entities)[key := value] && searches == old(searches)
    {
      entities := entities[key := value];
    }
  }

  // ---------------------------------------------------------------------------
  // search_entities

  /**
   * The cache key of lines 39-45: an empty position becomes 'default', a
   * missing or empty filter or sort becomes {}.
   */
  function SearchKeyFor(typeName: string, search: string, position: string,
                        filter: Option<Dict>, sort: Option<Dict>, page: int, size: int): (k: SearchKey)
    ensures k.typeName == typeName && k.search == search && k.page == page && k.size == size
    ensures position == "" ==> k.position == DefaultPosition
    ensures position != "" ==> k.position == position
    ensures filter.Some? ==> k.filter == filter.value
    ensures filter.None? ==> k.filter == []
    ensures sort.Some? ==> k.sort == sort.value
    ensures sort.None? ==> k.sort == []
  {
    SearchKey(typeName, search, if position == "" then DefaultPosition else position,
              GetOr(filter, []), GetOr(sort, []), page, size)
  }

  /** The query of lines 48-50 for a known entity type. */
  function QueryFor(t: EntityType, key: SearchKey): SearchQuery
  {
    SearchQuery(t, key.position, key.search, key.filter, key.sort, Projection(t), key.page, key.size)
  }

  /**
   * Lines 61-70: work records sanitized, then the page dict built from the
   * meta dict; a missing meta field or abstract index raises.
   */
  function SearchPage(t: EntityType, records: seq<Dict>, meta: Dict, invert: Json -> Json): Result<Dict>
  {
    var sanitized := if t == Work then SanitizedAll(records, invert) else Ok(records);
    if sanitized.Err? then Err(sanitized.error)
    else if Get(meta, "count").None? then Err(KeyError("count"))
    else if Get(meta, "page").None? then Err(KeyError("page"))
    else if Get(meta, "per_page").None? then Err(KeyError("per_page"))
    else Ok(PageDict(Get(meta, "count").value, Get(meta, "page").value, Get(meta, "per_page").value,
                     sanitized.value))
  }

  /** `{'total': ..., 'page': ..., 'size': ..., 'result': ...}` (lines 65-70). */
  function PageDict(total: Json, current: Json, size: Json, records: seq<Dict>): (d: Dict)
    ensures Keys(d) == ["total", "page", "size", "result"]
    ensures Get(d, "total") == Some(total) && Get(d, "page") == Some(current) && Get(d, "size") == Some(size)
    ensures Get(d, "result") == Some(JList(Objects(records)))
  {
    var last := [("result", JList(Objects(records)))];
    var d := [("total", total), ("page", current), ("size", size)] + last;
    assert d[1..] == [("page", current), ("size", size)] + last;
    assert d[1..][1..] == [("size", size)] + last;
    assert d[1..][1..][1..] == last && last[1..] == [];
    assert Get(d[1..][1..], "result") == Get(last, "result") == Some(JList(Objects(records)));
    assert Get(d, "result") == Get(d[1..], "result") == Get(d[1..][1..], "result");
    assert Get(d, "size") == Get(d[1..], "size") == Get(d[1..][1..], "size") == Some(size);
    assert Get(d, "page") == Get(d[1..], "page") == Some(current);
    d
  }

  /** The page lists every returned record, in order; work records without their inverted index. */
  lemma SearchPageRecords(t: EntityType, records: seq<Dict>, meta: Dict, invert: Json -> Json)
    requires SearchPage(t, records, meta, invert).Ok?
    ensures Get(SearchPage(t, records, meta, invert).value, "result").Some?
    ensures var result := Get(SearchPage(t, records, meta, invert).value, "result").value;
            result.JList? && |result.items| == |records|
            && forall i :: 0 <= i < |records| ==>
                 result.items[i].JObject?
                 && (t != Work ==> result.items[i].entries == records[i])
                 && (t == Work ==> Ok(result.items[i].entries) == SanitizeWork(records[i], invert)
                                   && !HasKey(result.items[i].entries, AbstractIndexField))
  {
    if t == Work {
      SanitizedAllRecords(records, invert);
      forall i | 0 <= i < |records|
        ensures !HasKey(SanitizedAll(records, invert).value[i], AbstractIndexField)
      {
        SanitizedWork(records[i], invert, AbstractField);
      }
    }
  }

  /** Lines 61-70, step by step. */
  method BuildPage(t: EntityType, records: seq<Dict>, meta: Dict, invert: Json -> Json) returns (r: Result<Dict>)
    ensures r == SearchPage(t, records, meta, invert)
  {
    var listed := records;
    if t == Work {
      var sanitized := SanitizeWorks(records, invert);
      if sanitized.Err? {
        return Err(sanitized.error);
      }
      listed := sanitized.value;
    }
    var count, current, perPage := Get(meta, "count"), Get(meta, "page"), Get(meta, "per_page");
    if count.None? {
      return Err(KeyError("count"));
    } else if current.None? {
      return Err(KeyError("page"));
    } else if perPage.None? {
      return Err(KeyError("per_page"));
    }
    return Ok(PageDict(count.value, current.value, perPage.value, listed));
  }

  datatype SearchOutcome = SearchOutcome(reply: Reply, searches: map<SearchKey, Dict>, calls: seq<RemoteCall>)

  /**
   * `search_entities` under `key`, from the search cache and the request log
   * before the call.
   */
  function SearchSpec(searches: map<SearchKey, Dict>, oracle: Oracle, calls: seq<RemoteCall>, key: SearchKey)
    : (out: SearchOutcome)
    // a hit returns the cached dict, asks nothing, writes nothing
    ensures key in searches ==> out == SearchOutcome(Success(searches[key]), searches, calls)
    // a miss writes exactly the dict it returns, and only on success
    ensures key !in searches && out.reply.Success? ==> out.searches == searches[key := out.reply.value]
    ensures !out.reply.Success? ==> out.searches == searches
    // an unknown type fails without a request
    ensures key !in searches && EntityTypeOf(key.typeName).None? ==>
              out == SearchOutcome(Failure(UnknownErrorMessage), searches, calls)
    // a known type asks once, and a remote failure becomes its message
    ensures key !in searches && EntityTypeOf(key.typeName).Some? ==>
              var q := QueryFor(EntityTypeOf(key.typeName).value, key);
              out.calls == calls + [SearchRequest(q)]
              && (oracle.search(q).Err? ==> out.reply == Failure(FailureMessage(oracle.search(q).error)))
              && (oracle.search(q).Ok? ==> !out.reply.Failure?)
  {
    if key in searches then SearchOutcome(Success(searches[key]), searches, calls)
    else
      match EntityTypeOf(key.typeName)
      case None => SearchOutcome(Failure(FailureMessage(KeyError(key.typeName))), searches, calls)
      case Some(t) =>
        var q := QueryFor(t, key);
        var called := calls + [SearchRequest(q)];
        match oracle.search(q)
        case Err(e) => SearchOutcome(Failure(FailureMessage(e)), searches, called)
        case Ok(answer) =>
          match SearchPage(t, answer.0, answer.1, oracle.invert)
          case Err(e) => SearchOutcome(Raised(e), searches, called)
          case Ok(page) => SearchOutcome(Success(page), searches[key := page], called)
  }

  /** Asking again after a successful search gives the same dict, from the cache. */
  lemma SearchRepeats(searches: map<SearchKey, Dict>, oracle: Oracle, calls: seq<RemoteCall>, key: SearchKey)
    requires SearchSpec(searches, oracle, calls, key).reply.Success?
    ensures var first := SearchSpec(searches, oracle, calls, key);
            SearchSpec(first.searches, oracle, first.calls, key) == first
  {
  }

  /**
   * A search keeps the search cache clean, and a successful search for works,
   * hit or miss, lists its records without their inverted index.
   */
  lemma SearchKeepsClean(searches: map<SearchKey, Dict>, oracle: Oracle, calls: seq<RemoteCall>, key: SearchKey)
    requires SearchesClean(searches)
    ensures SearchesClean(SearchSpec(searches, oracle, calls, key).searches)
    ensures var out := SearchSpec(searches, oracle, calls, key);
            out.reply.Success? && EntityTypeOf(key.typeName) == Some(Work) ==> ListedClean(out.reply.value, "result")
  {
    var out := SearchSpec(searches, oracle, calls, key);
    if key !in searches && out.reply.Success? {
      var t := EntityTypeOf(key.typeName).value;
      var answer := oracle.search(QueryFor(t, key)).value;
      SearchPageRecords(t, answer.0, answer.1, oracle.invert);
    }
  }

  /** Lines 37-72. */
  method SearchEntities(cache: Cache, remote: Remote, typeName: string, search: string, position: string,
                        filter: Option<Dict>, sort: Option<Dict>, page: int, size: int)
    returns (reply: Reply)
    modifies cache, remote
    ensures var out := SearchSpec(old(cache.searches), remote.oracle, old(remote.calls),
                                  SearchKeyFor(typeName, search, position, filter, sort, page, size));
            reply == out.reply && cache.searches == out.searches && remote.calls == out.calls
    ensures cache.entities == old(cache.entities)
    ensures old(cache.Clean()) ==> cache.Clean()
  {
    var pos := position;
    if pos == "" {
      pos := DefaultPosition;
    }
    var f := if filter.None? then [] else filter.value;
    var s := if sort.None? then [] else sort.value;
    var key := SearchKey(typeName, search, pos, f, s, page, size);
    reply := SearchUnderKey(cache, remote, key);
    if old(cache.Clean()) {
      SearchKeepsClean(old(cache.searches), remote.oracle, old(remote.calls), key);
    }
  }

  /** Lines 44-71: the cached search under a complete key. */
  method SearchUnderKey(cache: Cache, remote: Remote, key: SearchKey) returns (reply: Reply)
    modifies cache, remote
    ensures var out := SearchSpec(old(cache.searches), remote.oracle, old(remote.calls), key);
            reply == out.reply && cache.searches == out.searches && remote.calls == out.calls
    ensures cache.entities == old(cache.entities)
  {
    var cached := cache.LookupSearch(key);
    if cached.Some? {
      return Success(cached.value);
    }
    var t := EntityTypeOf(key.typeName);
    if t.None? {
      return Failure(FailureMessage(KeyError(key.typeName)));
    }
    var answer := remote.Search(QueryFor(t.value, key));
    if answer.Err? {
      return Failure(FailureMessage(answer.error));
    }
    var built := BuildPage(t.value, answer.value.0, answer.value.1, remote.oracle.invert);
    if built.Err? {
      return Raised(built.error);
    }
    var result := built.value;
    cache.StoreSearch(key, result);
    return Success(result);
  }

  // ---------------------------------------------------------------------------
  // search_entities_by_body

  /**
   * The cache key `search_entities_by_body` searches under: body defaults
   * (lines 82-87), then the normalised filter and sort (lines 89-98); or the
   * TypeError of joining a list that holds a non-string.
   */
  function BodyKey(typeName: string, body: RequestBody): Result<SearchKey>
  {
    match NormalizedFilter(GetOr(body.filter, []))
    case Err(e) => Err(e)
    case Ok(filter) =>
      Ok(SearchKeyFor(typeName, GetOr(body.search, ""), GetOr(body.position, DefaultPosition),
                      Some(filter), Some(TruthyEntries(GetOr(body.sort, []))),
                      GetOr(body.page, DefaultPage), GetOr(body.size, DefaultSize)))
  }

  /**
   * The key searched under: the body's defaults, every filter key normalised,
   * and exactly the truthy sort entries.
   */
  lemma BodyKeyNormalised(typeName: string, body: RequestBody, k: string)
    requires body.filter.Some? ==> DistinctKeys(body.filter.value)
    requires body.sort.Some? ==> DistinctKeys(body.sort.value)
    requires BodyKey(typeName, body).Ok?
    ensures var key := BodyKey(typeName, body).value;
            var sort := GetOr(body.sort, []);
            Get(key.filter, k) == FilterValueAfter(Get(GetOr(body.filter, []), k))
            && Get(key.sort, k) == (if Get(sort, k).Some? && !Falsy(Get(sort, k).value) then Get(sort, k) else None)
            && key.typeName == typeName && key.search == GetOr(body.search, "")
            && key.position == (if body.position.None? || body.position.value == "" then DefaultPosition
                                else body.position.value)
            && key.page == GetOr(body.page, DefaultPage) && key.size == GetOr(body.size, DefaultSize)
  {
    NormalizedFilterLookup(GetOr(body.filter, []), k);
    TruthyEntriesLookup(GetOr(body.sort, []), k);
  }

  /** Lines 75-100. */
  method SearchEntitiesByBody(cache: Cache, remote: Remote, typeName: string, body: RequestBody)
    returns (reply: Reply)
    requires body.filter.Some? ==> DistinctKeys(body.filter.value)
    requires body.sort.Some? ==> DistinctKeys(body.sort.value)
    modifies cache, remote
    ensures BodyKey(typeName, body).Err? ==>
              reply == Raised(TypeError) && cache.searches == old(cache.searches)
              && remote.calls == old(remote.calls)
    ensures BodyKey(typeName, body).Ok? ==>
              var out := SearchSpec(old(cache.searches), remote.oracle, old(remote.calls),
                                    BodyKey(typeName, body).value);
              reply == out.reply && cache.searches == out.searches && remote.calls == out.calls
    ensures cache.entities == old(cache.entities)
    ensures old(cache.Clean()) ==> cache.Clean()
  {
    var search := GetOr(body.search, "");
    var position := GetOr(body.position, DefaultPosition);
    var page := GetOr(body.page, DefaultPage);
    var size := GetOr(body.size, DefaultSize);
    var filter := NormalizeFilter(GetOr(body.filter, []));
    if filter.Err? {
      return Raised(filter.error);
    }
    var sort := NormalizeSort(GetOr(body.sort, []));
    reply := SearchEntities(cache, remote, typeName, search, position, Some(filter.value), Some(sort), page, size);
  }

  // ---------------------------------------------------------------------------
  // search_works_by_author_id

  /** Lines 103-112: the author's sanitized work records, or None if anything raised. */
  function WorksByAuthor(oracle: Oracle, authorId: string): Option<seq<Dict>>
  {
    match oracle.authorWorks(authorId)
    case Err(_) => None
    case Ok(records) =>
      match SanitizedAll(records, oracle.invert)
      case Err(_) => None
      case Ok(works) => Some(works)
  }

  /** Found works are the remote's records, each without its inverted index. */
  lemma WorksByAuthorSanitized(oracle: Oracle, authorId: string)
    ensures WorksByAuthor(oracle, authorId).Some? <==>
              oracle.authorWorks(authorId).Ok?
              && forall i :: 0 <= i < |oracle.authorWorks(authorId).value| ==>
                   HasKey(oracle.authorWorks(authorId).value[i], AbstractIndexField)
    ensures WorksByAuthor(oracle, authorId).Some? ==>
              var records, works := oracle.authorWorks(authorId).value, WorksByAuthor(oracle, authorId).value;
              |works| == |records|
              && forall i :: 0 <= i < |works| ==>
                   !HasKey(works[i], AbstractIndexField) && Ok(works[i]) == SanitizeWork(records[i], oracle.invert)
  {
    if oracle.authorWorks(authorId).Ok? {
      var records := oracle.authorWorks(authorId).value;
      SanitizedAllRaises(records, oracle.invert);
      if SanitizedAll(records, oracle.invert).Ok? {
        SanitizedAllRecords(records, oracle.invert);
        forall i | 0 <= i < |records|
          ensures !HasKey(SanitizedAll(records, oracle.invert).value[i], AbstractIndexField)
        {
          SanitizedWork(records[i], oracle.invert, AbstractField);
        }
      }
    }
  }

  /** Lines 103-112. */
  method SearchWorksByAuthorId(remote: Remote, authorId: string) returns (works: Option<seq<Dict>>)
    modifies remote
    ensures works == WorksByAuthor(remote.oracle, authorId)
    ensures remote.calls == old(remote.calls) + [AuthorWorksRequest(authorId, Projection(Work))]
  {
    var answer := remote.AuthorWorks(authorId);
    if answer.Err? {
      return None;
    }
    var sanitized := SanitizeWorks(answer.value, remote.oracle.invert);
    if sanitized.Err? {
      return None;
    }
    return Some(sanitized.value);
  }

  // ---------------------------------------------------------------------------
  // get_single_entity

  /** A partial result and the requests made so far. */
  datatype Step = Step(result: Result<Dict>, calls: seq<RemoteCall>)

  /**
   * Lines 162-167 for one field: its first 20 ids resolved into records.
   * A missing field, a non-list value or a failed request raises.
   */
  function ResolvedField(r: Dict, field: string, oracle: Oracle, calls: seq<RemoteCall>): (s: Step)
    ensures Get(r, field).Some? && Get(r, field).value.JList? ==>
              s.calls == calls + [ResolveRequest(ResolvedFields, FirstIds(Get(r, field).value.items))]
              && (s.result.Ok? <==> oracle.resolve(FirstIds(Get(r, field).value.items)).Ok?)
    ensures !(Get(r, field).Some? && Get(r, field).value.JList?) ==> s.calls == calls && s.result.Err?
  {
    match Get(r, field)
    case None => Step(Err(KeyError(field)), calls)
    case Some(v) =>
      if !v.JList? then Step(Err(TypeError), calls)
      else
        var ids := FirstIds(v.items);
        var called := calls + [ResolveRequest(ResolvedFields, ids)];
        match oracle.resolve(ids)
        case Err(e) => Step(Err(e), called)
        case Ok(works) => Step(Ok(Set(r, field, JList(Objects(works)))), called)
  }

  /** Lines 158-167: a work record sanitized, then its referenced and related works resolved. */
  function CompletedWork(record: Dict, oracle: Oracle, calls: seq<RemoteCall>): (s: Step)
    ensures |s.calls| >= |calls| && s.calls[..|calls|] == calls
  {
    match SanitizeWork(record, oracle.invert)
    case Err(e) => Step(Err(e), calls)
    case Ok(r) =>
      var referenced := ResolvedField(r, "referenced_works", oracle, calls);
      if referenced.result.Err? then referenced
      else ResolvedField(referenced.result.value, "related_works", oracle, referenced.calls)
  }

  /**
   * Lines 169-171: the author's works attached, then the collaborators
   * computed from them; `calculate_collaborators(None, id)` raises TypeError.
   */
  function CompletedAuthor(record: Dict, authorId: string, works: Option<seq<Dict>>): Result<Dict>
  {
    if works.None? then Err(TypeError)
    else
      var withWorks := Set(record, "works", JList(Objects(works.value)));
      match CalculatedCollaborators(works.value, authorId)
      case Err(e) => Err(e)
      case Ok(cs) =>
        Ok(Set(withWorks, "collaborators", JList(seq(|cs|, i requires 0 <= i < |cs| => CollaboratorJson(cs[i])))))
  }

  /** Lines 158-171 for any entity type: only works and authors are completed. */
  function Completed(t: EntityType, id: string, record: Dict, oracle: Oracle, calls: seq<RemoteCall>): (s: Step)
    ensures |s.calls| >= |calls| && s.calls[..|calls|] == calls
    ensures t != Work && t != Author ==> s == Step(Ok(record), calls)
  {
    if t == Work then CompletedWork(record, oracle, calls)
    else if t == Author then
      Step(CompletedAuthor(record, id, WorksByAuthor(oracle, id)),
           calls + [AuthorWorksRequest(id, Projection(Work))])
    else Step(Ok(record), calls)
  }

  /**
   * A completed work: the rebuilt abstract instead of the inverted index, and
   * referenced and related works replaced by the records of their first 20
   * ids, one request each, in that order; every other field as fetched.
   */
  lemma CompletedWorkFields(record: Dict, oracle: Oracle, calls: seq<RemoteCall>, k: string)
    requires CompletedWork(record, oracle, calls).result.Ok?
    ensures HasKey(record, AbstractIndexField)
    ensures Get(record, "referenced_works").Some? && Get(record, "referenced_works").value.JList?
    ensures Get(record, "related_works").Some? && Get(record, "related_works").value.JList?
    ensures var referenced := FirstIds(Get(record, "referenced_works").value.items);
            var related := FirstIds(Get(record, "related_works").value.items);
            var s := CompletedWork(record, oracle, calls);
            s.calls == calls + [ResolveRequest(ResolvedFields, referenced), ResolveRequest(ResolvedFields, related)]
            && oracle.resolve(referenced).Ok? && oracle.resolve(related).Ok?
            && Get(s.result.value, "referenced_works") == Some(JList(Objects(oracle.resolve(referenced).value)))
            && Get(s.result.value, "related_works") == Some(JList(Objects(oracle.resolve(related).value)))
            && !HasKey(s.result.value, AbstractIndexField)
            && Get(s.result.value, AbstractField) == Some(oracle.invert(Get(record, AbstractIndexField).value))
            && (k !in {"referenced_works", "related_works", AbstractField, AbstractIndexField} ==>
                  Get(s.result.value, k) == Get(record, k))
  {
    var sanitized := SanitizeWork(record, oracle.invert);
    SanitizedWork(record, oracle.invert, k);
    SanitizedWork(record, oracle.invert, "referenced_works");
    SanitizedWork(record, oracle.invert, "related_works");
    var r := sanitized.value;
    var first := ResolvedField(r, "referenced_works", oracle, calls);
    var v1 := Get(r, "referenced_works").value;
    var r1 := Set(r, "referenced_works", JList(Objects(oracle.resolve(FirstIds(v1.items)).value)));
    assert first.result == Ok(r1);
    SetOthers(r, "referenced_works", JList(Objects(oracle.resolve(FirstIds(v1.items)).value)), "related_works");
    SetOthers(r, "referenced_works", JList(Objects(oracle.resolve(FirstIds(v1.items)).value)), AbstractField);
    SetOthers(r, "referenced_works", JList(Objects(oracle.resolve(FirstIds(v1.items)).value)), AbstractIndexField);
    var v2 := Get(r1, "related_works").value;
    var r2 := Set(r1, "related_works", JList(Objects(oracle.resolve(FirstIds(v2.items)).value)));
    SetOthers(r1, "related_works", JList(Objects(oracle.resolve(FirstIds(v2.items)).value)), "referenced_works");
    SetOthers(r1, "related_works", JList(Objects(oracle.resolve(FirstIds(v2.items)).value)), AbstractField);
    SetOthers(r1, "related_works", JList(Objects(oracle.resolve(FirstIds(v2.items)).value)), AbstractIndexField);
    if k !in {"referenced_works", "related_works", AbstractField, AbstractIndexField} {
      SetOthers(r, "referenced_works", JList(Objects(oracle.resolve(FirstIds(v1.items)).value)), k);
      SetOthers(r1, "related_works", JList(Objects(oracle.resolve(FirstIds(v2.items)).value)), k);
    }
  }

  /**
   * A completed author: the found works under "works" and the collaborators
   * computed from them under "collaborators"; every other field as fetched.
   */
  lemma CompletedAuthorFields(record: Dict, authorId: string, works: Option<seq<Dict>>, k: string)
    requires CompletedAuthor(record, authorId, works).Ok?
    ensures works.Some? && CalculatedCollaborators(works.value, authorId).Ok?
    ensures var r := CompletedAuthor(record, authorId, works).value;
            var cs := CalculatedCollaborators(works.value, authorId).value;
            Get(r, "works") == Some(JList(Objects(works.value)))
            && Get(r, "collaborators").Some? && Get(r, "collaborators").value.JList?
            && |Get(r, "collaborators").value.items| == |cs|
            && (forall i :: 0 <= i < |cs| ==> Get(r, "collaborators").value.items[i] == CollaboratorJson(cs[i]))
            && (k != "works" && k != "collaborators" ==> Get(r, k) == Get(record, k))
  {
    var withWorks := Set(record, "works", JList(Objects(works.value)));
    var cs := CalculatedCollaborators(works.value, authorId).value;
    var listed := JList(seq(|cs|, i requires 0 <= i < |cs| => CollaboratorJson(cs[i])));
    SetOthers(withWorks, "collaborators", listed, "works");
    if k != "works" && k != "collaborators" {
      SetOthers(withWorks, "collaborators", listed, k);
      SetOthers(record, "works", JList(Objects(works.value)), k);
    }
  }

  datatype SingleOutcome = SingleOutcome(reply: Reply, entities: map<EntityKey, Dict>, calls: seq<RemoteCall>)

  /**
   * `get_single_entity` under `key`, from the entity cache and the request log
   * before the call.
   */
  function SingleSpec(entities: map<EntityKey, Dict>, oracle: Oracle, calls: seq<RemoteCall>, key: EntityKey)
    : (out: SingleOutcome)
    // a hit returns the cached dict, asks nothing, writes nothing
    ensures key in entities ==> out == SingleOutcome(Success(entities[key]), entities, calls)
    // a miss writes exactly the dict it returns, and only on success
    ensures key !in entities && out.reply.Success? ==> out.entities == entities[key := out.reply.value]
    ensures !out.reply.Success? ==> out.entities == entities
    // an unknown type fails without a request
    ensures key !in entities && EntityTypeOf(key.typeName).None? ==>
              out == SingleOutcome(Failure(UnknownErrorMessage), entities, calls)
    // a known type fetches first, and a failed fetch becomes its message
    ensures key !in entities && EntityTypeOf(key.typeName).Some? ==>
              var t := EntityTypeOf(key.typeName).value;
              |out.calls| > |calls| && out.calls[..|calls| + 1] == calls + [FetchRequest(t, key.id)]
              && (oracle.fetch(t, key.id).Err? ==>
                    out.reply == Failure(FailureMessage(oracle.fetch(t, key.id).error)))
              && (oracle.fetch(t, key.id).Ok? ==> !out.reply.Failure?)
  {
    if key in entities then SingleOutcome(Success(entities[key]), entities, calls)
    else
      match EntityTypeOf(key.typeName)
      case None => SingleOutcome(Failure(FailureMessage(KeyError(key.typeName))), entities, calls)
      case Some(t) =>
        var called := calls + [FetchRequest(t, key.id)];
        match oracle.fetch(t, key.id)
        case Err(e) => SingleOutcome(Failure(FailureMessage(e)), entities, called)
        case Ok(record) =>
          var done := Completed(t, key.id, record, oracle, called);
          match done.result
          case Err(e) => SingleOutcome(Raised(e), entities, done.calls)
          case Ok(r) => SingleOutcome(Success(r), entities[key := r], done.calls)
  }

  /** Asking again after a successful fetch gives the same dict, from the cache. */
  lemma SingleRepeats(entities: map<EntityKey, Dict>, oracle: Oracle, calls: seq<RemoteCall>, key: EntityKey)
    requires SingleSpec(entities, oracle, calls, key).reply.Success?
    ensures var first := SingleSpec(entities, oracle, calls, key);
            SingleSpec(first.entities, oracle, first.calls, key) == first
  {
  }

  /** A completed work has no inverted index; a completed author lists its works without theirs. */
  lemma CompletedClean(t: EntityType, id: string, record: Dict, oracle: Oracle, calls: seq<RemoteCall>)
    requires Completed(t, id, record, oracle, calls).result.Ok?
    ensures t == Work ==> !HasKey(Completed(t, id, record, oracle, calls).result.value, AbstractIndexField)
    ensures t == Author ==> ListedClean(Completed(t, id, record, oracle, calls).result.value, "works")
  {
    if t == Work {
      CompletedWorkFields(record, oracle, calls, AbstractField);
    } else if t == Author {
      CompletedAuthorFields(record, id, WorksByAuthor(oracle, id), "works");
      WorksByAuthorSanitized(oracle, id);
    }
  }

  /**
   * A fetch keeps the entity cache clean: a successful work reply, hit or
   * miss, has no inverted index, and an author reply lists its works without
   * theirs.
   */
  lemma SingleKeepsClean(entities: map<EntityKey, Dict>, oracle: Oracle, calls: seq<RemoteCall>, key: EntityKey)
    requires EntitiesClean(entities)
    ensures EntitiesClean(SingleSpec(entities, oracle, calls, key).entities)
    ensures var out := SingleSpec(entities, oracle, calls, key);
            out.reply.Success? ==>
              (EntityTypeOf(key.typeName) == Some(Work) ==> !HasKey(out.reply.value, AbstractIndexField))
              && (EntityTypeOf(key.typeName) == Some(Author) ==> ListedClean(out.reply.value, "works"))
  {
    if key !in entities && EntityTypeOf(key.typeName).Some? {
      var t := EntityTypeOf(key.typeName).value;
      if oracle.fetch(t, key.id).Ok? {
        var called := calls + [FetchRequest(t, key.id)];
        var done := Completed(t, key.id, oracle.fetch(t, key.id).value, oracle, called);
        if done.result.Ok? {
          CompletedClean(t, key.id, oracle.fetch(t, key.id).value, oracle, called);
          assert SingleSpec(entities, oracle, calls, key).entities == entities[key := done.result.value];
          assert SingleSpec(entities, oracle, calls, key).reply == Success(done.result.value);
        }
      }
    }
  }

  /** Lines 143-175. */
  method GetSingleEntity(cache: Cache, remote: Remote, typeName: string, id: string) returns (reply: Reply)
    modifies cache, remote
    ensures var out := SingleSpec(old(cache.entities), remote.oracle, old(remote.calls), EntityKey(typeName, id));
            reply == out.reply && cache.entities == out.entities && remote.calls == out.calls
    ensures cache.searches == old(cache.searches)
    ensures old(cache.Clean()) ==> cache.Clean()
  {
    var key := EntityKey(typeName, id);
    ghost var wasClean := cache.Clean();
    if wasClean {
      SingleKeepsClean(cache.entities, remote.oracle, remote.calls, key);
    }
    var cached := cache.LookupEntity(key);
    if cached.Some? {
      return Success(cached.value);
    }
    var t := EntityTypeOf(typeName);
    if t.None? {
      return Failure(FailureMessage(KeyError(typeName)));
    }
    var fetched := remote.Fetch(t.value, id);
    if fetched.Err? {
      return Failure(FailureMessage(fetched.error));
    }
    var result := fetched.value;
    if t.value == Work {
      var raised;
      result, raised := CompleteWork(remote, result);
      if raised.Some? {
        return Raised(raised.value);
      }
    }
    if t.value == Author {
      var raised;
      result, raised := CompleteAuthor(remote, result, id);
      if raised.Some? {
        return Raised(raised.value);
      }
    }
    cache.StoreEntity(key, result);
    return Success(result);
  }

  /** Lines 158-167: the fetched work sanitized, then its referenced and related works resolved. */
  method CompleteWork(remote: Remote, record: Dict) returns (result: Dict, raised: Option<PyError>)
    modifies remote
    ensures var step := CompletedWork(record, remote.oracle, old(remote.calls));
            remote.calls == step.calls
            && (step.result.Err? ==> raised == Some(step.result.error))
            && (step.result.Ok? ==> raised.None? && result == step.result.value)
  {
    var sanitized := SanitizeWork(record, remote.oracle.invert);
    if sanitized.Err? {
      return record, Some(sanitized.error);
    }
    result, raised := ResolveField(remote, sanitized.value, "referenced_works");
    if raised.Some? {
      return;
    }
    result, raised := ResolveField(remote, result, "related_works");
  }

  /** Lines 169-171: the author's works fetched and attached, then their collaborators. */
  method CompleteAuthor(remote: Remote, record: Dict, id: string) returns (result: Dict, raised: Option<PyError>)
    modifies remote
    ensures remote.calls == old(remote.calls) + [AuthorWorksRequest(id, Projection(Work))]
    ensures var done := CompletedAuthor(record, id, WorksByAuthor(remote.oracle, id));
            (done.Err? ==> raised == Some(done.error)) && (done.Ok? ==> raised.None? && result == done.value)
  {
    var works := SearchWorksByAuthorId(remote, id);
    if works.None? {
      return record, Some(TypeError);
    }
    result := Set(record, "works", JList(Objects(works.value)));
    var collaborators := CalculateCollaborators(works.value, id);
    if collaborators.Err? {
      return result, Some(collaborators.error);
    }
    var cs := collaborators.value;
    result := Set(result, "collaborators", JList(seq(|cs|, i requires 0 <= i < |cs| => CollaboratorJson(cs[i]))));
    return result, None;
  }

  /** `result[field] = Works(...)[result[field][0:20]]` (lines 162-167). */
  method ResolveField(remote: Remote, r: Dict, field: string) returns (result: Dict, raised: Option<PyError>)
    modifies remote
    ensures var step := ResolvedField(r, field, remote.oracle, old(remote.calls));
            remote.calls == step.calls
            && (step.result.Err? ==> raised == Some(step.result.error))
            && (step.result.Ok? ==> raised.None? && result == step.result.value)
  {
    var value := Get(r, field);
    if value.None? {
      return r, Some(KeyError(field));
    }
    if !value.value.JList? {
      return r, Some(TypeError);
    }
    var works := remote.Resolve(FirstIds(value.value.items));
    if works.Err? {
      return r, Some(works.error);
    }
    return Set(r, field, JList(Objects(works.value))), None;
  }
}
