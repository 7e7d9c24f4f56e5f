// `calculate_collaborators` (utils/openalex.py:115-140): the co-authors of an
// author, tallied over the author's works and sorted by how often they
// co-authored.
//
// The model reads the work records the way the Python code does (`work[...]`,
// `for author in ...`, `author['author']`, `author['id']`), so a malformed
// record raises the same exception. Every authorship that is not the author's
// own is an Occurrence; the collaborators are a tally of the occurrences.

module Collaborators {
  import opened PyValues

  /** `{'id': work['id'], 'display_name': work['display_name']}`. */
  datatype WorkRef = WorkRef(id: Json, displayName: Json)

  /**
   * One collaborator: the first author dict seen under its id, with
   * `cooperation_times` and `collaborative_works`.
   */
  datatype Collaborator = Collaborator(author: Dict, times: nat, works: seq<WorkRef>)

  /** An authorship that is not the queried author's own: its dict key, author dict and work. */
  datatype Occurrence = Occurrence(key: Json, author: Dict, work: WorkRef)

  // ---------------------------------------------------------------------------
  // Reading records the Python way

  /** `for x in v`: a list gives its items, a string its characters, a dict its keys. */
  function Iterate(v: Json): Result<seq<Json>>
  {
    match v
    case JList(items) => Ok(items)
    case JStr(s) => Ok(seq(|s|, i requires 0 <= i < |s| => JStr([s[i]])))
    case JObject(entries) => Ok(seq(|entries|, i requires 0 <= i < |entries| => JStr(entries[i].0)))
    case _ => Err(TypeError)
  }

  /** `v[key]` with a string key: only a dict can answer it. */
  function Subscript(v: Json, key: string): (r: Result<Json>)
    ensures r.Ok? ==> v.JObject? && Get(v.entries, key) == Some(r.value)
    ensures r.Err? ==> r.error == if v.JObject? then KeyError(key) else TypeError
    ensures v.JObject? && HasKey(v.entries, key) ==> r == Ok(Get(v.entries, key).value)
  {
    if !v.JObject? then Err(TypeError)
    else if Get(v.entries, key).None? then Err(KeyError(key))
    else Ok(Get(v.entries, key).value)
  }

  /** Lists and dicts cannot be dict keys. */
  predicate Hashable(v: Json)
  {
    !v.JList? && !v.JObject?
  }

  /** The dict key a value stands for: True is the key 1 and False the key 0. */
  function KeyOf(v: Json): Json
  {
    if v.JBool? then JInt(if v.b then 1 else 0) else v
  }

  /**
   * One turn of the inner loop (lines 124-136) for `item` of `work`: None for
   * the author's own authorship, else the occurrence it adds, or the exception
   * it raises.
   */
  function AuthorshipOccurrence(item: Json, work: Dict, authorId: string): Result<Option<Occurrence>>
  {
    match Subscript(item, "author")
    case Err(e) => Err(e)
    case Ok(author) =>
      match Subscript(author, "id")
      case Err(e) => Err(e)
      case Ok(id) =>
        if id == JStr(authorId) then Ok(None)
        else if !Hashable(id) then Err(TypeError)
        else if Get(work, "id").None? then Err(KeyError("id"))
        else if Get(work, "display_name").None? then Err(KeyError("display_name"))
        else Ok(Some(Occurrence(KeyOf(id), author.entries,
                                WorkRef(Get(work, "id").value, Get(work, "display_name").value))))
  }

  /** The occurrences of the authorship items `items` of `work`, in order. */
  function OccurrencesIn(items: seq<Json>, work: Dict, authorId: string): Result<seq<Occurrence>>
  {
    if items == [] then Ok([])
    else
      match OccurrencesIn(items[..|items| - 1], work, authorId)
      case Err(e) => Err(e)
      case Ok(occs) =>
        match AuthorshipOccurrence(items[|items| - 1], work, authorId)
        case Err(e) => Err(e)
        case Ok(None) => Ok(occs)
        case Ok(Some(o)) => Ok(occs + [o])
  }

  /** The occurrences of one work: `for author in work['authorships']`. */
  function WorkOccurrences(work: Dict, authorId: string): Result<seq<Occurrence>>
  {
    match Get(work, "authorships")
    case None => Err(KeyError("authorships"))
    case Some(v) =>
      match Iterate(v)
      case Err(e) => Err(e)
      case Ok(items) => OccurrencesIn(items, work, authorId)
  }

  /** The occurrences of all works, in the order of the two loops. */
  function Occurrences(works: seq<Dict>, authorId: string): Result<seq<Occurrence>>
  {
    if works == [] then Ok([])
    else
      match Occurrences(works[..|works| - 1], authorId)
      case Err(e) => Err(e)
      case Ok(occs) =>
        match WorkOccurrences(works[|works| - 1], authorId)
        case Err(e) => Err(e)
        case Ok(more) => Ok(occs + more)
  }

  /** Once the items up to n raise, the whole loop raises the same exception. */
  lemma {:induction false} OccurrencesInRaises(items: seq<Json>, work: Dict, authorId: string, n: nat)
    requires n <= |items| && OccurrencesIn(items[..n], work, authorId).Err?
    ensures OccurrencesIn(items, work, authorId) == OccurrencesIn(items[..n], work, authorId)
    decreases |items|
  {
    if n < |items| {
      assert items[..|items| - 1][..n] == items[..n];
      OccurrencesInRaises(items[..|items| - 1], work, authorId, n);
    } else {
      assert items[..n] == items;
    }
  }

  /** Once the works up to n raise, the whole loop raises the same exception. */
  lemma {:induction false} OccurrencesRaises(works: seq<Dict>, authorId: string, n: nat)
    requires n <= |works| && Occurrences(works[..n], authorId).Err?
    ensures Occurrences(works, authorId) == Occurrences(works[..n], authorId)
    decreases |works|
  {
    if n < |works| {
      assert works[..|works| - 1][..n] == works[..n];
      OccurrencesRaises(works[..|works| - 1], authorId, n);
    } else {
      assert works[..n] == works;
    }
  }

  /** An occurrence as produced from a record of a co-author other than `authorId`. */
  predicate FromCoAuthor(o: Occurrence, authorId: string)
  {
    Get(o.author, "id").Some? && Get(o.author, "id").value != JStr(authorId)
    && Hashable(Get(o.author, "id").value) && KeyOf(Get(o.author, "id").value) == o.key
  }

  lemma {:induction false} OccurrencesInFromCoAuthors(items: seq<Json>, work: Dict, authorId: string)
    requires OccurrencesIn(items, work, authorId).Ok?
    ensures forall o :: o in OccurrencesIn(items, work, authorId).value ==> FromCoAuthor(o, authorId)
  {
    if items != [] {
      OccurrencesInFromCoAuthors(items[..|items| - 1], work, authorId);
    }
  }

  lemma {:induction false} OccurrencesFromCoAuthors(works: seq<Dict>, authorId: string)
    requires Occurrences(works, authorId).Ok?
    ensures forall o :: o in Occurrences(works, authorId).value ==> FromCoAuthor(o, authorId)
  {
    if works != [] {
      OccurrencesFromCoAuthors(works[..|works| - 1], authorId);
      var last := works[|works| - 1];
      var items := Iterate(Get(last, "authorships").value).value;
      OccurrencesInFromCoAuthors(items, last, authorId);
    }
  }

  // ---------------------------------------------------------------------------
  // The tally: the `collaborators` dict after the loops

  /** The dict's keys in insertion order: each key where it first occurs. */
  function FirstSeen(occs: seq<Occurrence>): seq<Json>
  {
    if occs == [] then []
    else
      var before := FirstSeen(occs[..|occs| - 1]);
      var k := occs[|occs| - 1].key;
      if k in before then before else before + [k]
  }

  /** `collaborative_works` under key k: the works of its occurrences, in order. */
  function RefsOf(occs: seq<Occurrence>, k: Json): seq<WorkRef>
  {
    if occs == [] then []
    else
      var last := occs[|occs| - 1];
      RefsOf(occs[..|occs| - 1], k) + (if last.key == k then [last.work] else [])
  }

  /** The author dict stored under key k: the one of its first occurrence. */
  function FirstAuthor(occs: seq<Occurrence>, k: Json): Dict
  {
    if occs == [] then []
    else if k in FirstSeen(occs[..|occs| - 1]) then FirstAuthor(occs[..|occs| - 1], k)
    else if occs[|occs| - 1].key == k then occs[|occs| - 1].author
    else []
  }

  /** The reference value of the collaborator under key k. */
  function Summary(occs: seq<Occurrence>, k: Json): Collaborator
  {
    Collaborator(FirstAuthor(occs, k), |RefsOf(occs, k)|, RefsOf(occs, k))
  }

  /** `collaborators.values()`: one summary per key, in insertion order. */
  function Tally(occs: seq<Occurrence>): seq<Collaborator>
  {
    var ks := FirstSeen(occs);
    seq(|ks|, i requires 0 <= i < |ks| => Summary(occs, ks[i]))
  }

  /** What one more occurrence does to the keys, the works lists and the stored dicts. */
  lemma TallyStep(occs: seq<Occurrence>, o: Occurrence, k: Json)
    ensures FirstSeen(occs + [o])
         == if o.key in FirstSeen(occs) then FirstSeen(occs) else FirstSeen(occs) + [o.key]
    ensures RefsOf(occs + [o], k) == RefsOf(occs, k) + (if o.key == k then [o.work] else [])
    ensures FirstAuthor(occs + [o], k)
         == if k in FirstSeen(occs) then FirstAuthor(occs, k)
            else if o.key == k then o.author else []
  {
    assert (occs + [o])[..|occs|] == occs;
  }

  /** A key has been seen exactly when it has works. */
  lemma {:induction false} SeenIffWorks(occs: seq<Occurrence>, k: Json)
    ensures k in FirstSeen(occs) <==> RefsOf(occs, k) != []
  {
    if occs != [] {
      SeenIffWorks(occs[..|occs| - 1], k);
    }
  }

  /** A key has been seen exactly when some occurrence carries it. */
  lemma {:induction false} SeenIffOccurs(occs: seq<Occurrence>, k: Json)
    ensures k in FirstSeen(occs) <==> exists o :: o in occs && o.key == k
  {
    if occs != [] {
      var front := occs[..|occs| - 1];
      SeenIffOccurs(front, k);
      assert occs == front + [occs[|occs| - 1]];
      if exists o :: o in occs && o.key == k {
        var o :| o in occs && o.key == k;
        assert o in front || o == occs[|occs| - 1];
      }
    }
  }

  /** Insertion order never repeats a key. */
  lemma {:induction false} FirstSeenDistinct(occs: seq<Occurrence>)
    ensures forall i, j :: 0 <= i < j < |FirstSeen(occs)| ==> FirstSeen(occs)[i] != FirstSeen(occs)[j]
  {
    if occs != [] {
      FirstSeenDistinct(occs[..|occs| - 1]);
    }
  }

  /** The dict stored under a seen key is the author dict of the key's first occurrence. */
  lemma {:induction false} FirstAuthorOccurs(occs: seq<Occurrence>, k: Json)
    requires k in FirstSeen(occs)
    ensures exists i :: 0 <= i < |occs| && occs[i].key == k && occs[i].author == FirstAuthor(occs, k)
                        && forall j :: 0 <= j < i ==> occs[j].key != k
  {
    var front := occs[..|occs| - 1];
    if k in FirstSeen(front) {
      FirstAuthorOccurs(front, k);
      var i :| 0 <= i < |front| && front[i].key == k && front[i].author == FirstAuthor(front, k)
               && forall j :: 0 <= j < i ==> front[j].key != k;
      assert occs[i] == front[i];
      forall j | 0 <= j < i ensures occs[j].key != k {
        assert occs[j] == front[j];
      }
    } else {
      SeenIffOccurs(front, k);
      forall j | 0 <= j < |occs| - 1 ensures occs[j].key != k {
        assert occs[j] == front[j] && front[j] in front;
      }
    }
  }

  // ---------------------------------------------------------------------------
  // sorted(collaborators.values(), key=cooperation_times, reverse=True)

  /**
   * Python's sort is stable, also with reverse=True: c, which came first,
   * goes before every entry it is not below.
   */
  function Insert(c: Collaborator, s: seq<Collaborator>): seq<Collaborator>
  {
    if s == [] || s[0].times <= c.times then [c] + s
    else [s[0]] + Insert(c, s[1..])
  }

  function SortByTimes(s: seq<Collaborator>): seq<Collaborator>
  {
    if s == [] then [] else Insert(s[0], SortByTimes(s[1..]))
  }

  predicate Descending(s: seq<Collaborator>)
  {
    forall i, j :: 0 <= i < j < |s| ==> s[i].times >= s[j].times
  }

  /** The entries with `cooperation_times == t`, in order. */
  function WithTimes(s: seq<Collaborator>, t: nat): seq<Collaborator>
  {
    if s == [] then [] else (if s[0].times == t then [s[0]] else []) + WithTimes(s[1..], t)
  }

  function SumTimes(s: seq<Collaborator>): nat
  {
    if s == [] then 0 else s[0].times + SumTimes(s[1..])
  }

  lemma {:induction false} InsertPermutes(c: Collaborator, s: seq<Collaborator>)
    ensures multiset(Insert(c, s)) == multiset(s) + multiset{c}
    ensures Insert(c, s)[0] == c || Insert(c, s)[0] == s[0]
  {
    if s != [] && s[0].times > c.times {
      InsertPermutes(c, s[1..]);
      assert s == [s[0]] + s[1..];
    }
  }

  lemma {:induction false} InsertDescending(c: Collaborator, s: seq<Collaborator>)
    requires Descending(s)
    ensures Descending(Insert(c, s))
  {
    if s == [] || s[0].times <= c.times {
      DescendingHead(s);
      ConsDescending(c, s);
    } else {
      DescendingTail(s);
      DescendingHead(s);
      InsertDescending(c, s[1..]);
      InsertMembers(c, s[1..]);
      ConsDescending(s[0], Insert(c, s[1..]));
    }
  }

  lemma ConsDescending(x: Collaborator, u: seq<Collaborator>)
    requires Descending(u)
    requires forall y :: y in u ==> x.times >= y.times
    ensures Descending([x] + u)
  {
    var r := [x] + u;
    forall i, j | 0 <= i < j < |r| ensures r[i].times >= r[j].times {
      if i > 0 {
        assert r[i] == u[i - 1] && r[j] == u[j - 1];
      } else {
        assert r[j] in u;
      }
    }
  }

  lemma DescendingHead(s: seq<Collaborator>)
    requires Descending(s)
    ensures forall y :: y in s ==> s[0].times >= y.times
  {
    forall y | y in s ensures s[0].times >= y.times {
      var j :| 0 <= j < |s| && s[j] == y;
    }
  }

  lemma {:induction false} InsertWithTimes(c: Collaborator, s: seq<Collaborator>, t: nat)
    requires Descending(s)
    ensures WithTimes(Insert(c, s), t) == (if c.times == t then [c] else []) + WithTimes(s, t)
  {
    if s == [] || s[0].times <= c.times {
      WithTimesCons(c, s, t);
    } else {
      var u := s[1..];
      DescendingTail(s);
      InsertWithTimes(c, u, t);
      WithTimesCons(s[0], Insert(c, u), t);
      WithTimesCons(s[0], u, t);
      assert s == [s[0]] + u;
      if c.times == t {
        assert s[0].times != t;
      }
    }
  }

  lemma WithTimesCons(x: Collaborator, s: seq<Collaborator>, t: nat)
    ensures WithTimes([x] + s, t) == (if x.times == t then [x] else []) + WithTimes(s, t)
  {
    assert ([x] + s)[1..] == s;
  }

  lemma DescendingTail(s: seq<Collaborator>)
    requires Descending(s) && s != []
    ensures Descending(s[1..])
  {
    var u := s[1..];
    forall i, j | 0 <= i < j < |u| ensures u[i].times >= u[j].times {
      assert u[i] == s[i + 1] && u[j] == s[j + 1];
    }
  }

  lemma {:induction false} InsertSum(c: Collaborator, s: seq<Collaborator>)
    ensures SumTimes(Insert(c, s)) == c.times + SumTimes(s)
  {
    if s == [] || s[0].times <= c.times {
      assert ([c] + s)[1..] == s;
    } else {
      InsertSum(c, s[1..]);
      assert ([s[0]] + Insert(c, s[1..]))[1..] == Insert(c, s[1..]);
    }
  }

  /** The sorted list is a permutation of the input, in descending order of times. */
  lemma {:induction false} SortByTimesSorts(s: seq<Collaborator>)
    ensures Descending(SortByTimes(s))
    ensures multiset(SortByTimes(s)) == multiset(s)
  {
    if s != [] {
      SortByTimesSorts(s[1..]);
      InsertDescending(s[0], SortByTimes(s[1..]));
      InsertPermutes(s[0], SortByTimes(s[1..]));
      assert s == [s[0]] + s[1..];
    }
  }

  /** Stability: the entries with equal times keep their input order. */
  lemma {:induction false} SortByTimesStable(s: seq<Collaborator>, t: nat)
    ensures WithTimes(SortByTimes(s), t) == WithTimes(s, t)
  {
    if s != [] {
      SortByTimesStable(s[1..], t);
      SortByTimesSorts(s[1..]);
      InsertWithTimes(s[0], SortByTimes(s[1..]), t);
    }
  }

  lemma {:induction false} SortByTimesSum(s: seq<Collaborator>)
    ensures SumTimes(SortByTimes(s)) == SumTimes(s)
  {
    if s != [] {
      SortByTimesSum(s[1..]);
      InsertSum(s[0], SortByTimes(s[1..]));
    }
  }

  // ---------------------------------------------------------------------------
  // calculate_collaborators

  /** What `calculate_collaborators(works, authorId)` returns or raises. */
  function CalculatedCollaborators(works: seq<Dict>, authorId: string): Result<seq<Collaborator>>
  {
    match Occurrences(works, authorId)
    case Err(e) => Err(e)
    case Ok(occs) => Ok(SortByTimes(Tally(occs)))
  }

  /**
   * Lines 128-136 for occurrence o: a new key starts its entry from the
   * author dict with no works, then the entry is counted and the work appended.
   */
  function Counted(table: map<Json, Collaborator>, o: Occurrence): map<Json, Collaborator>
  {
    var c := if o.key in table then table[o.key] else Collaborator(o.author, 0, []);
    table[o.key := Collaborator(c.author, c.times + 1, c.works + [o.work])]
  }

  /** The `collaborators` dict after counting `occs` one by one. */
  function TallyMap(occs: seq<Occurrence>): map<Json, Collaborator>
  {
    if occs == [] then map[] else Counted(TallyMap(occs[..|occs| - 1]), occs[|occs| - 1])
  }

  /** The dict and key order after counting `occs` into `table`, whose keys were `keys`. */
  function CountedFrom(table: map<Json, Collaborator>, occs: seq<Occurrence>): map<Json, Collaborator>
  {
    if occs == [] then table else Counted(CountedFrom(table, occs[..|occs| - 1]), occs[|occs| - 1])
  }

  function KeysFrom(keys: seq<Json>, table: map<Json, Collaborator>, occs: seq<Occurrence>): seq<Json>
  {
    if occs == [] then keys
    else
      var before, o := KeysFrom(keys, table, occs[..|occs| - 1]), occs[|occs| - 1];
      if o.key in CountedFrom(table, occs[..|occs| - 1]) then before else before + [o.key]
  }

  lemma CountedFromNext(keys: seq<Json>, table: map<Json, Collaborator>, occs: seq<Occurrence>, o: Occurrence)
    ensures CountedFrom(table, occs + [o]) == Counted(CountedFrom(table, occs), o)
    ensures KeysFrom(keys, table, occs + [o])
         == if o.key in CountedFrom(table, occs) then KeysFrom(keys, table, occs) else KeysFrom(keys, table, occs) + [o.key]
  {
    assert (occs + [o])[..|occs|] == occs;
  }

  /** Counting more occurrences into the tally of `prior` gives the tally of both. */
  lemma {:induction false} FoldFrom(prior: seq<Occurrence>, occs: seq<Occurrence>)
    ensures CountedFrom(TallyMap(prior), occs) == TallyMap(prior + occs)
    ensures KeysFrom(FirstSeen(prior), TallyMap(prior), occs) == FirstSeen(prior + occs)
  {
    if occs == [] {
      assert prior + occs == prior;
    } else {
      var front, o := occs[..|occs| - 1], occs[|occs| - 1];
      FoldFrom(prior, front);
      assert occs == front + [o];
      AppendOne(prior, front, o);
      CountedFromNext(FirstSeen(prior), TallyMap(prior), front, o);
      TallyNext(prior + front, o, FirstSeen(prior + front), TallyMap(prior + front));
    }
  }

  lemma TallyMapNext(occs: seq<Occurrence>, o: Occurrence)
    ensures TallyMap(occs + [o]) == Counted(TallyMap(occs), o)
  {
    assert (occs + [o])[..|occs|] == occs;
  }

  /** The dict holds exactly the first-seen keys. */
  lemma {:induction false} TallyMapKeys(occs: seq<Occurrence>, k: Json)
    ensures k in TallyMap(occs) <==> k in FirstSeen(occs)
  {
    if occs != [] {
      TallyMapKeys(occs[..|occs| - 1], k);
    }
  }

  /** Counting one by one gives the closed-form summary under every key. */
  lemma {:induction false} TallyMapSummary(occs: seq<Occurrence>, k: Json)
    requires k in TallyMap(occs)
    ensures TallyMap(occs)[k] == Summary(occs, k)
  {
    var front, o := occs[..|occs| - 1], occs[|occs| - 1];
    assert occs == front + [o];
    TallyStep(front, o, k);
    TallyMapKeys(front, k);
    if k in TallyMap(front) {
      TallyMapSummary(front, k);
    } else {
      SeenIffWorks(front, k);
    }
  }

  /** `collaborators.values()`: the dict's entries in key order are the tally. */
  lemma TallyValues(occs: seq<Occurrence>)
    ensures forall i :: 0 <= i < |FirstSeen(occs)| ==> FirstSeen(occs)[i] in TallyMap(occs)
    ensures forall i :: 0 <= i < |FirstSeen(occs)| ==> TallyMap(occs)[FirstSeen(occs)[i]] == Tally(occs)[i]
  {
    forall i | 0 <= i < |FirstSeen(occs)|
      ensures FirstSeen(occs)[i] in TallyMap(occs)
      ensures TallyMap(occs)[FirstSeen(occs)[i]] == Tally(occs)[i]
    {
      TallyMapKeys(occs, FirstSeen(occs)[i]);
      TallyMapSummary(occs, FirstSeen(occs)[i]);
    }
  }

  /** The occurrences of the items up to ai + 1, from those up to ai. */
  lemma OccurrencesInNext(items: seq<Json>, work: Dict, authorId: string, ai: nat)
    requires ai < |items| && OccurrencesIn(items[..ai], work, authorId).Ok?
    ensures OccurrencesIn(items[..ai + 1], work, authorId)
         == match AuthorshipOccurrence(items[ai], work, authorId)
            case Err(e) => Err(e)
            case Ok(None) => OccurrencesIn(items[..ai], work, authorId)
            case Ok(Some(o)) => Ok(OccurrencesIn(items[..ai], work, authorId).value + [o])
  {
    assert items[..ai + 1][..ai] == items[..ai];
  }

  /** The dict and its key order after counting one more occurrence. */
  lemma TallyNext(occs: seq<Occurrence>, o: Occurrence, keys: seq<Json>, table: map<Json, Collaborator>)
    requires keys == FirstSeen(occs) && table == TallyMap(occs)
    ensures Counted(table, o) == TallyMap(occs + [o])
    ensures (if o.key in table then keys else keys + [o.key]) == FirstSeen(occs + [o])
  {
    TallyMapKeys(occs, o.key);
    TallyStep(occs, o, o.key);
    TallyMapNext(occs, o);
  }

  /**
   * Lines 128-136 for a co-author under `key`: enter the author dict with no
   * count and no works if the key is new, count it, then append the work's
   * id and display name (KeyError if the work lacks either).
   */
  method CountCoAuthor(keys0: seq<Json>, table0: map<Json, Collaborator>, key: Json, author: Dict, work: Dict)
    returns (keys: seq<Json>, table: map<Json, Collaborator>, raised: Option<PyError>)
    ensures Get(work, "id").None? ==> raised == Some(KeyError("id"))
    ensures Get(work, "id").Some? && Get(work, "display_name").None? ==> raised == Some(KeyError("display_name"))
    ensures Get(work, "id").Some? && Get(work, "display_name").Some? ==>
              raised.None?
              && keys == (if key in table0 then keys0 else keys0 + [key])
              && table == Counted(table0, Occurrence(key, author, WorkRef(Get(work, "id").value, Get(work, "display_name").value)))
  {
    keys, table := keys0, table0;
    if key !in table {
      table := table[key := Collaborator(author, 0, [])];
      keys := keys + [key];
    }
    table := table[key := table[key].(times := table[key].times + 1)];
    var workId := Get(work, "id");
    if workId.None? {
      return keys, table, Some(KeyError("id"));
    }
    var workName := Get(work, "display_name");
    if workName.None? {
      return keys, table, Some(KeyError("display_name"));
    }
    var ref := WorkRef(workId.value, workName.value);
    table := table[key := table[key].(works := table[key].works + [ref])];
    return keys, table, None;
  }

  /** Lines 124-136: the inner loop over the authorships `items` of `work`, counting into keys0 and table0. */
  method TallyAuthorships(work: Dict, items: seq<Json>, authorId: string,
                          keys0: seq<Json>, table0: map<Json, Collaborator>)
    returns (keys: seq<Json>, table: map<Json, Collaborator>, raised: Option<PyError>)
    ensures OccurrencesIn(items, work, authorId).Err? ==> raised == Some(OccurrencesIn(items, work, authorId).error)
    ensures OccurrencesIn(items, work, authorId).Ok? ==>
              raised.None? && keys == KeysFrom(keys0, table0, OccurrencesIn(items, work, authorId).value)
              && table == CountedFrom(table0, OccurrencesIn(items, work, authorId).value)
  {
    keys, table := keys0, table0;
    ghost var within: seq<Occurrence> := [];
    assert OccurrencesIn(items[..0], work, authorId) == Ok([]) by {
      assert items[..0] == [];
    }
    var ai := 0;
    while ai < |items|
      invariant ai <= |items|
      invariant OccurrencesIn(items[..ai], work, authorId) == Ok(within)
      invariant keys == KeysFrom(keys0, table0, within) && table == CountedFrom(table0, within)
    {
      OccurrencesInNext(items, work, authorId, ai);
      ghost var found := AuthorshipOccurrence(items[ai], work, authorId);
      var raised;
      keys, table, raised := CountAuthorship(items[ai], work, authorId, keys, table);
      if raised.Some? {
        OccurrencesInRaises(items, work, authorId, ai + 1);
        return keys, table, raised;
      }
      if found.value.Some? {
        CountedFromNext(keys0, table0, within, found.value.value);
        within := within + [found.value.value];
      }
      ai := ai + 1;
    }
    assert items[..ai] == items;
    return keys, table, None;
  }

  lemma AppendOne(a: seq<Occurrence>, b: seq<Occurrence>, o: Occurrence)
    ensures a + b + [o] == a + (b + [o])
  {
  }

  /** Lines 124-136 for one authorship item: skip the author, count a co-author, or raise. */
  method CountAuthorship(item: Json, work: Dict, authorId: string,
                         keys0: seq<Json>, table0: map<Json, Collaborator>)
    returns (keys: seq<Json>, table: map<Json, Collaborator>, raised: Option<PyError>)
    ensures match AuthorshipOccurrence(item, work, authorId)
            case Err(e) => raised == Some(e)
            case Ok(None) => raised.None? && keys == keys0 && table == table0
            case Ok(Some(o)) =>
              raised.None? && keys == (if o.key in table0 then keys0 else keys0 + [o.key])
              && table == Counted(table0, o)
  {
    keys, table := keys0, table0;
    var author := Subscript(item, "author");
    if author.Err? {
      return keys, table, Some(author.error);
    }
    var id := Subscript(author.value, "id");
    if id.Err? {
      return keys, table, Some(id.error);
    }
    if id.value == JStr(authorId) {
      return keys, table, None;
    }
    if !Hashable(id.value) {
      return keys, table, Some(TypeError);
    }
    var key := KeyOf(id.value);
    keys, table, raised := CountCoAuthor(keys, table, key, author.value.entries, work);
  }

  /** Lines 124-136 for one work: its authorships read, then counted into keys0 and table0. */
  method TallyWork(work: Dict, authorId: string, keys0: seq<Json>, table0: map<Json, Collaborator>)
    returns (keys: seq<Json>, table: map<Json, Collaborator>, raised: Option<PyError>)
    ensures WorkOccurrences(work, authorId).Err? ==> raised == Some(WorkOccurrences(work, authorId).error)
    ensures WorkOccurrences(work, authorId).Ok? ==>
              raised.None? && keys == KeysFrom(keys0, table0, WorkOccurrences(work, authorId).value)
              && table == CountedFrom(table0, WorkOccurrences(work, authorId).value)
  {
    keys, table := keys0, table0;
    var authorships := Get(work, "authorships");
    if authorships.None? {
      return keys, table, Some(KeyError("authorships"));
    }
    var iterated := Iterate(authorships.value);
    if iterated.Err? {
      return keys, table, Some(iterated.error);
    }
    keys, table, raised := TallyAuthorships(work, iterated.value, authorId, keys, table);
  }

  /** The two loops of lines 123-136, then the sort of lines 137-139. */
  method CalculateCollaborators(works: seq<Dict>, authorId: string) returns (r: Result<seq<Collaborator>>)
    ensures r == CalculatedCollaborators(works, authorId)
  {
    var keys: seq<Json> := [];
    var table: map<Json, Collaborator> := map[];
    ghost var occs: seq<Occurrence> := [];
    var wi := 0;
    while wi < |works|
      invariant wi <= |works|
      invariant Occurrences(works[..wi], authorId) == Ok(occs)
      invariant keys == FirstSeen(occs) && table == TallyMap(occs)
    {
      var work := works[wi];
      assert works[..wi + 1][..wi] == works[..wi];
      var raised;
      keys, table, raised := TallyWork(work, authorId, keys, table);
      if raised.Some? {
        OccurrencesRaises(works, authorId, wi + 1);
        return Err(raised.value);
      }
      FoldFrom(occs, WorkOccurrences(work, authorId).value);
      occs := occs + WorkOccurrences(work, authorId).value;
      wi := wi + 1;
    }
    assert works[..wi] == works;
    TallyValues(occs);
    var values := seq(|keys|, i requires 0 <= i < |keys| => table[keys[i]]);
    assert values == Tally(occs);
    return Ok(SortByTimes(values));
  }

  // ---------------------------------------------------------------------------
  // What calculate_collaborators promises

  /** The dict key that a collaborator's author id stands for. */
  function IdKey(c: Collaborator): Json
  {
    if Get(c.author, "id").Some? then KeyOf(Get(c.author, "id").value) else JNull
  }

  predicate DistinctIds(s: seq<Collaborator>)
  {
    forall i, j :: 0 <= i < j < |s| ==> IdKey(s[i]) != IdKey(s[j])
  }

  /** Entry i of the tally is the summary of the i-th first-seen key, a co-author's. */
  lemma TallyEntry(occs: seq<Occurrence>, authorId: string, i: int)
    requires forall o :: o in occs ==> FromCoAuthor(o, authorId)
    requires 0 <= i < |Tally(occs)|
    ensures Get(Tally(occs)[i].author, "id").Some?
    ensures Get(Tally(occs)[i].author, "id").value != JStr(authorId)
    ensures IdKey(Tally(occs)[i]) == FirstSeen(occs)[i]
    ensures Tally(occs)[i] == Summary(occs, FirstSeen(occs)[i])
  {
    FirstAuthorOccurs(occs, FirstSeen(occs)[i]);
    var n :| 0 <= n < |occs| && occs[n].key == FirstSeen(occs)[i] && occs[n].author == FirstAuthor(occs, FirstSeen(occs)[i]);
    assert occs[n] in occs;
  }

  lemma TallyDistinct(occs: seq<Occurrence>, authorId: string)
    requires forall o :: o in occs ==> FromCoAuthor(o, authorId)
    ensures DistinctIds(Tally(occs))
  {
    FirstSeenDistinct(occs);
    forall i, j | 0 <= i < j < |Tally(occs)|
      ensures IdKey(Tally(occs)[i]) != IdKey(Tally(occs)[j])
    {
      TallyEntry(occs, authorId, i);
      TallyEntry(occs, authorId, j);
    }
  }

  lemma {:induction false} InsertMembers(c: Collaborator, s: seq<Collaborator>)
    ensures forall x :: x in Insert(c, s) <==> x == c || x in s
  {
    if s != [] && s[0].times > c.times {
      InsertMembers(c, s[1..]);
      assert s == [s[0]] + s[1..];
    }
  }

  lemma {:induction false} InsertDistinct(c: Collaborator, s: seq<Collaborator>)
    requires DistinctIds(s)
    requires forall x :: x in s ==> IdKey(x) != IdKey(c)
    ensures DistinctIds(Insert(c, s))
  {
    if s == [] || s[0].times <= c.times {
      ConsDistinct(c, s);
    } else {
      var t := s[1..];
      DistinctTail(s);
      InsertDistinct(c, t);
      InsertMembers(c, t);
      assert s[0] in s;
      ConsDistinct(s[0], Insert(c, t));
    }
  }

  lemma ConsDistinct(x: Collaborator, u: seq<Collaborator>)
    requires DistinctIds(u)
    requires forall y :: y in u ==> IdKey(y) != IdKey(x)
    ensures DistinctIds([x] + u)
  {
    var r := [x] + u;
    forall i, j | 0 <= i < j < |r| ensures IdKey(r[i]) != IdKey(r[j]) {
      if i > 0 {
        assert r[i] == u[i - 1] && r[j] == u[j - 1];
      } else {
        assert r[j] in u;
      }
    }
  }

  lemma DistinctTail(s: seq<Collaborator>)
    requires DistinctIds(s) && s != []
    ensures DistinctIds(s[1..])
    ensures forall y :: y in s[1..] ==> IdKey(y) != IdKey(s[0])
  {
    var t := s[1..];
    forall i, j | 0 <= i < j < |t| ensures IdKey(t[i]) != IdKey(t[j]) {
      assert t[i] == s[i + 1] && t[j] == s[j + 1];
    }
    forall y | y in t ensures IdKey(y) != IdKey(s[0]) {
      var j :| 0 <= j < |t| && t[j] == y;
      assert s[j + 1] == y;
    }
  }

  lemma {:induction false} SortByTimesDistinct(s: seq<Collaborator>)
    requires DistinctIds(s)
    ensures DistinctIds(SortByTimes(s))
  {
    if s != [] {
      var t := s[1..];
      assert DistinctIds(t) by {
        forall i, j | 0 <= i < j < |t| ensures IdKey(t[i]) != IdKey(t[j]) {
          assert t[i] == s[i + 1] && t[j] == s[j + 1];
        }
      }
      SortByTimesDistinct(t);
      SortByTimesSorts(t);
      assert forall x :: x in SortByTimes(t) ==> IdKey(x) != IdKey(s[0]) by {
        forall x | x in SortByTimes(t) ensures IdKey(x) != IdKey(s[0]) {
          assert x in multiset(t);
          var j :| 0 <= j < |t| && t[j] == x;
          assert s[j + 1] == x;
        }
      }
      InsertDistinct(s[0], SortByTimes(s[1..]));
    }
  }

  /** Lines 126-127: the queried author is never among the collaborators. */
  lemma NoSelfCollaborator(works: seq<Dict>, authorId: string)
    requires CalculatedCollaborators(works, authorId).Ok?
    ensures forall c :: c in CalculatedCollaborators(works, authorId).value ==>
              Get(c.author, "id").Some? && Get(c.author, "id").value != JStr(authorId)
  {
    var occs := Occurrences(works, authorId).value;
    OccurrencesFromCoAuthors(works, authorId);
    SortByTimesSorts(Tally(occs));
    forall c | c in CalculatedCollaborators(works, authorId).value
      ensures Get(c.author, "id").Some? && Get(c.author, "id").value != JStr(authorId)
    {
      assert c in multiset(Tally(occs));
      var i :| 0 <= i < |Tally(occs)| && Tally(occs)[i] == c;
      TallyEntry(occs, authorId, i);
    }
  }

  /**
   * Lines 128-136: a collaborator's count is the number of its works, at
   * least one, and its works are those of its authorships in input order.
   */
  lemma TimesCountWorks(works: seq<Dict>, authorId: string)
    requires CalculatedCollaborators(works, authorId).Ok?
    ensures forall c :: c in CalculatedCollaborators(works, authorId).value ==>
              c.times == |c.works| >= 1
              && c.works == RefsOf(Occurrences(works, authorId).value, IdKey(c))
  {
    var occs := Occurrences(works, authorId).value;
    OccurrencesFromCoAuthors(works, authorId);
    SortByTimesSorts(Tally(occs));
    forall c | c in CalculatedCollaborators(works, authorId).value
      ensures c.times == |c.works| >= 1 && c.works == RefsOf(occs, IdKey(c))
    {
      assert c in multiset(Tally(occs));
      var i :| 0 <= i < |Tally(occs)| && Tally(occs)[i] == c;
      TallyEntry(occs, authorId, i);
      SeenIffWorks(occs, FirstSeen(occs)[i]);
    }
  }

  /** Exactly one collaborator per co-author id that occurs. */
  lemma OneEntryPerCoAuthor(works: seq<Dict>, authorId: string)
    requires CalculatedCollaborators(works, authorId).Ok?
    ensures DistinctIds(CalculatedCollaborators(works, authorId).value)
    ensures forall o :: o in Occurrences(works, authorId).value ==>
              exists c :: c in CalculatedCollaborators(works, authorId).value && IdKey(c) == o.key
  {
    var occs := Occurrences(works, authorId).value;
    OccurrencesFromCoAuthors(works, authorId);
    TallyDistinct(occs, authorId);
    SortByTimesDistinct(Tally(occs));
    SortByTimesSorts(Tally(occs));
    forall o | o in occs
      ensures exists c :: c in CalculatedCollaborators(works, authorId).value && IdKey(c) == o.key
    {
      SeenIffOccurs(occs, o.key);
      var i :| 0 <= i < |FirstSeen(occs)| && FirstSeen(occs)[i] == o.key;
      TallyEntry(occs, authorId, i);
      assert Tally(occs)[i] in multiset(SortByTimes(Tally(occs)));
    }
  }

  /** Lines 137-139: descending counts, a permutation of the dict's values, ties in insertion order. */
  lemma SortedByCooperationTimes(works: seq<Dict>, authorId: string, t: nat)
    requires CalculatedCollaborators(works, authorId).Ok?
    ensures Descending(CalculatedCollaborators(works, authorId).value)
    ensures multiset(CalculatedCollaborators(works, authorId).value)
         == multiset(Tally(Occurrences(works, authorId).value))
    ensures WithTimes(CalculatedCollaborators(works, authorId).value, t)
         == WithTimes(Tally(Occurrences(works, authorId).value), t)
  {
    SortByTimesSorts(Tally(Occurrences(works, authorId).value));
    SortByTimesStable(Tally(Occurrences(works, authorId).value), t);
  }

  /** The number of works recorded under the keys ks. */
  function SumWorks(occs: seq<Occurrence>, ks: seq<Json>): nat
  {
    if ks == [] then 0 else |RefsOf(occs, ks[0])| + SumWorks(occs, ks[1..])
  }

  lemma {:induction false} SumSummaries(occs: seq<Occurrence>, ks: seq<Json>)
    ensures SumTimes(seq(|ks|, i requires 0 <= i < |ks| => Summary(occs, ks[i]))) == SumWorks(occs, ks)
  {
    if ks != [] {
      var s := seq(|ks|, i requires 0 <= i < |ks| => Summary(occs, ks[i]));
      assert s[1..] == seq(|ks[1..]|, i requires 0 <= i < |ks[1..]| => Summary(occs, ks[1..][i]));
      SumSummaries(occs, ks[1..]);
    }
  }

  lemma {:induction false} SumWorksAppend(occs: seq<Occurrence>, ks: seq<Json>, k: Json)
    ensures SumWorks(occs, ks + [k]) == SumWorks(occs, ks) + |RefsOf(occs, k)|
  {
    if ks != [] {
      assert (ks + [k])[1..] == ks[1..] + [k];
      SumWorksAppend(occs, ks[1..], k);
    } else {
      assert [k][1..] == [];
    }
  }

  /** One more occurrence adds one work under its key, if that key is among ks. */
  lemma {:induction false} SumWorksStep(occs: seq<Occurrence>, o: Occurrence, ks: seq<Json>)
    requires forall i, j :: 0 <= i < j < |ks| ==> ks[i] != ks[j]
    ensures SumWorks(occs + [o], ks) == SumWorks(occs, ks) + (if o.key in ks then 1 else 0)
  {
    if ks != [] {
      TallyStep(occs, o, ks[0]);
      SumWorksStep(occs, o, ks[1..]);
      if ks[0] == o.key {
        assert o.key !in ks[1..] by {
          forall j | 0 <= j < |ks[1..]| ensures ks[1..][j] != o.key {
            assert ks[1..][j] == ks[j + 1];
          }
        }
      }
      assert ks == [ks[0]] + ks[1..];
    }
  }

  /** Every occurrence is counted once: the works recorded add up to the occurrences. */
  lemma {:induction false} TallyCountsAll(occs: seq<Occurrence>)
    ensures SumWorks(occs, FirstSeen(occs)) == |occs|
  {
    if occs != [] {
      var front, o := occs[..|occs| - 1], occs[|occs| - 1];
      assert occs == front + [o];
      TallyCountsAll(front);
      FirstSeenDistinct(front);
      SumWorksStep(front, o, FirstSeen(front));
      if o.key !in FirstSeen(front) {
        SumWorksAppend(occs, FirstSeen(front), o.key);
        TallyStep(front, o, o.key);
        SeenIffWorks(front, o.key);
      }
    }
  }

  /**
   * Lines 128-136: the counts of all collaborators add up to the number of
   * authorships, over all works, that are not the queried author's.
   */
  lemma CooperationTimesSum(works: seq<Dict>, authorId: string)
    requires CalculatedCollaborators(works, authorId).Ok?
    ensures SumTimes(CalculatedCollaborators(works, authorId).value) == |Occurrences(works, authorId).value|
  {
    var occs := Occurrences(works, authorId).value;
    SortByTimesSum(Tally(occs));
    SumSummaries(occs, FirstSeen(occs));
    TallyCountsAll(occs);
  }

  /** Line 122: no works, or none with a co-author, give no collaborators, and only then. */
  lemma NoCoAuthorsNoCollaborators(works: seq<Dict>, authorId: string)
    ensures works == [] ==> CalculatedCollaborators(works, authorId) == Ok([])
    ensures CalculatedCollaborators(works, authorId).Ok? ==>
              (CalculatedCollaborators(works, authorId).value == [] <==> Occurrences(works, authorId).value == [])
  {
    if CalculatedCollaborators(works, authorId).Ok? {
      var occs := Occurrences(works, authorId).value;
      SortByTimesSorts(Tally(occs));
      assert |SortByTimes(Tally(occs))| == |Tally(occs)| by {
        assert |multiset(SortByTimes(Tally(occs)))| == |multiset(Tally(occs))|;
      }
      if occs != [] {
        assert occs[|occs| - 1].key in FirstSeen(occs);
      }
    }
  }
}
