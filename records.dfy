// What the gateway does to records after the remote client returns them:
// work records trade `abstract_inverted_index` for `abstract`
// (utils/openalex.py:61-64, 107-109, 158-160), a single work's reference lists
// are cut to their first 20 ids (lines 162-167), and collaborators become
// dicts again (lines 129-136).

module Records {
  import opened PyValues
  import opened Entities
  import opened Collaborators

  /** Only this many referenced or related works are resolved. */
  const MaxResolved := 20

  /**
   * `r['abstract'] = r['abstract']; del r['abstract_inverted_index']`. Reading
   * `abstract` makes the client rebuild the text from the inverted index,
   * `invert(index)`; a record without the index raises KeyError.
   */
  function SanitizeWork(r: Dict, invert: Json -> Json): Result<Dict>
  {
    match Get(r, AbstractIndexField)
    case None => Err(KeyError(AbstractIndexField))
    case Some(index) => Ok(Remove(Set(r, AbstractField, invert(index)), AbstractIndexField))
  }

  /** A sanitized work record: no inverted index, the rebuilt abstract, every other field as it was. */
  lemma SanitizedWork(r: Dict, invert: Json -> Json, k: string)
    ensures SanitizeWork(r, invert).Err? <==> !HasKey(r, AbstractIndexField)
    ensures SanitizeWork(r, invert).Ok? ==>
              var s := SanitizeWork(r, invert).value;
              !HasKey(s, AbstractIndexField)
              && Get(s, AbstractField) == Some(invert(Get(r, AbstractIndexField).value))
              && (k != AbstractField && k != AbstractIndexField ==> Get(s, k) == Get(r, k))
  {
    if HasKey(r, AbstractIndexField) {
      var withAbstract := Set(r, AbstractField, invert(Get(r, AbstractIndexField).value));
      RemoveOthers(withAbstract, AbstractIndexField, AbstractField);
      if k != AbstractField && k != AbstractIndexField {
        SetOthers(r, AbstractField, invert(Get(r, AbstractIndexField).value), k);
        RemoveOthers(withAbstract, AbstractIndexField, k);
      }
    }
  }

  /** Sanitizing keeps a dict a dict. */
  lemma SanitizedDistinct(r: Dict, invert: Json -> Json)
    requires DistinctKeys(r) && SanitizeWork(r, invert).Ok?
    ensures DistinctKeys(SanitizeWork(r, invert).value)
  {
    var withAbstract := Set(r, AbstractField, invert(Get(r, AbstractIndexField).value));
    SetDistinct(r, AbstractField, invert(Get(r, AbstractIndexField).value));
    RemoveDistinct(withAbstract, AbstractIndexField);
  }

  /** `for r in result: ...` over a list of work records: the first record without an index raises. */
  function SanitizedAll(records: seq<Dict>, invert: Json -> Json): Result<seq<Dict>>
  {
    if records == [] then Ok([])
    else
      match SanitizedAll(records[..|records| - 1], invert)
      case Err(e) => Err(e)
      case Ok(done) =>
        match SanitizeWork(records[|records| - 1], invert)
        case Err(e) => Err(e)
        case Ok(s) => Ok(done + [s])
  }

  /** Every record of a sanitized list is its input record, sanitized. */
  lemma {:induction false} SanitizedAllRecords(records: seq<Dict>, invert: Json -> Json)
    requires SanitizedAll(records, invert).Ok?
    ensures |SanitizedAll(records, invert).value| == |records|
    ensures forall i :: 0 <= i < |records| ==>
              SanitizeWork(records[i], invert) == Ok(SanitizedAll(records, invert).value[i])
  {
    if records != [] {
      var front, last := records[..|records| - 1], records[|records| - 1];
      SanitizedAllRecords(front, invert);
      var done, s := SanitizedAll(front, invert).value, SanitizeWork(last, invert).value;
      assert SanitizedAll(records, invert).value == done + [s];
      forall i | 0 <= i < |records| ensures SanitizeWork(records[i], invert) == Ok((done + [s])[i]) {
        if i < |front| {
          assert records[i] == front[i] && (done + [s])[i] == done[i];
        }
      }
    }
  }

  /** Some record of the list has no inverted index. */
  predicate SomeUnindexed(records: seq<Dict>)
  {
    exists i :: 0 <= i < |records| && !HasKey(records[i], AbstractIndexField)
  }

  lemma SomeUnindexedSplit(records: seq<Dict>)
    requires records != []
    ensures SomeUnindexed(records) <==>
              SomeUnindexed(records[..|records| - 1]) || !HasKey(records[|records| - 1], AbstractIndexField)
  {
    var front := records[..|records| - 1];
    if SomeUnindexed(front) {
      var i :| 0 <= i < |front| && !HasKey(front[i], AbstractIndexField);
      assert records[i] == front[i];
    }
    if SomeUnindexed(records) {
      var i :| 0 <= i < |records| && !HasKey(records[i], AbstractIndexField);
      if i < |front| {
        assert front[i] == records[i];
      }
    }
  }

  /** A list raises exactly when one of its records has no inverted index. */
  lemma {:induction false} SanitizedAllRaises(records: seq<Dict>, invert: Json -> Json)
    ensures SanitizedAll(records, invert).Err? <==> SomeUnindexed(records)
  {
    if records != [] {
      SanitizedAllRaises(records[..|records| - 1], invert);
      SanitizedWork(records[|records| - 1], invert, AbstractField);
      SomeUnindexedSplit(records);
    }
  }

  /** The loop of lines 62-64 and 107-109, record by record. */
  method SanitizeWorks(records: seq<Dict>, invert: Json -> Json) returns (r: Result<seq<Dict>>)
    ensures r == SanitizedAll(records, invert)
  {
    var done: seq<Dict> := [];
    var i := 0;
    while i < |records|
      invariant i <= |records|
      invariant SanitizedAll(records[..i], invert) == Ok(done)
    {
      assert records[..i + 1][..i] == records[..i];
      var index := Get(records[i], AbstractIndexField);
      if index.None? {
        SanitizedAllPrefix(records, invert, i + 1);
        return Err(KeyError(AbstractIndexField));
      }
      var record := Set(records[i], AbstractField, invert(index.value));
      record := Remove(record, AbstractIndexField);
      done := done + [record];
      i := i + 1;
    }
    assert records[..i] == records;
    return Ok(done);
  }

  /** Once the records up to n raise, the whole loop raises the same exception. */
  lemma {:induction false} SanitizedAllPrefix(records: seq<Dict>, invert: Json -> Json, n: nat)
    requires n <= |records| && SanitizedAll(records[..n], invert).Err?
    ensures SanitizedAll(records, invert) == SanitizedAll(records[..n], invert)
    decreases |records|
  {
    if n < |records| {
      assert records[..|records| - 1][..n] == records[..n];
      SanitizedAllPrefix(records[..|records| - 1], invert, n);
    } else {
      assert records[..n] == records;
    }
  }

  /** `ids[0:20]`: the first 20 ids, or all of them if fewer. */
  function FirstIds(ids: seq<Json>): (r: seq<Json>)
    ensures |r| <= MaxResolved
    ensures |r| == if |ids| < MaxResolved then |ids| else MaxResolved
    ensures r <= ids
  {
    if |ids| <= MaxResolved then ids else ids[..MaxResolved]
  }

  /** A list of records as a JSON list. */
  function Objects(ds: seq<Dict>): (r: seq<Json>)
    ensures |r| == |ds| && forall i :: 0 <= i < |ds| ==> r[i] == JObject(ds[i])
  {
    seq(|ds|, i requires 0 <= i < |ds| => JObject(ds[i]))
  }

  /** `{'id': ..., 'display_name': ...}` of a collaborative work. */
  function WorkRefJson(w: WorkRef): Json
  {
    JObject([("id", w.id), ("display_name", w.displayName)])
  }

  /**
   * A collaborator as the dict the code returns: the author dict with
   * `cooperation_times` and `collaborative_works` assigned.
   */
  function CollaboratorJson(c: Collaborator): Json
  {
    var works := seq(|c.works|, i requires 0 <= i < |c.works| => WorkRefJson(c.works[i]));
    JObject(Set(Set(c.author, "cooperation_times", JInt(c.times)), "collaborative_works", JList(works)))
  }

  /** The returned dict carries the count, the works in order, and the author's own fields. */
  lemma CollaboratorJsonFields(c: Collaborator, k: string)
    ensures Get(CollaboratorJson(c).entries, "cooperation_times") == Some(JInt(c.times))
    ensures Get(CollaboratorJson(c).entries, "collaborative_works").Some?
    ensures var ws := Get(CollaboratorJson(c).entries, "collaborative_works").value;
            ws.JList? && |ws.items| == |c.works|
            && forall i :: 0 <= i < |c.works| ==> ws.items[i] == WorkRefJson(c.works[i])
    ensures k != "cooperation_times" && k != "collaborative_works" ==>
              Get(CollaboratorJson(c).entries, k) == Get(c.author, k)
  {
    var once := Set(c.author, "cooperation_times", JInt(c.times));
    var works := seq(|c.works|, i requires 0 <= i < |c.works| => WorkRefJson(c.works[i]));
    SetOthers(once, "collaborative_works", JList(works), "cooperation_times");
    if k != "cooperation_times" && k != "collaborative_works" {
      SetOthers(once, "collaborative_works", JList(works), k);
      SetOthers(c.author, "cooperation_times", JInt(c.times), k);
    }
  }
}
