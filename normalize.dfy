// Request normalisation of `search_entities_by_body`
// (utils/openalex.py:75-100): defaults for absent body fields, falsy filter and
// sort entries dropped, list filters OR-joined with '|'.

module Normalize {
  import opened PyValues

  /**
   * The request body after JSON decoding. Each field is absent (None) or of
   * the type the code goes on to use.
   */
  datatype RequestBody = RequestBody(
    search: Option<string>,
    position: Option<string>,
    filter: Option<Dict>,
    sort: Option<Dict>,
    page: Option<int>,
    size: Option<int>)

  const DefaultPosition := "default"
  const DefaultPage := 1
  const DefaultSize := 25

  function GetOr<T>(o: Option<T>, default: T): T
  {
    if o.Some? then o.value else default
  }

  // ---------------------------------------------------------------------------
  // The filter

  /** `'|'.join(value)` raises TypeError: a list holding a non-string. */
  predicate JoinFails(v: Json)
  {
    v.JList? && !AllStrings(v.items)
  }

  predicate Joinable(d: Dict)
  {
    forall i :: 0 <= i < |d| ==> !JoinFails(d[i].1)
  }

  /** A list value becomes its '|'-joined string; any other value stays. */
  function Joined(v: Json): Json
  {
    if v.JList? then JStr(Join(Strings(v.items))) else v
  }

  /** What stays in place of one entry: nothing if falsy, else the entry, its list joined. */
  function KeptOne(e: (string, Json)): Dict
  {
    if Falsy(e.1) then [] else [(e.0, Joined(e.1))]
  }

  /** What one entry adds at the end: an empty list comes back as ''. */
  function ReinsertedOne(e: (string, Json)): Dict
  {
    if e.1 == JList([]) then [(e.0, JStr(""))] else []
  }

  /** The entries that keep their place: the truthy ones, lists joined. */
  function KeptInPlace(d: Dict): Dict
  {
    if d == [] then [] else KeptOne(d[0]) + KeptInPlace(d[1..])
  }

  /** The empty-list entries: popped, then assigned '' and so moved to the end. */
  function Reinserted(d: Dict): Dict
  {
    if d == [] then [] else ReinsertedOne(d[0]) + Reinserted(d[1..])
  }

  lemma SingleEntry(e: (string, Json))
    ensures KeptInPlace([e]) == KeptOne(e) && Reinserted([e]) == ReinsertedOne(e)
  {
    assert [e][1..] == [];
    assert KeptOne(e) + [] == KeptOne(e) && ReinsertedOne(e) + [] == ReinsertedOne(e);
  }

  /**
   * The filter dict after lines 89-94: TypeError when a list cannot be joined;
   * otherwise the truthy entries in place (lists joined), followed by the
   * empty lists, each now ''.
   */
  function NormalizedFilter(d: Dict): Result<Dict>
  {
    if Joinable(d) then Ok(KeptInPlace(d) + Reinserted(d)) else Err(TypeError)
  }

  /** What the normalised filter holds under one key, given the original value. */
  function FilterValueAfter(v: Option<Json>): Option<Json>
  {
    if v.None? then None
    else if v.value.JList? then Some(Joined(v.value))
    else if Falsy(v.value) then None
    else v
  }

  lemma {:induction false} KeptInPlaceAppend(a: Dict, b: Dict)
    ensures KeptInPlace(a + b) == KeptInPlace(a) + KeptInPlace(b)
  {
    if a == [] {
      assert a + b == b;
    } else {
      assert (a + b)[0] == a[0] && (a + b)[1..] == a[1..] + b;
      KeptInPlaceAppend(a[1..], b);
    }
  }

  lemma {:induction false} ReinsertedAppend(a: Dict, b: Dict)
    ensures Reinserted(a + b) == Reinserted(a) + Reinserted(b)
  {
    if a == [] {
      assert a + b == b;
    } else {
      assert (a + b)[0] == a[0] && (a + b)[1..] == a[1..] + b;
      ReinsertedAppend(a[1..], b);
    }
  }

  lemma {:induction false} KeptInPlaceKeys(d: Dict, k: string)
    ensures HasKey(KeptInPlace(d), k) ==> HasKey(d, k)
  {
    if d != [] {
      KeptInPlaceKeys(d[1..], k);
      KeysAppend(KeptOne(d[0]), KeptInPlace(d[1..]));
    }
  }

  lemma {:induction false} ReinsertedKeys(d: Dict, k: string)
    ensures HasKey(Reinserted(d), k) ==> HasKey(d, k)
  {
    if d != [] {
      ReinsertedKeys(d[1..], k);
      KeysAppend(ReinsertedOne(d[0]), Reinserted(d[1..]));
    }
  }

  /** What one turn of the filter loop does to the dict: lines 91-94. */
  function FilterTurn(current: Dict, key: string, value: Json): Dict
  {
    var popped := if Falsy(value) then Remove(current, key) else current;
    if value.JList? then Set(popped, key, JStr(Join(Strings(value.items)))) else popped
  }

  lemma TurnDropsFalsyScalar(kept: Dict, e: (string, Json), rest: Dict, moved: Dict)
    requires Falsy(e.1) && !e.1.JList?
    requires !HasKey(kept, e.0) && !HasKey(rest + moved, e.0)
    ensures FilterTurn(kept + ([e] + (rest + moved)), e.0, e.1)
         == (kept + KeptOne(e)) + (rest + (moved + ReinsertedOne(e)))
  {
    RemoveBetween(kept, e, rest + moved);
    assert KeptOne(e) == [] && ReinsertedOne(e) == [];
    assert kept + [] == kept && moved + [] == moved;
  }

  lemma TurnMovesEmptyList(kept: Dict, e: (string, Json), rest: Dict, moved: Dict)
    requires e.1 == JList([])
    requires !HasKey(kept, e.0) && !HasKey(rest + moved, e.0)
    ensures FilterTurn(kept + ([e] + (rest + moved)), e.0, e.1)
         == (kept + KeptOne(e)) + (rest + (moved + ReinsertedOne(e)))
  {
    var tail, x := rest + moved, (e.0, JStr(""));
    var popped := Remove(kept + ([e] + tail), e.0);
    RemoveBetween(kept, e, tail);
    assert popped == kept + tail;
    KeysAppend(kept, tail);
    assert !HasKey(popped, e.0);
    SetAbsent(popped, e.0, JStr(""));
    assert Join(Strings([])) == "";
    assert FilterTurn(kept + ([e] + tail), e.0, e.1) == Set(popped, e.0, JStr(""));
    assert KeptOne(e) == [] && ReinsertedOne(e) == [x];
    MovedLast(kept, rest, moved, x);
  }

  lemma MovedLast(kept: Dict, rest: Dict, moved: Dict, x: (string, Json))
    ensures (kept + (rest + moved)) + [x] == (kept + []) + (rest + (moved + [x]))
  {
    assert kept + [] == kept;
  }

  lemma TurnJoinsList(kept: Dict, e: (string, Json), rest: Dict, moved: Dict)
    requires e.1.JList? && e.1 != JList([])
    requires !HasKey(kept, e.0)
    ensures FilterTurn(kept + ([e] + (rest + moved)), e.0, e.1)
         == (kept + KeptOne(e)) + (rest + (moved + ReinsertedOne(e)))
  {
    var tail, x := rest + moved, (e.0, Joined(e.1));
    SetAfter(kept, [e] + tail, e.0, Joined(e.1));
    assert FilterTurn(kept + ([e] + tail), e.0, e.1) == kept + ([x] + tail);
    assert KeptOne(e) == [x] && ReinsertedOne(e) == [];
    assert kept + ([x] + tail) == (kept + [x]) + (rest + (moved + []));
  }

  lemma TurnKeepsScalar(kept: Dict, e: (string, Json), rest: Dict, moved: Dict)
    requires !Falsy(e.1) && !e.1.JList?
    ensures FilterTurn(kept + ([e] + (rest + moved)), e.0, e.1)
         == (kept + KeptOne(e)) + (rest + (moved + ReinsertedOne(e)))
  {
    assert KeptOne(e) == [e] && ReinsertedOne(e) == [];
    assert kept + ([e] + (rest + moved)) == (kept + [e]) + (rest + (moved + []));
  }

  /** The turn for entry e, written on the pieces of the loop state around it. */
  lemma FilterTurnPieces(kept: Dict, e: (string, Json), rest: Dict, moved: Dict)
    requires !HasKey(kept, e.0) && !HasKey(rest + moved, e.0)
    ensures FilterTurn(kept + ([e] + (rest + moved)), e.0, e.1)
         == (kept + KeptOne(e)) + (rest + (moved + ReinsertedOne(e)))
  {
    if e.1 == JList([]) {
      TurnMovesEmptyList(kept, e, rest, moved);
    } else if e.1.JList? {
      TurnJoinsList(kept, e, rest, moved);
    } else if Falsy(e.1) {
      TurnDropsFalsyScalar(kept, e, rest, moved);
    } else {
      TurnKeepsScalar(kept, e, rest, moved);
    }
  }

  /** Where the filter loop has visited `done` and has `todo` left, its next key is fresh. */
  lemma FilterLoopKeys(done: Dict, todo: Dict)
    requires DistinctKeys(done + todo) && todo != []
    ensures !HasKey(KeptInPlace(done), todo[0].0)
    ensures !HasKey(todo[1..] + Reinserted(done), todo[0].0)
  {
    DistinctSplit(done, todo);
    KeptInPlaceKeys(done, todo[0].0);
    ReinsertedKeys(done, todo[0].0);
    KeysAppend(todo[1..], Reinserted(done));
  }

  /** The body of the loop of lines 90-94 for one entry: a falsy value popped, a list joined. */
  method FilterTurnStep(current: Dict, key: string, value: Json) returns (next: Dict)
    ensures next == FilterTurn(current, key, value)
  {
    next := current;
    if Falsy(value) {
      next := Remove(next, key);
    }
    if value.JList? {
      next := Set(next, key, JStr(Join(Strings(value.items))));
    }
  }

  /** Moving the first entry of todo to the end of done. */
  lemma MoveFirst(done: Dict, todo: Dict, tail: Dict)
    requires todo != []
    ensures todo + tail == [todo[0]] + (todo[1..] + tail)
    ensures (done + [todo[0]]) + todo[1..] == done + todo
    ensures Joinable(done) && !JoinFails(todo[0].1) ==> Joinable(done + [todo[0]])
  {
    assert todo == [todo[0]] + todo[1..];
    assert forall i :: 0 <= i < |done| ==> (done + [todo[0]])[i] == done[i];
  }

  /** One turn of the loop of lines 90-94 moves one entry from todo to done. */
  lemma FilterLoopStep(done: Dict, e: (string, Json), rest: Dict, current: Dict)
    requires !HasKey(KeptInPlace(done), e.0) && !HasKey(rest + Reinserted(done), e.0)
    requires current == KeptInPlace(done) + ([e] + (rest + Reinserted(done)))
    ensures FilterTurn(current, e.0, e.1) == KeptInPlace(done + [e]) + (rest + Reinserted(done + [e]))
  {
    FilterTurnPieces(KeptInPlace(done), e, rest, Reinserted(done));
    FilterLoopAdvance(done, e);
  }

  lemma FilterLoopAdvance(done: Dict, e: (string, Json))
    ensures KeptInPlace(done + [e]) == KeptInPlace(done) + KeptOne(e)
    ensures Reinserted(done + [e]) == Reinserted(done) + ReinsertedOne(e)
  {
    KeptInPlaceAppend(done, [e]);
    ReinsertedAppend(done, [e]);
    SingleEntry(e);
  }

  /**
   * The loop over `filter.copy()` at lines 89-94: pop a falsy entry, then
   * replace a list by its joined string.
   */
  method NormalizeFilter(filter: Dict) returns (r: Result<Dict>)
    requires DistinctKeys(filter)
    ensures r == NormalizedFilter(filter)
  {
    var current := filter;
    var todo := filter;
    ghost var done: Dict := [];
    while todo != []
      invariant done + todo == filter
      invariant Joinable(done)
      invariant current == KeptInPlace(done) + (todo + Reinserted(done))
    {
      var key, value := todo[0].0, todo[0].1;
      if JoinFails(value) {
        assert !Joinable(filter) by {
          assert filter[|done|] == todo[0];
        }
        return Err(TypeError);
      }
      FilterLoopKeys(done, todo);
      MoveFirst(done, todo, Reinserted(done));
      FilterLoopStep(done, todo[0], todo[1..], current);
      current := FilterTurnStep(current, key, value);
      done, todo := done + [todo[0]], todo[1..];
    }
    assert done == filter && todo + Reinserted(done) == Reinserted(filter);
    return Ok(current);
  }

  lemma {:induction false} KeptInPlaceLookup(d: Dict, k: string)
    requires DistinctKeys(d) && Joinable(d)
    ensures Get(KeptInPlace(d), k) == FilterValueAfter(Get(d, k)) || Get(d, k) == Some(JList([]))
    ensures Get(d, k) == Some(JList([])) ==> !HasKey(KeptInPlace(d), k)
    ensures DistinctKeys(KeptInPlace(d))
  {
    KeptInPlaceDistinct(d);
    if d != [] {
      KeptInPlaceLookup(d[1..], k);
      var head := KeptOne(d[0]);
      GetAppend(head, KeptInPlace(d[1..]), k);
      if d[0].0 == k {
        KeptInPlaceKeys(d[1..], k);
        assert !HasKey(KeptInPlace(d[1..]), k);
      } else {
        assert Get(d, k) == Get(d[1..], k);
        assert !HasKey(head, k);
      }
    }
  }

  lemma {:induction false} KeptInPlaceDistinct(d: Dict)
    requires DistinctKeys(d)
    ensures DistinctKeys(KeptInPlace(d))
  {
    if d != [] {
      KeptInPlaceDistinct(d[1..]);
      KeptInPlaceKeys(d[1..], d[0].0);
      var head := KeptOne(d[0]);
      assert forall k :: HasKey(head, k) ==> k == d[0].0;
      DistinctAppend(head, KeptInPlace(d[1..]));
    }
  }

  lemma {:induction false} ReinsertedLookup(d: Dict, k: string)
    requires DistinctKeys(d)
    ensures Get(Reinserted(d), k) == if Get(d, k) == Some(JList([])) then Some(JStr("")) else None
    ensures DistinctKeys(Reinserted(d))
  {
    if d != [] {
      ReinsertedLookup(d[1..], k);
      ReinsertedKeys(d[1..], d[0].0);
      ReinsertedKeys(d[1..], k);
      var head := ReinsertedOne(d[0]);
      GetAppend(head, Reinserted(d[1..]), k);
      DistinctAppend(head, Reinserted(d[1..]));
    }
  }

  /**
   * Every key of the normalised filter holds what its original value turns
   * into: a list its joined string (an empty list ''), a falsy value nothing,
   * any other value itself. No key appears twice.
   */
  lemma NormalizedFilterLookup(d: Dict, k: string)
    requires DistinctKeys(d) && Joinable(d)
    ensures NormalizedFilter(d).Ok?
    ensures DistinctKeys(NormalizedFilter(d).value)
    ensures Get(NormalizedFilter(d).value, k) == FilterValueAfter(Get(d, k))
  {
    KeptInPlaceLookup(d, k);
    ReinsertedLookup(d, k);
    GetAppend(KeptInPlace(d), Reinserted(d), k);
    forall k' | HasKey(KeptInPlace(d), k') ensures !HasKey(Reinserted(d), k') {
      KeptInPlaceLookup(d, k');
      ReinsertedLookup(d, k');
    }
    DistinctAppend(KeptInPlace(d), Reinserted(d));
  }

  /**
   * The normalised filter holds no list, and a falsy value only where the
   * original value was a list (the empty list's '').
   */
  lemma NormalizedFilterValues(d: Dict)
    requires DistinctKeys(d) && Joinable(d)
    ensures NormalizedFilter(d).Ok?
    ensures forall i :: 0 <= i < |NormalizedFilter(d).value| ==>
      var (k, v) := NormalizedFilter(d).value[i];
      !v.JList? && (Falsy(v) ==> Get(d, k).Some? && Get(d, k).value.JList?)
  {
    var r := NormalizedFilter(d).value;
    forall i | 0 <= i < |r|
      ensures !r[i].1.JList? && (Falsy(r[i].1) ==> Get(d, r[i].0).Some? && Get(d, r[i].0).value.JList?)
    {
      NormalizedFilterLookup(d, r[i].0);
      DistinctLookup(r, i);
    }
  }

  /**
   * The empty-list case of lines 91-94: the entry is popped and then assigned
   * '', so it survives as '' and moves behind the entries that stay in place.
   */
  lemma EmptyListBecomesEmptyString()
    ensures NormalizedFilter([("year", JList([])), ("type", JStr("article"))])
         == Ok([("type", JStr("article")), ("year", JStr(""))])
  {
    var e1, e2 := ("year", JList([])), ("type", JStr("article"));
    var d := [e1, e2];
    assert Joinable(d);
    assert d == [e1] + [e2];
    KeptInPlaceAppend([e1], [e2]);
    ReinsertedAppend([e1], [e2]);
    SingleEntry(e1);
    SingleEntry(e2);
    assert Join(Strings([])) == "";
    assert KeptOne(e1) == [] && ReinsertedOne(e1) == [("year", JStr(""))];
    assert KeptOne(e2) == [e2] && ReinsertedOne(e2) == [];
    assert KeptInPlace(d) == [e2] && Reinserted(d) == [("year", JStr(""))];
    assert NormalizedFilter(d) == Ok([e2] + [("year", JStr(""))]);
    assert [e2] + [("year", JStr(""))] == [("type", JStr("article")), ("year", JStr(""))];
  }

  // ---------------------------------------------------------------------------
  // The sort

  /** The truthy entries of a dict, in their order. */
  function TruthyEntries(d: Dict): Dict
  {
    if d == [] then []
    else (if Falsy(d[0].1) then [] else [d[0]]) + TruthyEntries(d[1..])
  }

  lemma {:induction false} TruthyEntriesAppend(a: Dict, b: Dict)
    ensures TruthyEntries(a + b) == TruthyEntries(a) + TruthyEntries(b)
  {
    if a == [] {
      assert a + b == b;
    } else {
      assert (a + b)[0] == a[0] && (a + b)[1..] == a[1..] + b;
      TruthyEntriesAppend(a[1..], b);
    }
  }

  lemma {:induction false} TruthyEntriesKeys(d: Dict, k: string)
    ensures HasKey(TruthyEntries(d), k) ==> HasKey(d, k)
  {
    if d != [] {
      TruthyEntriesKeys(d[1..], k);
      KeysAppend(if Falsy(d[0].1) then [] else [d[0]], TruthyEntries(d[1..]));
    }
  }

  lemma SortLoopPop(kept: Dict, e: (string, Json), rest: Dict)
    requires Falsy(e.1)
    requires !HasKey(kept, e.0) && !HasKey(rest, e.0)
    ensures Remove(kept + ([e] + rest), e.0) == (kept + TruthyEntries([e])) + rest
  {
    RemoveBetween(kept, e, rest);
    assert TruthyEntries([e]) == [];
    assert kept + [] == kept;
  }

  lemma SortLoopKeep(kept: Dict, e: (string, Json), rest: Dict)
    requires !Falsy(e.1)
    ensures kept + ([e] + rest) == (kept + TruthyEntries([e])) + rest
  {
    assert TruthyEntries([e]) == [e];
  }

  /** The loop over `sort.copy()` at lines 95-98: pop every falsy entry. */
  method NormalizeSort(sort: Dict) returns (r: Dict)
    requires DistinctKeys(sort)
    ensures r == TruthyEntries(sort)
  {
    var current := sort;
    var todo := sort;
    ghost var done: Dict := [];
    while todo != []
      invariant done + todo == sort
      invariant current == TruthyEntries(done) + todo
    {
      var key, value := todo[0].0, todo[0].1;
      ghost var e, kept := todo[0], TruthyEntries(done);
      assert todo == [e] + todo[1..];
      TruthyEntriesAppend(done, [e]);
      assert TruthyEntries([e]) == if Falsy(value) then [] else [e] by {
        assert [e][1..] == [];
      }
      if Falsy(value) {
        DistinctSplit(done, todo);
        TruthyEntriesKeys(done, key);
        SortLoopPop(kept, e, todo[1..]);
        current := Remove(current, key);
      } else {
        SortLoopKeep(kept, e, todo[1..]);
      }
      assert (done + [e]) + todo[1..] == sort by {
        assert done + ([e] + todo[1..]) == sort;
      }
      done, todo := done + [e], todo[1..];
    }
    assert done == sort;
    return current;
  }

  /**
   * The normalised sort keeps exactly the truthy entries, each with its
   * value, and holds no falsy value.
   */
  lemma {:induction false} TruthyEntriesLookup(d: Dict, k: string)
    requires DistinctKeys(d)
    ensures Get(TruthyEntries(d), k) == if Get(d, k).Some? && !Falsy(Get(d, k).value) then Get(d, k) else None
    ensures forall i :: 0 <= i < |TruthyEntries(d)| ==> !Falsy(TruthyEntries(d)[i].1)
    ensures DistinctKeys(TruthyEntries(d))
  {
    if d != [] {
      TruthyEntriesLookup(d[1..], k);
      TruthyEntriesKeys(d[1..], d[0].0);
      var head := if Falsy(d[0].1) then [] else [d[0]];
      GetAppend(head, TruthyEntries(d[1..]), k);
      DistinctAppend(head, TruthyEntries(d[1..]));
    }
  }
}
