// Python values as the gateway sees them: JSON-like values, dicts that keep
// insertion order, truthiness, `'|'.join`, and the exceptions the code raises
// or catches.

module PyValues {

  datatype Option<T> = None | Some(value: T)

  /** A JSON-like Python value, as found in request bodies and in OpenAlex records. */
  datatype Json =
    | JNull
    | JBool(b: bool)
    | JInt(i: int)
    | JStr(s: string)
    | JList(items: seq<Json>)
    | JObject(entries: seq<(string, Json)>)

  /**
   * A Python dict with string keys: its entries in insertion order.
   * A real dict never holds a key twice (see DistinctKeys).
   */
  type Dict = seq<(string, Json)>

  /** The Python exceptions the modelled code raises, or catches from the remote client. */
  datatype PyError =
    | KeyError(key: string)
    | TypeError
    | QueryError(message: string)   // pyalex.api.QueryError, message = e.args[0]
    | HttpError(status: int)        // requests.HTTPError with e.response.status_code
    | OtherError                    // any other exception

  /** A computation that returns a value or raises. */
  datatype Result<T> = Ok(value: T) | Err(error: PyError)

  // ---------------------------------------------------------------------------
  // Truthiness

  /** `not v` in Python. */
  predicate Falsy(v: Json)
  {
    match v
    case JNull => true
    case JBool(b) => !b
    case JInt(i) => i == 0
    case JStr(s) => s == ""
    case JList(items) => items == []
    case JObject(entries) => entries == []
  }

  // ---------------------------------------------------------------------------
  // Dicts

  function Keys(d: Dict): (ks: seq<string>)
    ensures |ks| == |d|
  {
    if d == [] then [] else [d[0].0] + Keys(d[1..])
  }

  lemma {:induction false} KeysAt(d: Dict)
    ensures forall i :: 0 <= i < |d| ==> Keys(d)[i] == d[i].0
  {
    if d != [] {
      KeysAt(d[1..]);
    }
  }

  predicate HasKey(d: Dict, k: string)
  {
    k in Keys(d)
  }

  /** A dict never holds a key twice. */
  predicate DistinctKeys(d: Dict)
  {
    d == [] || (!HasKey(d[1..], d[0].0) && DistinctKeys(d[1..]))
  }

  /** `d.get(k)`: the value stored under k, if any. */
  function Get(d: Dict, k: string): (r: Option<Json>)
    ensures r.None? <==> !HasKey(d, k)
  {
    if d == [] then None
    else if d[0].0 == k then Some(d[0].1)
    else Get(d[1..], k)
  }

  /**
   * `d[k] = v`: a key already present keeps its place and takes the new value;
   * a new key goes to the end.
   */
  function Set(d: Dict, k: string, v: Json): (r: Dict)
    ensures Get(r, k) == Some(v)
    ensures HasKey(d, k) ==> Keys(r) == Keys(d)
    ensures !HasKey(d, k) ==> Keys(r) == Keys(d) + [k]
  {
    if d == [] then [(k, v)]
    else if d[0].0 == k then [(k, v)] + d[1..]
    else [d[0]] + Set(d[1..], k, v)
  }

  /** `d.pop(k)` / `del d[k]`: every entry under k goes. */
  function Remove(d: Dict, k: string): (r: Dict)
    ensures !HasKey(r, k)
    ensures |r| <= |d|
    ensures HasKey(d, k) ==> |r| < |d|
  {
    if d == [] then []
    else if d[0].0 == k then Remove(d[1..], k)
    else [d[0]] + Remove(d[1..], k)
  }

  lemma {:induction false} SetOthers(d: Dict, k: string, v: Json, k': string)
    requires k' != k
    ensures Get(Set(d, k, v), k') == Get(d, k')
  {
    if d != [] && d[0].0 != k {
      SetOthers(d[1..], k, v, k');
    }
  }

  lemma {:induction false} SetDistinct(d: Dict, k: string, v: Json)
    requires DistinctKeys(d)
    ensures DistinctKeys(Set(d, k, v))
  {
    if d != [] && d[0].0 != k {
      SetDistinct(d[1..], k, v);
    }
  }

  lemma {:induction false} RemoveOthers(d: Dict, k: string, k': string)
    requires k' != k
    ensures Get(Remove(d, k), k') == Get(d, k')
    ensures HasKey(Remove(d, k), k') == HasKey(d, k')
  {
    if d != [] {
      RemoveOthers(d[1..], k, k');
    }
  }

  lemma {:induction false} RemoveDistinct(d: Dict, k: string)
    requires DistinctKeys(d)
    ensures DistinctKeys(Remove(d, k))
  {
    if d != [] {
      RemoveDistinct(d[1..], k);
      if d[0].0 != k {
        if HasKey(Remove(d[1..], k), d[0].0) {
          RemoveOthers(d[1..], k, d[0].0);
        }
      }
    }
  }

  lemma {:induction false} KeysAppend(a: Dict, b: Dict)
    ensures Keys(a + b) == Keys(a) + Keys(b)
  {
    if a == [] {
      assert a + b == b;
    } else {
      assert (a + b)[0] == a[0];
      assert (a + b)[1..] == a[1..] + b;
      KeysAppend(a[1..], b);
    }
  }

  /** Removing a key from a concatenation removes it from each part. */
  lemma {:induction false} RemoveAppend(a: Dict, b: Dict, k: string)
    ensures Remove(a + b, k) == Remove(a, k) + Remove(b, k)
  {
    if a != [] {
      assert (a + b)[0] == a[0];
      assert (a + b)[1..] == a[1..] + b;
      RemoveAppend(a[1..], b, k);
    } else {
      assert a + b == b;
    }
  }

  lemma {:induction false} RemoveAbsent(d: Dict, k: string)
    requires !HasKey(d, k)
    ensures Remove(d, k) == d
  {
    if d != [] {
      RemoveAbsent(d[1..], k);
    }
  }

  /** Removing the one entry under a key from the middle of a dict. */
  lemma RemoveBetween(a: Dict, e: (string, Json), b: Dict)
    requires !HasKey(a, e.0) && !HasKey(b, e.0)
    ensures Remove(a + ([e] + b), e.0) == a + b
  {
    RemoveAppend(a, [e] + b, e.0);
    RemoveAppend([e], b, e.0);
    RemoveAbsent(a, e.0);
    RemoveAbsent(b, e.0);
  }

  /** Assigning to a key that is absent from a prefix leaves the prefix alone. */
  lemma {:induction false} SetAfter(a: Dict, b: Dict, k: string, v: Json)
    requires !HasKey(a, k)
    ensures Set(a + b, k, v) == a + Set(b, k, v)
  {
    if a != [] {
      var head, rest := a[0], a[1..];
      assert Keys(a) == [head.0] + Keys(rest);
      assert head.0 != k && !HasKey(rest, k);
      assert a == [head] + rest;
      assert a + b == [head] + (rest + b);
      SetAfter(rest, b, k, v);
      SetCons(head, rest + b, k, v);
    } else {
      assert a + b == b;
    }
  }

  lemma SetCons(e: (string, Json), d: Dict, k: string, v: Json)
    requires e.0 != k
    ensures Set([e] + d, k, v) == [e] + Set(d, k, v)
  {
    assert ([e] + d)[0] == e && ([e] + d)[1..] == d;
  }

  lemma {:induction false} SetAbsent(d: Dict, k: string, v: Json)
    requires !HasKey(d, k)
    ensures Set(d, k, v) == d + [(k, v)]
  {
    if d != [] {
      SetAbsent(d[1..], k, v);
    }
  }

  /** Get on a concatenation looks in the first part first. */
  lemma {:induction false} GetAppend(a: Dict, b: Dict, k: string)
    ensures Get(a + b, k) == if HasKey(a, k) then Get(a, k) else Get(b, k)
  {
    if a == [] {
      assert a + b == b;
    } else {
      assert (a + b)[0] == a[0];
      assert (a + b)[1..] == a[1..] + b;
      GetAppend(a[1..], b, k);
    }
  }

  lemma {:induction false} DistinctAppend(a: Dict, b: Dict)
    requires DistinctKeys(a) && DistinctKeys(b)
    requires forall k :: HasKey(a, k) ==> !HasKey(b, k)
    ensures DistinctKeys(a + b)
  {
    if a != [] {
      assert Keys(a) == [a[0].0] + Keys(a[1..]);
      assert forall k :: HasKey(a[1..], k) ==> HasKey(a, k);
      DistinctAppend(a[1..], b);
      KeysAppend(a[1..], b);
      assert HasKey(a, a[0].0);
      assert !HasKey(a[1..] + b, a[0].0);
      assert (a + b)[0] == a[0] && (a + b)[1..] == a[1..] + b;
    } else {
      assert a + b == b;
    }
  }

  /** In a dict cut into a and b, the first key of b occurs nowhere else. */
  lemma {:induction false} DistinctSplit(a: Dict, b: Dict)
    requires DistinctKeys(a + b) && b != []
    ensures !HasKey(a, b[0].0) && !HasKey(b[1..], b[0].0)
  {
    if a == [] {
      assert a + b == b;
    } else {
      assert (a + b)[0] == a[0] && (a + b)[1..] == a[1..] + b;
      DistinctSplit(a[1..], b);
      KeysAppend(a[1..], b);
      assert Keys(a[1..] + b)[|a| - 1] == b[0].0 by {
        KeysAt(a[1..] + b);
        assert (a[1..] + b)[|a| - 1] == b[0];
      }
      assert Keys(a) == [a[0].0] + Keys(a[1..]);
    }
  }

  /** In a dict, the value at position i is what Get finds under its key. */
  lemma {:induction false} DistinctLookup(d: Dict, i: int)
    requires DistinctKeys(d) && 0 <= i < |d|
    ensures Get(d, d[i].0) == Some(d[i].1)
  {
    if i > 0 {
      DistinctLookup(d[1..], i - 1);
      KeysAt(d[1..]);
      assert Keys(d[1..])[i - 1] == d[i].0;
    }
  }

  /** What Get finds is the value of some entry. */
  lemma {:induction false} GetFound(d: Dict, k: string)
    requires Get(d, k).Some?
    ensures exists i :: 0 <= i < |d| && d[i] == (k, Get(d, k).value)
  {
    if d[0].0 != k {
      GetFound(d[1..], k);
      var i :| 0 <= i < |d[1..]| && d[1..][i] == (k, Get(d, k).value);
      assert d[i + 1] == d[1..][i];
    }
  }

  // ---------------------------------------------------------------------------
  // '|'.join

  const OrSeparator: char := '|'

  predicate AllStrings(items: seq<Json>)
  {
    forall i :: 0 <= i < |items| ==> items[i].JStr?
  }

  /** The string items of a list, in order. */
  function Strings(items: seq<Json>): (ss: seq<string>)
    ensures AllStrings(items) ==> |ss| == |items|
  {
    if items == [] then []
    else (if items[0].JStr? then [items[0].s] else []) + Strings(items[1..])
  }

  /** `'|'.join(xs)`. */
  function Join(xs: seq<string>): string
  {
    if xs == [] then ""
    else if |xs| == 1 then xs[0]
    else xs[0] + [OrSeparator] + Join(xs[1..])
  }

  /** The alternatives of an OR-joined filter value: the inverse of Join. */
  function Split(s: string): (parts: seq<string>)
    ensures |parts| >= 1
  {
    if s == [] then [""]
    else if s[0] == OrSeparator then [""] + Split(s[1..])
    else
      var rest := Split(s[1..]);
      [[s[0]] + rest[0]] + rest[1..]
  }

  lemma {:induction false} SplitWithoutSeparator(x: string, tail: string)
    requires OrSeparator !in x
    ensures Split(x + tail) == [x + Split(tail)[0]] + Split(tail)[1..]
  {
    if x != [] {
      assert (x + tail)[0] == x[0];
      assert (x + tail)[1..] == x[1..] + tail;
      SplitWithoutSeparator(x[1..], tail);
      assert [x[0]] + (x[1..] + Split(tail)[0]) == x + Split(tail)[0];
    } else {
      assert x + tail == tail;
      assert x + Split(tail)[0] == Split(tail)[0];
      assert Split(tail) == [Split(tail)[0]] + Split(tail)[1..];
    }
  }

  /**
   * Joining a non-empty list of alternatives that contain no separator can be
   * undone: the remote side recovers exactly the listed alternatives.
   */
  lemma {:induction false} SplitJoin(xs: seq<string>)
    requires xs != []
    requires forall i :: 0 <= i < |xs| ==> OrSeparator !in xs[i]
    ensures Split(Join(xs)) == xs
  {
    if |xs| == 1 {
      SplitWithoutSeparator(xs[0], []);
      assert xs[0] + [] == xs[0];
    } else {
      SplitJoin(xs[1..]);
      var tail := [OrSeparator] + Join(xs[1..]);
      assert xs[0] + [OrSeparator] + Join(xs[1..]) == xs[0] + tail;
      SplitWithoutSeparator(xs[0], tail);
      assert tail[0] == OrSeparator && tail[1..] == Join(xs[1..]);
      assert Split(tail) == [""] + xs[1..];
      assert Split(tail)[0] == "" && Split(tail)[1..] == xs[1..];
      assert xs[0] + "" == xs[0];
      assert Join(xs) == xs[0] + tail;
      assert xs == [xs[0]] + xs[1..];
    }
  }
}
