/** Python values as the loaders and handlers see them after `response.json()`
    or an Elasticsearch response: JSON documents, together with the handful of
    dynamic Python operations the code applies to them (`dict.get`, `d[k]`,
    `in`, iteration, `str()`), each returning the exception Python would raise. */
module PyJson {
  import opened Wrappers
  import opened PyBuiltins

  /** A float is kept as the text Python's `repr` gives it; nothing in the
      modelled code does arithmetic on one. */
  datatype Json =
    | JNull
    | JBool(b: bool)
    | JInt(i: int)
    | JFloat(repr: string)
    | JStr(s: string)
    | JArr(items: seq<Json>)
    | JObj(fields: seq<Field>)

  /** One `key: value` entry of a dict, in insertion order. */
  datatype Field = Field(key: string, value: Json)

  /** The exceptions the modelled code raises or catches. */
  datatype PyError =
    | TypeError
    | KeyError
    | AttributeError
    | IndexError
    | ValueError
    | ValidationError
    | MemoryError
    | HttpStatusError
    | TransportError

  // ---------------------------------------------------------------------
  // Truthiness and hashing
  // ---------------------------------------------------------------------

  /** `bool(j)` */
  predicate Truthy(j: Json) {
    match j
    case JNull => false
    case JBool(b) => b
    case JInt(i) => i != 0
    case JFloat(r) => r != "0.0" && r != "-0.0"
    case JStr(s) => s != []
    case JArr(items) => items != []
    case JObj(fields) => fields != []
  }

  /** Lists and dicts cannot be dict keys or set members. */
  predicate Hashable(j: Json) {
    !j.JArr? && !j.JObj?
  }

  // ---------------------------------------------------------------------
  // Dicts as ordered field lists
  // ---------------------------------------------------------------------

  function Keys(fields: seq<Field>): (ks: seq<string>)
    ensures |ks| == |fields|
    ensures forall i :: 0 <= i < |fields| ==> ks[i] == fields[i].key
  {
    if fields == [] then [] else [fields[0].key] + Keys(fields[1..])
  }

  /** The value stored under `k`, if any. */
  function Lookup(fields: seq<Field>, k: string): (r: Option<Json>)
    ensures r.Some? ==> Field(k, r.value) in fields
  {
    if fields == [] then None
    else if fields[0].key == k then Some(fields[0].value)
    else Lookup(fields[1..], k)
  }

  /** Appending an entry appends its key. */
  lemma KeysSnoc(fields: seq<Field>, f: Field)
    ensures Keys(fields + [f]) == Keys(fields) + [f.key]
  {
    assert |Keys(fields + [f])| == |Keys(fields) + [f.key]|;
  }

  /** A key has a value exactly when it is one of the dict's keys. */
  lemma {:induction false} LookupKeys(fields: seq<Field>, k: string)
    ensures Lookup(fields, k).Some? <==> k in Keys(fields)
  {
    if fields != [] {
      LookupKeys(fields[1..], k);
      assert Keys(fields) == [fields[0].key] + Keys(fields[1..]);
    }
  }

  /** A key missing from the first part is read from the second. */
  lemma {:induction false} LookupAppend(a: seq<Field>, b: seq<Field>, k: string)
    requires forall i :: 0 <= i < |a| ==> a[i].key != k
    ensures Lookup(a + b, k) == Lookup(b, k)
  {
    if a == [] {
      assert a + b == b;
    } else {
      assert (a + b)[0] == a[0];
      assert (a + b)[1..] == a[1..] + b;
      LookupAppend(a[1..], b, k);
    }
  }

  /** The first entry with key `k` gives the value of `k`. */
  lemma {:induction false} LookupFirst(fields: seq<Field>, i: nat, k: string)
    requires i < |fields| && fields[i].key == k
    requires forall j :: 0 <= j < i ==> fields[j].key != k
    ensures Lookup(fields, k) == Some(fields[i].value)
  {
    if i > 0 {
      LookupFirst(fields[1..], i - 1, k);
    }
  }

  /** `d[k] = v`: an existing key keeps its place, a new one goes last. */
  function SetKey(fields: seq<Field>, k: string, v: Json): (r: seq<Field>)
    ensures k in Keys(fields) ==> |r| == |fields|
    ensures k !in Keys(fields) ==> r == fields + [Field(k, v)]
    ensures forall i :: 0 <= i < |r| ==> r[i] == Field(k, v) || r[i] in fields
  {
    if fields == [] then [Field(k, v)]
    else if fields[0].key == k then [Field(k, v)] + fields[1..]
    else [fields[0]] + SetKey(fields[1..], k, v)
  }

  /** After `d[k] = v`, `d[k]` is `v` and every other key reads as before. */
  lemma {:induction false} SetKeyLookup(fields: seq<Field>, k: string, v: Json, q: string)
    ensures Lookup(SetKey(fields, k, v), q) == if q == k then Some(v) else Lookup(fields, q)
  {
    if fields != [] && fields[0].key != k {
      SetKeyLookup(fields[1..], k, v, q);
    }
  }

  /** `a | b`: the entries of `b` written over those of `a`, in order. */
  function Merge(a: seq<Field>, b: seq<Field>): seq<Field>
    decreases |b|
  {
    if b == [] then a else Merge(SetKey(a, b[0].key, b[0].value), b[1..])
  }

  /** A dict never holds the same key twice. */
  predicate UniqueKeys(fields: seq<Field>) {
    forall i, j :: 0 <= i < j < |fields| ==> fields[i].key != fields[j].key
  }

  /** A key of `a | b` reads from `b` when `b` has it and from `a` otherwise. */
  lemma {:induction false} MergeLookup(a: seq<Field>, b: seq<Field>, q: string)
    requires UniqueKeys(b)
    ensures Lookup(Merge(a, b), q) == if Lookup(b, q).Some? then Lookup(b, q) else Lookup(a, q)
    decreases |b|
  {
    if b != [] {
      var a' := SetKey(a, b[0].key, b[0].value);
      MergeLookup(a', b[1..], q);
      SetKeyLookup(a, b[0].key, b[0].value, q);
      if q == b[0].key {
        assert q !in Keys(b[1..]);
      }
    }
  }

  // ---------------------------------------------------------------------
  // Dynamic operations
  // ---------------------------------------------------------------------

  /** `j.get(k, default)`: only a dict has `.get`. */
  function PyGet(j: Json, k: string, default: Json): (r: Result<Json, PyError>)
    ensures r.Err? <==> !j.JObj?
    ensures r.Err? ==> r.error == AttributeError
    ensures j.JObj? ==> r.value == Lookup(j.fields, k).GetOr(default)
  {
    if j.JObj? then Ok(Lookup(j.fields, k).GetOr(default)) else Err(AttributeError)
  }

  /** `j.items()` */
  function PyItems(j: Json): (r: Result<seq<Field>, PyError>)
    ensures r.Ok? <==> j.JObj?
    ensures r.Ok? ==> r.value == j.fields
  {
    if j.JObj? then Ok(j.fields) else Err(AttributeError)
  }

  /** `j[k]` with a string subscript. */
  function PyIndexKey(j: Json, k: string): (r: Result<Json, PyError>)
    ensures r.Ok? <==> j.JObj? && Lookup(j.fields, k).Some?
    ensures r.Ok? ==> r.value == Lookup(j.fields, k).value
  {
    match j
    case JObj(fields) => if Lookup(fields, k).Some? then Ok(Lookup(fields, k).value) else Err(KeyError)
    case _ => Err(TypeError)
  }

  /** `j[i]` with an integer subscript; a negative index counts from the end. */
  function PyIndexPos(j: Json, i: int): (r: Result<Json, PyError>)
    ensures j.JArr? && 0 <= i < |j.items| ==> r == Ok(j.items[i])
    ensures j.JArr? && (i < -|j.items| || |j.items| <= i) ==> r == Err(IndexError)
    ensures !j.JArr? && !j.JStr? ==> r.Err?
  {
    match j
    case JArr(items) =>
      if 0 <= i < |items| then Ok(items[i])
      else if -|items| <= i < 0 then Ok(items[|items| + i])
      else Err(IndexError)
    case JStr(s) =>
      if 0 <= i < |s| then Ok(JStr([s[i]]))
      else if -|s| <= i < 0 then Ok(JStr([s[|s| + i]]))
      else Err(IndexError)
    case JObj(_) => Err(KeyError)
    case _ => Err(TypeError)
  }

  /** The string `s` as the list of its one-character strings. */
  function Chars(s: string): (r: seq<Json>)
    ensures |r| == |s|
    ensures forall i :: 0 <= i < |s| ==> r[i] == JStr([s[i]])
  {
    if s == [] then [] else [JStr([s[0]])] + Chars(s[1..])
  }

  /** The keys of a dict as Python strings. */
  function KeyValues(fields: seq<Field>): (r: seq<Json>)
    ensures |r| == |fields|
    ensures forall i :: 0 <= i < |fields| ==> r[i] == JStr(fields[i].key)
  {
    if fields == [] then [] else [JStr(fields[0].key)] + KeyValues(fields[1..])
  }

  /** `for x in j`: a list yields its elements, a dict its keys, a string its
      characters; anything else is not iterable. */
  function PyIter(j: Json): (r: Result<seq<Json>, PyError>)
    ensures r.Ok? <==> j.JArr? || j.JObj? || j.JStr?
    ensures j.JArr? ==> r == Ok(j.items)
  {
    match j
    case JArr(items) => Ok(items)
    case JObj(fields) => Ok(KeyValues(fields))
    case JStr(s) => Ok(Chars(s))
    case _ => Err(TypeError)
  }

  /** `needle in hay` */
  function PyIn(needle: Json, hay: Json): (r: Result<bool, PyError>)
    ensures hay.JObj? && needle.JStr? ==> r == Ok(needle.s in Keys(hay.fields))
    ensures hay.JArr? ==> r == Ok(needle in hay.items)
    ensures hay.JStr? && needle.JStr? ==> r == Ok(Contains(hay.s, needle.s))
    ensures !hay.JObj? && !hay.JArr? && !hay.JStr? ==> r == Err(TypeError)
  {
    match hay
    case JObj(fields) =>
      if needle.JStr? then Ok(needle.s in Keys(fields))
      else if Hashable(needle) then Ok(false)
      else Err(TypeError)
    case JArr(items) => Ok(needle in items)
    case JStr(s) => if needle.JStr? then Ok(Contains(s, needle.s)) else Err(TypeError)
    case _ => Err(TypeError)
  }

  /** `j[:n]` */
  function PySliceTo(j: Json, n: int): (r: Result<Json, PyError>)
    ensures j.JArr? ==> r == Ok(JArr(SliceTo(j.items, n)))
    ensures !j.JArr? && !j.JStr? ==> r.Err?
  {
    match j
    case JArr(items) => Ok(JArr(SliceTo(items, n)))
    case JStr(s) => Ok(JStr(SliceTo(s, n)))
    case _ => Err(TypeError)
  }

  // ---------------------------------------------------------------------
  // str() and repr()
  // ---------------------------------------------------------------------

  /** `str(j)`, the text an f-string substitutes for `{j}`. */
  function PyStr(j: Json): string
    decreases j, 1
  {
    match j
    case JNull => "None"
    case JBool(b) => if b then "True" else "False"
    case JInt(i) => IntToString(i)
    case JFloat(r) => r
    case JStr(s) => s
    case JArr(items) => "[" + ReprItems(items) + "]"
    case JObj(fields) => "{" + ReprFields(fields) + "}"
  }

  /** `repr(j)`: as `str`, except that a string is quoted. */
  function PyRepr(j: Json): string
    decreases j, 2
  {
    if j.JStr? then "'" + j.s + "'" else PyStr(j)
  }

  function ReprItems(items: seq<Json>): string
    decreases items, 0
  {
    if items == [] then []
    else if |items| == 1 then PyRepr(items[0])
    else PyRepr(items[0]) + ", " + ReprItems(items[1..])
  }

  function ReprFields(fields: seq<Field>): string
    decreases fields, 0
  {
    if fields == [] then []
    else
      var entry := "'" + fields[0].key + "': " + PyRepr(fields[0].value);
      if |fields| == 1 then entry else entry + ", " + ReprFields(fields[1..])
  }
}
