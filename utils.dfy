/** Helpers of the MCP server: the parameter clean-up done before a tool call
    is logged, and two recursive rewrites of API responses (dropping nulls,
    unwrapping `links`/`value`/`items` envelopes). */
module Utils {
  import opened Wrappers
  import opened PyJson

  // ---------------------------------------------------------------------
  // sanitize_params
  // ---------------------------------------------------------------------

  /** A keyword argument: a plain value, or the `FieldInfo` default object
      pydantic leaves in place of a parameter the caller did not pass. */
  datatype ArgValue = Plain(j: Json) | FieldInfoDefault

  datatype Kwarg = Kwarg(name: string, value: ArgValue)

  /** The keyword arguments sanitize_params keeps: not `self`, not None,
      not the empty string, not a FieldInfo. */
  predicate Kept(kw: Kwarg) {
    kw.name != "self" && kw.value.Plain? && kw.value.j != JNull && kw.value.j != JStr("")
  }

  /** Python keyword arguments have distinct names. */
  predicate DistinctNames(kwargs: seq<Kwarg>) {
    forall i, j :: 0 <= i < j < |kwargs| ==> kwargs[i].name != kwargs[j].name
  }

  /** The dict sanitize_params builds from the first arguments up to each point:
      no entry is `self`, None or the empty string. */
  function Sanitized(kwargs: seq<Kwarg>): (r: seq<Field>)
    ensures |r| <= |kwargs|
    ensures forall i :: 0 <= i < |r| ==> Kept(Kwarg(r[i].key, Plain(r[i].value)))
  {
    if kwargs == [] then []
    else
      var prefix := Sanitized(kwargs[..|kwargs| - 1]);
      var kw := kwargs[|kwargs| - 1];
      if Kept(kw) then SetKey(prefix, kw.name, kw.value.j) else prefix
  }

  /** sanitize_params(**kwargs) */
  method SanitizeParams(kwargs: seq<Kwarg>) returns (params: seq<Field>)
    ensures params == Sanitized(kwargs)
  {
    params := [];
    var i := 0;
    while i < |kwargs|
      invariant 0 <= i <= |kwargs|
      invariant params == Sanitized(kwargs[..i])
    {
      var kw := kwargs[i];
      assert kwargs[..i + 1][..i] == kwargs[..i];
      if kw.name == "self" {
      } else if kw.value.FieldInfoDefault? || kw.value.j == JNull || kw.value.j == JStr("") {
      } else {
        params := SetKey(params, kw.name, kw.value.j);
      }
      i := i + 1;
    }
    assert kwargs[..|kwargs|] == kwargs;
  }

  /** The names of the kept arguments, in the order they were passed. */
  function KeptNames(kwargs: seq<Kwarg>): (r: seq<string>)
    ensures |r| <= |kwargs|
    ensures forall x :: x in r ==> exists kw :: kw in kwargs && kw.name == x && Kept(kw)
  {
    if kwargs == [] then []
    else
      var kw := kwargs[|kwargs| - 1];
      KeptNames(kwargs[..|kwargs| - 1]) + (if Kept(kw) then [kw.name] else [])
  }

  /** The sanitised dict's keys are the kept names, in the order passed. */
  lemma {:induction false} SanitizedKeys(kwargs: seq<Kwarg>)
    requires DistinctNames(kwargs)
    ensures Keys(Sanitized(kwargs)) == KeptNames(kwargs)
    decreases |kwargs|
  {
    if kwargs != [] {
      var prefix := kwargs[..|kwargs| - 1];
      var kw := kwargs[|kwargs| - 1];
      assert kwargs == prefix + [kw];
      assert DistinctNames(prefix);
      SanitizedKeys(prefix);
      if Kept(kw) {
        KeysSnoc(Sanitized(prefix), Field(kw.name, kw.value.j));
      }
    }
  }

  /** The sanitised dict maps a name to a value exactly when that name was
      passed with that value and the argument is kept. */
  lemma {:induction false} SanitizedLookup(kwargs: seq<Kwarg>, name: string, v: Json)
    requires DistinctNames(kwargs)
    ensures Lookup(Sanitized(kwargs), name) == Some(v) <==> Kwarg(name, Plain(v)) in kwargs && Kept(Kwarg(name, Plain(v)))
    decreases |kwargs|
  {
    if kwargs != [] {
      var prefix := kwargs[..|kwargs| - 1];
      var kw := kwargs[|kwargs| - 1];
      assert kwargs == prefix + [kw];
      assert DistinctNames(prefix);
      SanitizedLookup(prefix, name, v);
      var before := Sanitized(prefix);
      var target := Kwarg(name, Plain(v));
      assert target in kwargs <==> target in prefix || target == kw;
      if Kept(kw) {
        assert Sanitized(kwargs) == SetKey(before, kw.name, kw.value.j);
        SetKeyLookup(before, kw.name, kw.value.j, name);
      } else {
        assert Sanitized(kwargs) == before;
      }
      if kw.name == name {
        forall k | k in prefix ensures k.name != name {
          var i :| 0 <= i < |prefix| && prefix[i] == k;
          assert kwargs[i] == k;
        }
      }
    }
  }

  // ---------------------------------------------------------------------
  // recursive_remove_null_values
  // ---------------------------------------------------------------------

  /** Drops every None inside lists and dicts, at any depth. */
  function RemoveNulls(j: Json): (r: Json)
    ensures r == JNull <==> j == JNull
    ensures r.JObj? <==> j.JObj?
    ensures r.JArr? <==> j.JArr?
    decreases j, 1
  {
    match j
    case JObj(fields) => JObj(RemoveNullFields(fields))
    case JArr(items) => JArr(RemoveNullItems(items))
    case _ => j
  }

  function RemoveNullFields(fields: seq<Field>): (r: seq<Field>)
    ensures |r| <= |fields|
    ensures forall i :: 0 <= i < |r| ==> r[i].value != JNull
    decreases fields, 0
  {
    if fields == [] then []
    else
      var rest := RemoveNullFields(fields[1..]);
      if fields[0].value == JNull then rest
      else [Field(fields[0].key, RemoveNulls(fields[0].value))] + rest
  }

  function RemoveNullItems(items: seq<Json>): (r: seq<Json>)
    ensures |r| <= |items|
    ensures forall i :: 0 <= i < |r| ==> r[i] != JNull
    decreases items, 0
  {
    if items == [] then []
    else
      var rest := RemoveNullItems(items[1..]);
      if items[0] == JNull then rest else [RemoveNulls(items[0])] + rest
  }

  /** No list element and no dict value is None, at any depth. */
  predicate NullFree(j: Json)
    decreases j, 1
  {
    match j
    case JObj(fields) => NullFreeFields(fields)
    case JArr(items) => NullFreeItems(items)
    case _ => true
  }

  predicate NullFreeFields(fields: seq<Field>)
    decreases fields, 0
  {
    fields == [] || (fields[0].value != JNull && NullFree(fields[0].value) && NullFreeFields(fields[1..]))
  }

  predicate NullFreeItems(items: seq<Json>)
    decreases items, 0
  {
    items == [] || (items[0] != JNull && NullFree(items[0]) && NullFreeItems(items[1..]))
  }

  /** The result of recursive_remove_null_values holds no None inside. */
  lemma {:induction false} RemoveNullsNullFree(j: Json)
    ensures NullFree(RemoveNulls(j))
    decreases j, 1
  {
    match j
    case JObj(fields) => RemoveNullFieldsNullFree(fields);
    case JArr(items) => RemoveNullItemsNullFree(items);
    case _ =>
  }

  lemma {:induction false} RemoveNullFieldsNullFree(fields: seq<Field>)
    ensures NullFreeFields(RemoveNullFields(fields))
    decreases fields, 0
  {
    if fields != [] {
      RemoveNullFieldsNullFree(fields[1..]);
      if fields[0].value != JNull {
        RemoveNullsNullFree(fields[0].value);
        RemoveNullsKeepsKind(fields[0].value);
      }
    }
  }

  lemma {:induction false} RemoveNullItemsNullFree(items: seq<Json>)
    ensures NullFreeItems(RemoveNullItems(items))
    decreases items, 0
  {
    if items != [] {
      RemoveNullItemsNullFree(items[1..]);
      if items[0] != JNull {
        RemoveNullsNullFree(items[0]);
        RemoveNullsKeepsKind(items[0]);
      }
    }
  }

  /** Only None becomes None. */
  lemma RemoveNullsKeepsKind(j: Json)
    ensures RemoveNulls(j) == JNull <==> j == JNull
  {
  }

  /** A value without None inside is left as it is. */
  lemma {:induction false} RemoveNullsNoop(j: Json)
    requires NullFree(j)
    ensures RemoveNulls(j) == j
    decreases j, 1
  {
    match j
    case JObj(fields) => RemoveNullFieldsNoop(fields);
    case JArr(items) => RemoveNullItemsNoop(items);
    case _ =>
  }

  lemma {:induction false} RemoveNullFieldsNoop(fields: seq<Field>)
    requires NullFreeFields(fields)
    ensures RemoveNullFields(fields) == fields
    decreases fields, 0
  {
    if fields != [] {
      RemoveNullFieldsNoop(fields[1..]);
      RemoveNullsNoop(fields[0].value);
    }
  }

  lemma {:induction false} RemoveNullItemsNoop(items: seq<Json>)
    requires NullFreeItems(items)
    ensures RemoveNullItems(items) == items
    decreases items, 0
  {
    if items != [] {
      RemoveNullItemsNoop(items[1..]);
      RemoveNullsNoop(items[0]);
    }
  }

  /** Removing nulls twice is removing them once. */
  lemma RemoveNullsIdempotent(j: Json)
    ensures RemoveNulls(RemoveNulls(j)) == RemoveNulls(j)
  {
    RemoveNullsNullFree(j);
    RemoveNullsNoop(RemoveNulls(j));
  }

  /** The list elements that are not None, in their original order. */
  function NonNullItems(items: seq<Json>): (r: seq<Json>)
    ensures |r| <= |items|
    ensures forall x :: x in r ==> x in items && x != JNull
  {
    if items == [] then []
    else (if items[0] == JNull then [] else [items[0]]) + NonNullItems(items[1..])
  }

  /** The dict keys whose values are not None, in their original order. */
  function NonNullKeys(fields: seq<Field>): (r: seq<string>)
    ensures |r| <= |fields|
    ensures forall k :: k in r ==> k in Keys(fields)
  {
    if fields == [] then []
    else (if fields[0].value == JNull then [] else [fields[0].key]) + NonNullKeys(fields[1..])
  }

  /** A cleaned list holds the cleaned surviving elements, in order. */
  lemma {:induction false} RemoveNullItemsOrder(items: seq<Json>)
    ensures |RemoveNullItems(items)| == |NonNullItems(items)|
    ensures forall i :: 0 <= i < |NonNullItems(items)| ==>
      RemoveNullItems(items)[i] == RemoveNulls(NonNullItems(items)[i])
  {
    if items != [] {
      var rest := items[1..];
      RemoveNullItemsOrder(rest);
      if items[0] == JNull {
        assert NonNullItems(items) == NonNullItems(rest);
      } else {
        assert RemoveNullItems(items) == [RemoveNulls(items[0])] + RemoveNullItems(rest);
        assert NonNullItems(items) == [items[0]] + NonNullItems(rest);
      }
    }
  }

  /** A cleaned dict keeps exactly the keys whose values are not None, in
      order. */
  lemma {:induction false} RemoveNullFieldsKeys(fields: seq<Field>)
    ensures Keys(RemoveNullFields(fields)) == NonNullKeys(fields)
  {
    if fields != [] {
      RemoveNullFieldsKeys(fields[1..]);
    }
  }

  // ---------------------------------------------------------------------
  // recursive_flatten_links_and_values
  // ---------------------------------------------------------------------

  /** Unwraps API envelopes: a dict loses its `links` entry; a dict with a
      `value` entry is replaced by that value, else one with an `items`
      entry by that; the result is flattened again. Lists are flattened
      element by element. */
  function Flatten(j: Json): (r: Json)
    ensures !j.JObj? && !j.JArr? ==> r == j
    ensures j.JArr? ==> r.JArr? && |r.items| == |j.items|
    decreases j, 2
  {
    match j
    case JObj(fields) =>
      if Lookup(fields, "value").Some? then Flatten(FieldValue(fields, "value"))
      else if Lookup(fields, "items").Some? then Flatten(FieldValue(fields, "items"))
      else JObj(FlattenFields(fields, true))
    case JArr(items) => JArr(FlattenItems(items))
    case _ => j
  }

  /** A `value` entry wins over an `items` entry and over every other entry
      of the dict: only the flattened value is left. */
  lemma FlattenPrefersValue(fields: seq<Field>, others: seq<Field>)
    requires Lookup(fields, "value").Some?
    requires forall i :: 0 <= i < |others| ==> others[i].key != "value"
    ensures Flatten(JObj(others + fields)) == Flatten(Lookup(fields, "value").value)
  {
    LookupAppend(others, fields, "value");
  }

  /** The value under a key that is present, as a structurally smaller term. */
  function FieldValue(fields: seq<Field>, k: string): (v: Json)
    requires Lookup(fields, k).Some?
    ensures v == Lookup(fields, k).value
    ensures v < JObj(fields)
    decreases fields, 1
  {
    if fields[0].key == k then fields[0].value else FieldValue(fields[1..], k)
  }

  /** The comprehension over the remaining entries; the first `links` entry,
      which `pop` removed, is skipped while `dropLinks` holds. */
  function FlattenFields(fields: seq<Field>, dropLinks: bool): seq<Field>
    decreases fields, 0
  {
    if fields == [] then []
    else if dropLinks && fields[0].key == "links" then FlattenFields(fields[1..], false)
    else [Field(fields[0].key, Flatten(fields[0].value))] + FlattenFields(fields[1..], dropLinks)
  }

  function FlattenItems(items: seq<Json>): (r: seq<Json>)
    ensures |r| == |items|
    decreases items, 0
  {
    if items == [] then [] else [Flatten(items[0])] + FlattenItems(items[1..])
  }

  /** Every dict, at any depth, has distinct keys (true of anything that came
      out of a JSON parser or a Python dict). */
  predicate WellFormed(j: Json)
    decreases j, 1
  {
    match j
    case JObj(fields) => UniqueKeys(fields) && WellFormedFields(fields)
    case JArr(items) => WellFormedItems(items)
    case _ => true
  }

  predicate WellFormedFields(fields: seq<Field>)
    decreases fields, 0
  {
    fields == [] || (WellFormed(fields[0].value) && WellFormedFields(fields[1..]))
  }

  predicate WellFormedItems(items: seq<Json>)
    decreases items, 0
  {
    items == [] || (WellFormed(items[0]) && WellFormedItems(items[1..]))
  }

  /** No dict, at any depth, has a `links`, `value` or `items` key. */
  predicate Flat(j: Json)
    decreases j, 1
  {
    match j
    case JObj(fields) => FlatFields(fields)
    case JArr(items) => FlatItems(items)
    case _ => true
  }

  predicate FlatFields(fields: seq<Field>)
    decreases fields, 0
  {
    fields == [] ||
    (fields[0].key !in {"links", "value", "items"} && Flat(fields[0].value) && FlatFields(fields[1..]))
  }

  predicate FlatItems(items: seq<Json>)
    decreases items, 0
  {
    items == [] || (Flat(items[0]) && FlatItems(items[1..]))
  }

  lemma WellFormedFieldValue(fields: seq<Field>, k: string)
    requires WellFormedFields(fields)
    requires Lookup(fields, k).Some?
    ensures WellFormed(FieldValue(fields, k))
  {
  }

  /** Flattening leaves no envelope key anywhere. */
  lemma {:induction false} FlattenIsFlat(j: Json)
    requires WellFormed(j)
    ensures Flat(Flatten(j))
    decreases j, 2
  {
    match j
    case JObj(fields) =>
      if Lookup(fields, "value").Some? {
        WellFormedFieldValue(fields, "value");
        FlattenIsFlat(FieldValue(fields, "value"));
      } else if Lookup(fields, "items").Some? {
        WellFormedFieldValue(fields, "items");
        FlattenIsFlat(FieldValue(fields, "items"));
      } else {
        LookupKeys(fields, "value");
        LookupKeys(fields, "items");
        FlattenFieldsFlat(fields, true);
      }
    case JArr(items) => FlattenItemsFlat(items);
    case _ =>
  }

  lemma {:induction false} FlattenFieldsFlat(fields: seq<Field>, dropLinks: bool)
    requires WellFormedFields(fields) && UniqueKeys(fields)
    requires "value" !in Keys(fields) && "items" !in Keys(fields)
    requires !dropLinks ==> "links" !in Keys(fields)
    ensures FlatFields(FlattenFields(fields, dropLinks))
    decreases fields, 0
  {
    if fields != [] {
      assert UniqueKeys(fields[1..]) by {
        forall i, j | 0 <= i < j < |fields[1..]| ensures fields[1..][i].key != fields[1..][j].key {
          assert fields[1..][i] == fields[i + 1] && fields[1..][j] == fields[j + 1];
        }
      }
      assert Keys(fields[1..]) == Keys(fields)[1..];
      if dropLinks && fields[0].key == "links" {
        assert "links" !in Keys(fields[1..]) by {
          forall i | 0 <= i < |fields[1..]| ensures fields[1..][i].key != "links" {
            assert fields[1..][i] == fields[i + 1];
          }
        }
        FlattenFieldsFlat(fields[1..], false);
      } else {
        assert fields[0].key == Keys(fields)[0];
        FlattenIsFlat(fields[0].value);
        FlattenFieldsFlat(fields[1..], dropLinks);
      }
    }
  }

  lemma {:induction false} FlattenItemsFlat(items: seq<Json>)
    requires WellFormedItems(items)
    ensures FlatItems(FlattenItems(items))
    decreases items, 0
  {
    if items != [] {
      FlattenIsFlat(items[0]);
      FlattenItemsFlat(items[1..]);
    }
  }

  /** A value without envelopes is its own flattening. */
  lemma {:induction false} FlattenFlatNoop(j: Json)
    requires Flat(j)
    ensures Flatten(j) == j
    decreases j, 2
  {
    match j
    case JObj(fields) =>
      FlatFieldsKeys(fields);
      FlattenFieldsNoop(fields, true);
    case JArr(items) => FlattenItemsNoop(items);
    case _ =>
  }

  lemma {:induction false} FlatFieldsKeys(fields: seq<Field>)
    requires FlatFields(fields)
    ensures "value" !in Keys(fields) && "items" !in Keys(fields) && "links" !in Keys(fields)
  {
    if fields != [] {
      FlatFieldsKeys(fields[1..]);
    }
  }

  lemma {:induction false} FlattenFieldsNoop(fields: seq<Field>, dropLinks: bool)
    requires FlatFields(fields)
    ensures FlattenFields(fields, dropLinks) == fields
    decreases fields, 0
  {
    if fields != [] {
      FlattenFlatNoop(fields[0].value);
      FlattenFieldsNoop(fields[1..], dropLinks);
    }
  }

  lemma {:induction false} FlattenItemsNoop(items: seq<Json>)
    requires FlatItems(items)
    ensures FlattenItems(items) == items
    decreases items, 0
  {
    if items != [] {
      FlattenFlatNoop(items[0]);
      FlattenItemsNoop(items[1..]);
    }
  }

  /** Flattening twice is flattening once. */
  lemma FlattenIdempotent(j: Json)
    requires WellFormed(j)
    ensures Flatten(Flatten(j)) == Flatten(j)
  {
    FlattenIsFlat(j);
    FlattenFlatNoop(Flatten(j));
  }
}
