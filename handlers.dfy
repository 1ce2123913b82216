/** The MCP server's search handlers (fca_mcp/mcp_server/handlers.py): the
    Elasticsearch query bodies they build from the tool arguments, and the
    way they reshape the hits of the response into the tool's result. The
    Elasticsearch client is a parameter: a function from an index name and a
    query body to a response document or the exception the call raised. */
module Handlers {
  import opened Wrappers
  import opened PyBuiltins
  import opened PyJson
  import opened StableSort

  /** `es_client.search(index=..., body=...)` */
  type Search = (string, Json) -> Result<Json, PyError>

  // ---------------------------------------------------------------------
  // Building JSON
  // ---------------------------------------------------------------------

  /** `{k: v}` */
  function Obj1(k: string, v: Json): Json {
    JObj([Field(k, v)])
  }

  /** A list of strings as a JSON list. */
  function Strs(xs: seq<string>): (r: seq<Json>)
    ensures |r| == |xs|
    ensures forall i :: 0 <= i < |xs| ==> r[i] == JStr(xs[i])
  {
    seq(|xs|, i requires 0 <= i < |xs| => JStr(xs[i]))
  }

  /** The value of `j` under key `k`, when `j` is a dict holding it. */
  function Get(j: Json, k: string): Option<Json> {
    if j.JObj? then Lookup(j.fields, k) else None
  }

  /** `Get` one level further down. */
  function GetIn(o: Option<Json>, k: string): Option<Json> {
    if o.Some? then Get(o.value, k) else None
  }

  /** An optional text argument counts as given when it is neither None nor
      empty (`if x:`). */
  predicate Given(x: Option<string>) {
    x.Some? && x.value != ""
  }

  /** The same for an optional integer argument: 0 counts as not given. */
  predicate GivenInt(x: Option<int>) {
    x.Some? && x.value != 0
  }

  /** `{"term": {field: value}}` */
  function Term(field: string, value: Json): Json {
    Obj1("term", Obj1(field, value))
  }

  // ---------------------------------------------------------------------
  // Query-building helpers
  // ---------------------------------------------------------------------

  /** build_date_range_filter: a range on `field` bounded below by `dateFrom`
      and above by `dateTo` (both inclusive), or nothing when neither is given. */
  function BuildDateRangeFilter(dateFrom: Option<string>, dateTo: Option<string>, field: string): (r: Option<Json>)
    ensures r.None? <==> !Given(dateFrom) && !Given(dateTo)
    ensures r.Some? ==> Truthy(r.value)
    ensures r.Some? ==> GetIn(GetIn(Get(r.value, "range"), field), "gte") == (if Given(dateFrom) then Some(JStr(dateFrom.value)) else None)
    ensures r.Some? ==> GetIn(GetIn(Get(r.value, "range"), field), "lte") == (if Given(dateTo) then Some(JStr(dateTo.value)) else None)
  {
    if !Given(dateFrom) && !Given(dateTo) then None
    else
      var lower := if Given(dateFrom) then [Field("gte", JStr(dateFrom.value))] else [];
      var upper := if Given(dateTo) then [Field("lte", JStr(dateTo.value))] else [];
      LookupAppend(lower, upper, "lte");
      assert Given(dateTo) ==> Lookup(upper, "lte") == Some(JStr(dateTo.value));
      Some(Obj1("range", Obj1(field, JObj(lower + upper))))
  }

  /** build_house_filter: a term filter on the house, when one is given. */
  function BuildHouseFilter(house: Option<string>): (r: Option<Json>)
    ensures r.Some? <==> Given(house)
    ensures r.Some? ==> Truthy(r.value) && GetIn(Get(r.value, "term"), "House.keyword") == Some(JStr(house.value))
  {
    if !Given(house) then None else Some(Term("House.keyword", JStr(house.value)))
  }

  /** add_filter_if_exists: appends a filter that is present and non-empty. */
  function AddFilterIfExists(filters: seq<Json>, filter: Option<Json>): (r: seq<Json>)
    ensures filter.Some? && Truthy(filter.value) ==> r == filters + [filter.value]
    ensures filter.None? || !Truthy(filter.value) ==> r == filters
  {
    if filter.Some? && Truthy(filter.value) then filters + [filter.value] else filters
  }

  /** build_source_fields: the `_source` includes, with excludes only when
      there are some. */
  function BuildSourceFields(includes: seq<string>, excludes: seq<string>): (r: Json)
    ensures Get(r, "includes") == Some(JArr(Strs(includes)))
    ensures Get(r, "excludes").Some? <==> excludes != []
    ensures excludes != [] ==> Get(r, "excludes") == Some(JArr(Strs(excludes)))
  {
    var base := [Field("includes", JArr(Strs(includes)))];
    LookupFirst(base + [Field("excludes", JArr(Strs(excludes)))], 1, "excludes");
    assert Lookup(base, "excludes") == Lookup(base[1..], "excludes") == None;
    if excludes != [] then JObj(base + [Field("excludes", JArr(Strs(excludes)))]) else JObj(base)
  }

  /** build_semantic_query: a semantic query for `query` on the field
      `target`; the boost is a float, kept as its decimal text. */
  function BuildSemanticQuery(query: string, target: string, boost: string): (r: Json)
    ensures GetIn(Get(r, "semantic"), "field") == Some(JStr(target))
    ensures GetIn(Get(r, "semantic"), "query") == Some(JStr(query))
    ensures GetIn(Get(r, "semantic"), "boost") == Some(JFloat(boost))
  {
    var inner := [Field("field", JStr(target)), Field("query", JStr(query)), Field("boost", JFloat(boost))];
    LookupFirst(inner, 0, "field");
    LookupFirst(inner, 1, "query");
    LookupFirst(inner, 2, "boost");
    Obj1("semantic", JObj(inner))
  }

  // ---------------------------------------------------------------------
  // clean_semantic_fields and extract_semantic_text
  // ---------------------------------------------------------------------

  /** A `semantic_text` value as stored is a dict holding the text under
      `text`; such a value is replaced by that text, anything else is kept. */
  function CleanedValue(v: Json): Json {
    if v.JObj? && Lookup(v.fields, "text").Some? then Lookup(v.fields, "text").value else v
  }

  /** The dict clean_semantic_fields has built after the given entries. */
  function CleanedFields(fields: seq<Field>): seq<Field> {
    if fields == [] then []
    else
      var last := fields[|fields| - 1];
      SetKey(CleanedFields(fields[..|fields| - 1]), last.key, CleanedValue(last.value))
  }

  /** clean_semantic_fields(result): only a dict has `.items()`. */
  function CleanSemantic(result: Json): Result<Json, PyError> {
    if result.JObj? then Ok(JObj(CleanedFields(result.fields))) else Err(AttributeError)
  }

  /** clean_semantic_fields */
  method CleanSemanticFields(result: Json) returns (r: Result<Json, PyError>)
    ensures r == CleanSemantic(result)
  {
    if !result.JObj? {
      return Err(AttributeError);
    }
    var items := result.fields;
    var cleaned: seq<Field> := [];
    var i := 0;
    while i < |items|
      invariant 0 <= i <= |items|
      invariant cleaned == CleanedFields(items[..i])
    {
      var key, value := items[i].key, items[i].value;
      assert items[..i + 1][..i] == items[..i];
      if value.JObj? && Lookup(value.fields, "text").Some? {
        cleaned := SetKey(cleaned, key, Lookup(value.fields, "text").value);
      } else {
        cleaned := SetKey(cleaned, key, value);
      }
      i := i + 1;
    }
    assert items[..|items|] == items;
    r := Ok(JObj(cleaned));
  }

  /** The cleaned dict has the keys of the original and, under each, the
      original value with its semantic wrapper removed. */
  lemma {:induction false} CleanedFieldsLookup(fields: seq<Field>, k: string)
    requires UniqueKeys(fields)
    ensures Lookup(CleanedFields(fields), k) ==
      match Lookup(fields, k) case None => None case Some(v) => Some(CleanedValue(v))
    decreases |fields|
  {
    if fields != [] {
      var prefix := fields[..|fields| - 1];
      var last := fields[|fields| - 1];
      assert fields == prefix + [last];
      CleanedFieldsLookup(prefix, k);
      SetKeyLookup(CleanedFields(prefix), last.key, CleanedValue(last.value), k);
      LookupKeys(prefix, k);
      if k == last.key {
        assert k !in Keys(prefix);
        LookupAppend(prefix, [last], k);
      } else {
        assert forall i :: 0 <= i < 1 ==> [last][i].key != k;
        LookupAppendRight(prefix, [last], k);
      }
    }
  }

  /** A key missing from the second part is read from the first. */
  lemma {:induction false} LookupAppendRight(a: seq<Field>, b: seq<Field>, k: string)
    requires forall i :: 0 <= i < |b| ==> b[i].key != k
    ensures Lookup(a + b, k) == Lookup(a, k)
  {
    if a == [] {
      LookupKeys(b, k);
    } else {
      assert (a + b)[1..] == a[1..] + b;
      LookupAppendRight(a[1..], b, k);
    }
  }

  /** In a dict with distinct keys, no entry's key occurs before it. */
  lemma KeyIsNew(fields: seq<Field>, n: nat)
    requires UniqueKeys(fields) && n < |fields|
    ensures fields[n].key !in Keys(fields[..n])
  {
    forall i | 0 <= i < n ensures Keys(fields[..n])[i] != fields[n].key {
      assert fields[..n][i] == fields[i];
    }
  }

  /** A dict is cleaned entry by entry: its keys stay in their order. */
  lemma CleanedFieldsKeys(fields: seq<Field>)
    requires UniqueKeys(fields)
    ensures Keys(CleanedFields(fields)) == Keys(fields)
  {
    CleanedPrefixKeys(fields, |fields|);
    assert fields[..|fields|] == fields;
  }

  /** The induction of `CleanedFieldsKeys`, over the first `n` entries. */
  lemma {:induction false} CleanedPrefixKeys(fields: seq<Field>, n: nat)
    requires UniqueKeys(fields) && n <= |fields|
    ensures Keys(CleanedFields(fields[..n])) == Keys(fields[..n])
  {
    if n > 0 {
      TakeOneMore(fields, n);
      CleanedPrefixKeys(fields, n - 1);
      KeyIsNew(fields, n - 1);
      CleanedFieldsAppend(fields[..n - 1], fields[n - 1]);
    }
  }

  /** Cleaning one more entry with a new key appends that key. */
  lemma CleanedFieldsAppend(prefix: seq<Field>, last: Field)
    requires Keys(CleanedFields(prefix)) == Keys(prefix) && last.key !in Keys(prefix)
    ensures Keys(CleanedFields(prefix + [last])) == Keys(prefix + [last])
  {
    var c := CleanedFields(prefix);
    var added := Field(last.key, CleanedValue(last.value));
    assert (prefix + [last])[..|prefix|] == prefix;
    assert CleanedFields(prefix + [last]) == SetKey(c, last.key, CleanedValue(last.value)) == c + [added];
    KeysSnoc(c, added);
    KeysSnoc(prefix, last);
  }

  /** extract_semantic_text: the text of a semantic dict, otherwise `str()`
      of the value, with None as the empty string. */
  function ExtractSemanticText(v: Json): Json {
    if v.JObj? && Lookup(v.fields, "text").Some? then Lookup(v.fields, "text").value
    else if v.JNull? then JStr("")
    else JStr(PyStr(v))
  }

  /** On strings and semantic dicts the two helpers agree; on None they do
      not (None is kept by the one and becomes "" in the other). */
  lemma CleanedValueMatchesExtract(v: Json)
    ensures v.JStr? || (v.JObj? && Lookup(v.fields, "text").Some?) ==> CleanedValue(v) == ExtractSemanticText(v)
    ensures CleanedValue(JNull) == JNull && ExtractSemanticText(JNull) == JStr("")
  {
  }

  /** On a dict without "text" the two helpers part: the semantic-text
      extractor renders the dict with `str`, the hit parser gives "". */
  lemma TextHelpersDisagree(fields: seq<Field>)
    requires Lookup(fields, "text").None?
    ensures SafeGetText(JObj(fields)) == JStr("")
    ensures ExtractSemanticText(JObj(fields)) == JStr(PyStr(JObj(fields)))
    ensures ExtractSemanticText(JObj(fields)) != SafeGetText(JObj(fields))
  {
    assert PyStr(JObj(fields))[0] == '{';
  }

  /** Cleaning a cleaned value again unwraps one more level when the text
      was itself a semantic dict, so the cleaning is not idempotent. */
  lemma CleanedValueNotIdempotent()
    ensures var v := Obj1("text", Obj1("text", JStr("a")));
      CleanedValue(v) != CleanedValue(CleanedValue(v))
  {
    var v := Obj1("text", Obj1("text", JStr("a")));
    assert CleanedValue(v) == Obj1("text", JStr("a"));
    assert CleanedValue(CleanedValue(v)) == JStr("a");
  }

  // ---------------------------------------------------------------------
  // Reshaping hits
  // ---------------------------------------------------------------------

  /** How a handler turns one element of the response into a result. */
  datatype HitShape =
    | DebateBucket                                    // search_debates
    | ContributionHit                                 // search_hansard_contributions
    | QuestionHit(reformat: string -> Option<string>) // parse_parliamentary_questions_hit
    | CleanedSource                                   // clean_semantic_fields(hit["_source"])
    | RawSource                                       // hit["_source"]

  /** One debate per aggregation bucket, read from the bucket's top hit. */
  function DebateFromBucket(bucket: Json): Result<Json, PyError> {
    var info :- PyIndexKey(bucket, "debate_info");
    var outer :- PyIndexKey(info, "hits");
    var hits :- PyIndexKey(outer, "hits");
    var top :- PyIndexPos(hits, 0);
    var source :- PyIndexKey(top, "_source");
    var id :- PyIndexKey(source, "DebateSectionExtId");
    var title :- PyIndexKey(source, "DebateSection");
    var date :- PyIndexKey(source, "SittingDate");
    var house :- PyIndexKey(source, "House");
    var maxScore :- PyIndexKey(bucket, "max_score");
    var score :- PyIndexKey(maxScore, "value");
    // `source` is a dict by now, so `source.get` cannot raise
    var parents := Lookup(source.fields, "debate_parents").GetOr(JArr([]));
    Ok(JObj([Field("debate_id", id), Field("title", title), Field("date", date), Field("house", house),
             Field("relevance_score", score), Field("debate_parents", parents)]))
  }

  /** One contribution per hit. */
  function ContributionFromHit(hit: Json): Result<Json, PyError> {
    var source :- PyIndexKey(hit, "_source");
    var full :- PyIndexKey(source, "ContributionTextFull");
    var text :- PyIndexKey(full, "text");
    // `source` is a dict by now, so `source.get` cannot raise
    var date := Lookup(source.fields, "SittingDate").GetOr(JNull);
    var house := Lookup(source.fields, "House").GetOr(JNull);
    var memberId := Lookup(source.fields, "MemberId").GetOr(JNull);
    var memberName := Lookup(source.fields, "MemberName").GetOr(JNull);
    var score :- PyIndexKey(hit, "_score");
    var title :- PyIndexKey(source, "DebateSection");
    var debateUrl :- PyIndexKey(source, "debate_url");
    var contributionUrl :- PyIndexKey(source, "contribution_url");
    var order :- PyIndexKey(source, "OrderInDebateSection");
    var parents :- PyIndexKey(source, "debate_parents");
    Ok(JObj([Field("text", text), Field("date", date), Field("house", house), Field("member_id", memberId),
             Field("member_name", memberName), Field("relevance_score", score), Field("debate_title", title),
             Field("debate_url", debateUrl), Field("contribution_url", contributionUrl),
             Field("order_in_debate", order), Field("debate_parents", parents)]))
  }

  /** safe_get_text: the `text` of a dict (default ""), "" for None, and
      `str()` of anything else. */
  function SafeGetText(v: Json): (r: Json)
    ensures v.JStr? ==> r == v
    ensures v.JNull? ==> r == JStr("")
  {
    if v.JObj? then Lookup(v.fields, "text").GetOr(JStr(""))
    else if v.JNull? then JStr("")
    else JStr(PyStr(v))
  }

  /** parse_date: a falsy value gives None; a string is normalised by
      `datetime.fromisoformat(...).isoformat()` (`reformat`, None when it
      raises); any other value makes `fromisoformat` raise, giving None. */
  function ParseDate(reformat: string -> Option<string>, v: Json): (r: Json)
    ensures !Truthy(v) || !v.JStr? ==> r == JNull
    ensures v.JStr? && v.s != "" ==> r == (if reformat(v.s).Some? then JStr(reformat(v.s).value) else JNull)
  {
    if !Truthy(v) then JNull
    else if !v.JStr? then JNull
    else match reformat(v.s)
      case None => JNull
      case Some(t) => JStr(t)
  }

  /** `d.get(k)` on a dict. */
  function GetOrNone(fields: seq<Field>, k: string): Json {
    Lookup(fields, k).GetOr(JNull)
  }

  /** The keys of a parsed question hit, in order. */
  const QuestionHitKeys: seq<string> :=
    ["uin", "score", "questionText", "answerText", "askingMember", "answeringMember", "dateTabled", "dateAnswered"]

  /** parse_parliamentary_questions_hit */
  function ParseQuestionsHit(reformat: string -> Option<string>, hit: Json): Result<Json, PyError> {
    var source :- PyGet(hit, "_source", JObj([]));
    if !source.JObj? then Err(AttributeError)
    else
      var f := source.fields;
      var uin, score := GetOrNone(f, "uin"), GetOrNone(hit.fields, "_score");
      var question, answer := GetOrNone(f, "questionText"), GetOrNone(f, "answerText");
      var asking, answering := GetOrNone(f, "askingMember"), GetOrNone(f, "answeringMember");
      var tabled, answered := GetOrNone(f, "dateTabled"), GetOrNone(f, "dateAnswered");
      Ok(JObj([Field("uin", SafeGetText(uin)), Field("score", score),
               Field("questionText", SafeGetText(question)), Field("answerText", SafeGetText(answer)),
               Field("askingMember", asking), Field("answeringMember", answering),
               Field("dateTabled", ParseDate(reformat, tabled)), Field("dateAnswered", ParseDate(reformat, answered))]))
  }

  /** A hit parses exactly when it and its `_source` (default {}) are dicts,
      and the result then has the eight documented keys. */
  lemma ParseQuestionsHitSpec(reformat: string -> Option<string>, hit: Json)
    ensures ParseQuestionsHit(reformat, hit).Ok? <==>
      hit.JObj? && Lookup(hit.fields, "_source").GetOr(JObj([])).JObj?
    ensures ParseQuestionsHit(reformat, hit).Ok? ==>
      var r := ParseQuestionsHit(reformat, hit).value;
      r.JObj? && Keys(r.fields) == QuestionHitKeys
  {
    var r := ParseQuestionsHit(reformat, hit);
    if r.Ok? {
      var ks := Keys(r.value.fields);
      assert |ks| == |QuestionHitKeys|;
      forall i | 0 <= i < |ks| ensures ks[i] == QuestionHitKeys[i] {
      }
    }
  }

  /** A hit without a `_source` gives empty texts and no dates. */
  lemma ParseQuestionsHitWithoutSource(reformat: string -> Option<string>, hit: Json)
    requires hit.JObj? && Lookup(hit.fields, "_source").None?
    ensures ParseQuestionsHit(reformat, hit).Ok?
    ensures var r := ParseQuestionsHit(reformat, hit).value;
      r.fields[0].value == JStr("") && r.fields[2].value == JStr("") && r.fields[3].value == JStr("")
      && r.fields[6].value == JNull && r.fields[7].value == JNull
  {
  }

  /** The result one element of the response turns into. */
  function Reshape(shape: HitShape, item: Json): Result<Json, PyError> {
    match shape
    case DebateBucket => DebateFromBucket(item)
    case ContributionHit => ContributionFromHit(item)
    case QuestionHit(reformat) => ParseQuestionsHit(reformat, item)
    case CleanedSource =>
      var source :- PyIndexKey(item, "_source");
      CleanSemantic(source)
    case RawSource => PyIndexKey(item, "_source")
  }

  /** `Reshape` for a fixed shape, as a function value. */
  function ReshapeFn(shape: HitShape): Json -> Result<Json, PyError> {
    item => Reshape(shape, item)
  }

  lemma ReshapeFnApply(shape: HitShape, item: Json)
    ensures ReshapeFn(shape)(item) == Reshape(shape, item)
  {
  }

  /** The results list built by a handler's loop applying `f` to each
      element; the loop stops at the first element that raises. */
  function Collected(f: Json -> Result<Json, PyError>, items: seq<Json>): Result<seq<Json>, PyError> {
    if items == [] then Ok([])
    else
      var prev :- Collected(f, items[..|items| - 1]);
      var last :- f(items[|items| - 1]);
      Ok(prev + [last])
  }

  /** One loop iteration's body. */
  method ReshapeHit(shape: HitShape, item: Json) returns (r: Result<Json, PyError>)
    ensures r == Reshape(shape, item)
    ensures r == ReshapeFn(shape)(item)
  {
    ReshapeFnApply(shape, item);
    if shape.CleanedSource? {
      var source := PyIndexKey(item, "_source");
      if source.Err? {
        return Err(source.error);
      }
      r := CleanSemanticFields(source.value);
    } else {
      r := Reshape(shape, item);
    }
  }

  /** `for hit in ...: results.append(...)` */
  method CollectHits(shape: HitShape, items: seq<Json>) returns (r: Result<seq<Json>, PyError>)
    ensures r == Collected(ReshapeFn(shape), items)
  {
    var f := ReshapeFn(shape);
    var results: seq<Json> := [];
    var i := 0;
    while i < |items|
      invariant 0 <= i <= |items|
      invariant Collected(f, items[..i]) == Ok(results)
    {
      var one := ReshapeHit(shape, items[i]);
      CollectedStep(f, items, i);
      if one.Err? {
        CollectedStopsAtError(f, items, i + 1);
        return Err(one.error);
      }
      results := results + [one.value];
      i := i + 1;
    }
    assert items[..|items|] == items;
    r := Ok(results);
  }

  /** One more iteration of the loop. */
  lemma CollectedStep(f: Json -> Result<Json, PyError>, items: seq<Json>, i: nat)
    requires i < |items| && Collected(f, items[..i]).Ok?
    ensures f(items[i]).Err? ==> Collected(f, items[..i + 1]) == Err(f(items[i]).error)
    ensures f(items[i]).Ok? ==> Collected(f, items[..i + 1]) == Ok(Collected(f, items[..i]).value + [f(items[i]).value])
  {
    assert items[..i + 1][..i] == items[..i];
  }

  /** Once a prefix raises, the whole loop raises the same exception. */
  lemma {:induction false} CollectedStopsAtError(f: Json -> Result<Json, PyError>, items: seq<Json>, n: nat)
    requires n <= |items| && Collected(f, items[..n]).Err?
    ensures Collected(f, items) == Collected(f, items[..n])
    decreases |items| - n
  {
    if n < |items| {
      assert items[..n + 1][..n] == items[..n];
      CollectedStopsAtError(f, items, n + 1);
    } else {
      assert items[..n] == items;
    }
  }

  /** The loop succeeds exactly when every element succeeds, and then gives
      one result per element, in order. */
  lemma {:induction false} CollectedOk(f: Json -> Result<Json, PyError>, items: seq<Json>)
    ensures Collected(f, items).Ok? <==> forall i :: 0 <= i < |items| ==> f(items[i]).Ok?
    ensures Collected(f, items).Ok? ==>
      |Collected(f, items).value| == |items|
      && forall i :: 0 <= i < |items| ==> Collected(f, items).value[i] == f(items[i]).value
    decreases |items|
  {
    if items != [] {
      var prefix := items[..|items| - 1];
      CollectedOk(f, prefix);
      assert forall i :: 0 <= i < |prefix| ==> prefix[i] == items[i];
    }
  }

  /** When the loop raises, it raises what the first failing element raises. */
  lemma {:induction false} CollectedErr(f: Json -> Result<Json, PyError>, items: seq<Json>)
    requires Collected(f, items).Err?
    ensures exists i :: (0 <= i < |items| && f(items[i]) == Err(Collected(f, items).error)
      && forall j :: 0 <= j < i ==> f(items[j]).Ok?)
    decreases |items|
  {
    var prefix := items[..|items| - 1];
    var e := Collected(f, items).error;
    assert forall i :: 0 <= i < |prefix| ==> prefix[i] == items[i];
    if Collected(f, prefix).Err? {
      CollectedErr(f, prefix);
      var i :| 0 <= i < |prefix| && f(prefix[i]) == Err(Collected(f, prefix).error)
        && forall j :: 0 <= j < i ==> f(prefix[j]).Ok?;
      assert f(items[i]) == Err(e);
    } else {
      CollectedOk(f, prefix);
      assert f(items[|items| - 1]) == Err(e);
    }
  }

  /** `response[k1][k2]...`, iterated. */
  function ItemsAt(response: Json, path: seq<string>): Result<seq<Json>, PyError>
    decreases |path|
  {
    if path == [] then PyIter(response)
    else
      var next :- PyIndexKey(response, path[0]);
      ItemsAt(next, path[1..])
  }

  /** What a search handler returns for the client's response: the elements
      found under `path`, each reshaped. */
  function Answer(response: Result<Json, PyError>, path: seq<string>, shape: HitShape): Result<seq<Json>, PyError> {
    var body :- response;
    var items :- ItemsAt(body, path);
    Collected(ReshapeFn(shape), items)
  }

  /** The hits of a search response. */
  const HitsPath: seq<string> := ["hits", "hits"]

  /** Runs the query and reshapes the elements under `path`. */
  method RunSearch(search: Search, index: string, body: Json, path: seq<string>, shape: HitShape)
    returns (r: Result<seq<Json>, PyError>)
    ensures r == Answer(search(index, body), path, shape)
  {
    var response := search(index, body);
    if response.Err? {
      return Err(response.error);
    }
    var items := ItemsAt(response.value, path);
    if items.Err? {
      return Err(items.error);
    }
    r := CollectHits(shape, items.value);
  }

  // ---------------------------------------------------------------------
  // search_debates
  // ---------------------------------------------------------------------

  /** Contributions with an empty or missing attribution are never searched. */
  const AttributionFilters: seq<Json> := [
    Obj1("exists", Obj1("field", JStr("AttributedTo"))),
    Obj1("bool", Obj1("must_not", Term("AttributedTo", JStr(""))))
  ]

  function DebateFilters(dateFrom: Option<string>, dateTo: Option<string>, house: Option<string>): seq<Json> {
    AddFilterIfExists(AddFilterIfExists(AttributionFilters, BuildDateRangeFilter(dateFrom, dateTo, "SittingDate")),
                      BuildHouseFilter(house))
  }

  /** The attribution filters always come first, then the sitting-date range
      when a date is given and the house when one is given. */
  lemma DebateFiltersSpec(dateFrom: Option<string>, dateTo: Option<string>, house: Option<string>)
    ensures var r := DebateFilters(dateFrom, dateTo, house);
      && |r| == 2 + (if Given(dateFrom) || Given(dateTo) then 1 else 0) + (if Given(house) then 1 else 0)
      && r[..2] == AttributionFilters
      && (Given(dateFrom) || Given(dateTo) ==> r[2] == BuildDateRangeFilter(dateFrom, dateTo, "SittingDate").value)
      && (Given(house) ==> r[|r| - 1] == BuildHouseFilter(house).value)
  {
  }

  /** The terms aggregation grouping contributions by debate: at most
      `maxResults` debates with at least two contributions each, best score
      first, each with one representative hit. */
  function DebateAggregations(maxResults: int): Json {
    Obj1("unique_debates", JObj([Field("terms", DebateTerms(maxResults)), Field("aggs", DebateSubAggregations())]))
  }

  function DebateTerms(maxResults: int): Json {
    JObj([Field("field", JStr("DebateSectionExtId.keyword")), Field("size", JInt(maxResults)),
          Field("min_doc_count", JInt(2)), Field("order", Obj1("max_score", JStr("desc")))])
  }

  function DebateSubAggregations(): Json {
    var topHit := JObj([Field("_source", JArr(Strs(["DebateSection", "SittingDate", "DebateSectionExtId",
                                                     "debate_parents.ExternalId", "debate_parents.Title", "House"]))),
                        Field("size", JInt(1))]);
    JObj([Field("max_score", Obj1("max", Obj1("script", Obj1("source", JStr("_score"))))),
          Field("debate_info", Obj1("top_hits", topHit))])
  }

  /** The bool query of search_debates. */
  function DebatesBool(query: Option<string>, filters: seq<Json>): Json {
    var must := if Given(query)
      then [Field("must", JArr([Obj1("match", Obj1("debate_parents.Title", Obj1("query", JStr(query.value))))]))]
      else [];
    JObj([Field("filter", JArr(filters))] + must)
  }

  /** The query body of search_debates. */
  function DebatesQuery(query: Option<string>, dateFrom: Option<string>, dateTo: Option<string>, house: Option<string>,
                        maxResults: int): (r: Json)
    ensures r.JObj? && Lookup(r.fields, "size") == Some(JInt(0))
  {
    JObj([Field("query", Obj1("bool", DebatesBool(query, DebateFilters(dateFrom, dateTo, house)))),
          Field("size", JInt(0)), Field("aggs", DebateAggregations(maxResults))])
  }

  /** The body filters as above and matches the debate titles only when
      there is a query. */
  lemma DebatesQueryFilters(query: Option<string>, dateFrom: Option<string>, dateTo: Option<string>, house: Option<string>,
                            maxResults: int)
    ensures var body := DebatesQuery(query, dateFrom, dateTo, house, maxResults);
      && GetIn(GetIn(Get(body, "query"), "bool"), "filter") == Some(JArr(DebateFilters(dateFrom, dateTo, house)))
      && (GetIn(GetIn(Get(body, "query"), "bool"), "must").Some? <==> Given(query))
  {
    var b := DebatesBool(query, DebateFilters(dateFrom, dateTo, house));
    if Given(query) {
      LookupFirst(b.fields, 1, "must");
    } else {
      assert Lookup(b.fields, "must") == Lookup(b.fields[1..], "must") == None;
    }
  }

  /** The body returns no hits itself (`size` 0) and asks for `maxResults`
      debates with at least two contributions each. */
  lemma DebatesQueryAggregation(query: Option<string>, dateFrom: Option<string>, dateTo: Option<string>,
                                house: Option<string>, maxResults: int)
    ensures var body := DebatesQuery(query, dateFrom, dateTo, house, maxResults);
      && Get(body, "size") == Some(JInt(0))
      && GetIn(GetIn(GetIn(Get(body, "aggs"), "unique_debates"), "terms"), "size") == Some(JInt(maxResults))
      && GetIn(GetIn(GetIn(Get(body, "aggs"), "unique_debates"), "terms"), "min_doc_count") == Some(JInt(2))
  {
    var body := DebatesQuery(query, dateFrom, dateTo, house, maxResults);
    LookupFirst(body.fields, 1, "size");
    LookupFirst(body.fields, 2, "aggs");
    var terms := DebateTerms(maxResults);
    LookupFirst(terms.fields, 1, "size");
    LookupFirst(terms.fields, 2, "min_doc_count");
  }

  /** Where search_debates finds its debates in the response. */
  const BucketsPath: seq<string> := ["aggregations", "unique_debates", "buckets"]

  /** search_debates: a query or a date is required. */
  method SearchDebates(search: Search, index: string, query: Option<string>, dateFrom: Option<string>,
                       dateTo: Option<string>, house: Option<string>, maxResults: int)
    returns (r: Result<seq<Json>, PyError>)
    ensures !Given(query) && !Given(dateFrom) && !Given(dateTo) ==> r == Err(ValueError)
    ensures Given(query) || Given(dateFrom) || Given(dateTo) ==>
      r == Answer(search(index, DebatesQuery(query, dateFrom, dateTo, house, maxResults)), BucketsPath, DebateBucket)
  {
    if !Given(query) && !Given(dateFrom) && !Given(dateTo) {
      return Err(ValueError);
    }
    r := RunSearch(search, index, DebatesQuery(query, dateFrom, dateTo, house, maxResults), BucketsPath, DebateBucket);
  }

  // ---------------------------------------------------------------------
  // search_hansard_contributions
  // ---------------------------------------------------------------------

  function ContributionFilters(memberId: Option<int>, debateId: Option<string>, dateFrom: Option<string>,
                               dateTo: Option<string>, house: Option<string>): seq<Json> {
    var byMember := if GivenInt(memberId) then [Term("MemberId", JInt(memberId.value))] else [];
    var byDebate := if Given(debateId) then [Term("DebateSectionExtId.keyword", JStr(debateId.value))] else [];
    AddFilterIfExists(AddFilterIfExists(byMember + byDebate, BuildDateRangeFilter(dateFrom, dateTo, "SittingDate")),
                      BuildHouseFilter(house))
  }

  /** One filter per criterion given, in the order member, debate, dates, house. */
  lemma ContributionFiltersSpec(memberId: Option<int>, debateId: Option<string>, dateFrom: Option<string>,
                                dateTo: Option<string>, house: Option<string>)
    ensures var r := ContributionFilters(memberId, debateId, dateFrom, dateTo, house);
      && |r| == (if GivenInt(memberId) then 1 else 0) + (if Given(debateId) then 1 else 0)
                + (if Given(dateFrom) || Given(dateTo) then 1 else 0) + (if Given(house) then 1 else 0)
      && (GivenInt(memberId) ==> r[0] == Term("MemberId", JInt(memberId.value)))
      && (Given(house) ==> r[|r| - 1] == BuildHouseFilter(house).value)
      && (r == [] <==> !GivenInt(memberId) && !Given(debateId) && !Given(dateFrom) && !Given(dateTo) && !Given(house))
  {
  }

  const ContributionSort: seq<Json> := [
    Obj1("_score", Obj1("order", JStr("desc"))),
    Obj1("SittingDate", Obj1("order", JStr("asc"))),
    Obj1("debate_parents.ExternalId.keyword", Obj1("order", JStr("asc"))),
    Obj1("OrderInDebateSection", Obj1("order", JStr("asc")))
  ]

  /** The stored fields search_hansard_contributions returns. */
  function ContributionSource(): Json {
    BuildSourceFields(
      ["contribution_url", "debate_url", "ContributionTextFull.text", "SittingDate", "OrderInDebateSection", "House",
       "MemberId", "MemberName", "debate_parents.ExternalId", "debate_parents.Title", "DebateSection"],
      ["ContributionTextFull.inference"])
  }

  /** The bool query of search_hansard_contributions. */
  function ContributionsBool(query: Option<string>, filters: seq<Json>): Json {
    var must := if Given(query) then [Field("must", JArr([BuildSemanticQuery(query.value, "ContributionTextFull", "1.0")]))] else [];
    JObj([Field("filter", JArr(filters))] + must)
  }

  /** The query body of search_hansard_contributions; `minScore` is the
      float `min_score`, as its decimal text. */
  function ContributionsQuery(query: Option<string>, filters: seq<Json>, maxResults: int, minScore: string): (r: Json)
    ensures r.JObj? && |r.fields| == if Given(query) then 5 else 4
    ensures Given(query) ==> r.fields[4] == Field("min_score", JFloat(minScore))
  {
    var threshold := if Given(query) then [Field("min_score", JFloat(minScore))] else [];
    JObj([Field("_source", ContributionSource()), Field("query", Obj1("bool", ContributionsBool(query, filters))),
          Field("size", JInt(maxResults)), Field("sort", JArr(ContributionSort))] + threshold)
  }

  /** A query turns the filtered listing into a semantic search; without
      one, every filtered contribution qualifies. */
  lemma ContributionsQueryMatch(query: Option<string>, filters: seq<Json>, maxResults: int, minScore: string)
    ensures var body := ContributionsQuery(query, filters, maxResults, minScore);
      && GetIn(GetIn(Get(body, "query"), "bool"), "filter") == Some(JArr(filters))
      && (GetIn(GetIn(Get(body, "query"), "bool"), "must").Some? <==> Given(query))
  {
    var b := ContributionsBool(query, filters);
    var base := [Field("_source", ContributionSource()), Field("query", Obj1("bool", b)),
                 Field("size", JInt(maxResults)), Field("sort", JArr(ContributionSort))];
    var threshold := if Given(query) then [Field("min_score", JFloat(minScore))] else [];
    assert ContributionsQuery(query, filters, maxResults, minScore) == JObj(base + threshold);
    LookupFirst(base + threshold, 1, "query");
    assert GetIn(Some(Obj1("bool", b)), "bool") == Some(b);
    LookupFirst(b.fields, 0, "filter");
    if Given(query) {
      LookupFirst(b.fields, 1, "must");
    } else {
      assert b.fields == [Field("filter", JArr(filters))];
    }
  }

  /** A minimum score is sent exactly when there is a query; the page size
      is `maxResults`. */
  lemma ContributionsQueryThreshold(query: Option<string>, filters: seq<Json>, maxResults: int, minScore: string)
    ensures var body := ContributionsQuery(query, filters, maxResults, minScore);
      && Get(body, "min_score") == (if Given(query) then Some(JFloat(minScore)) else None)
      && Get(body, "size") == Some(JInt(maxResults))
  {
    var base := [Field("_source", ContributionSource()), Field("query", Obj1("bool", ContributionsBool(query, filters))),
                 Field("size", JInt(maxResults)), Field("sort", JArr(ContributionSort))];
    var threshold := if Given(query) then [Field("min_score", JFloat(minScore))] else [];
    assert ContributionsQuery(query, filters, maxResults, minScore) == JObj(base + threshold);
    LookupAppend(base, threshold, "min_score");
    LookupFirst(base + threshold, 2, "size");
  }

  /** search_hansard_contributions: at least one criterion is required. */
  method SearchHansardContributions(search: Search, index: string, query: Option<string>, memberId: Option<int>,
                                    dateFrom: Option<string>, dateTo: Option<string>, debateId: Option<string>,
                                    house: Option<string>, maxResults: int, minScore: string)
    returns (r: Result<seq<Json>, PyError>)
    ensures !Given(query) && !GivenInt(memberId) && !Given(dateFrom) && !Given(dateTo) && !Given(debateId) && !Given(house)
      ==> r == Err(ValueError)
    ensures Given(query) || GivenInt(memberId) || Given(dateFrom) || Given(dateTo) || Given(debateId) || Given(house) ==>
      r == Answer(search(index, ContributionsQuery(query, ContributionFilters(memberId, debateId, dateFrom, dateTo, house),
                                                   maxResults, minScore)),
                  HitsPath, ContributionHit)
  {
    if !Given(query) && !GivenInt(memberId) && !Given(dateFrom) && !Given(dateTo) && !Given(debateId) && !Given(house) {
      return Err(ValueError);
    }
    var filters := ContributionFilters(memberId, debateId, dateFrom, dateTo, house);
    r := RunSearch(search, index, ContributionsQuery(query, filters, maxResults, minScore), HitsPath, ContributionHit);
  }

  // ---------------------------------------------------------------------
  // search_parliamentary_questions
  // ---------------------------------------------------------------------

  /** A term filter on `field` when the argument is given. */
  function OptTerm(field: string, x: Option<string>): (r: seq<Json>)
    ensures |r| == if Given(x) then 1 else 0
    ensures Given(x) ==> r == [Term(field, JStr(x.value))]
  {
    if Given(x) then [Term(field, JStr(x.value))] else []
  }

  function QuestionFilters(startDate: Option<string>, endDate: Option<string>, party: Option<string>,
                           memberName: Option<string>, memberId: Option<int>): seq<Json> {
    AddFilterIfExists([Obj1("exists", Obj1("field", JStr("dateTabled")))], BuildDateRangeFilter(startDate, endDate, "dateTabled"))
    + OptTerm("askingMember.party.keyword", party)
    + OptTerm("askingMember.name.keyword", memberName)
    + (if GivenInt(memberId) then [Term("askingMember.id", JInt(memberId.value))] else [])
  }

  function QuestionSource(): Json {
    BuildSourceFields(["uin", "questionText", "answerText", "askingMember", "answeringMember", "dateTabled", "dateAnswered"],
                      ["questionText.inference", "answerText.inference"])
  }

  /** The `bool` query of build_parliamentary_questions_query. */
  function QuestionsBool(query: Option<string>, startDate: Option<string>, endDate: Option<string>,
                         party: Option<string>, memberName: Option<string>, memberId: Option<int>): Json {
    if Given(query) then
      JObj([Field("should", JArr([BuildSemanticQuery(query.value, "questionText", "1.0"),
                                  BuildSemanticQuery(query.value, "answerText", "0.8")])),
            Field("minimum_should_match", JInt(1))])
    else Obj1("must", JArr(QuestionFilters(startDate, endDate, party, memberName, memberId)))
  }

  /** build_parliamentary_questions_query: a semantic search over question
      and answer texts when there is a query, otherwise the filters alone. */
  function QuestionsQuery(query: Option<string>, minScore: string, startDate: Option<string>, endDate: Option<string>,
                          party: Option<string>, memberName: Option<string>, memberId: Option<int>): (r: Json)
    ensures Get(r, "min_score") == Some(JFloat(minScore))
    ensures GetIn(Get(r, "query"), "bool") == Some(QuestionsBool(query, startDate, endDate, party, memberName, memberId))
  {
    var b := QuestionsBool(query, startDate, endDate, party, memberName, memberId);
    var fields := [Field("min_score", JFloat(minScore)), Field("_source", QuestionSource()), Field("query", Obj1("bool", b))];
    LookupFirst(fields, 0, "min_score");
    LookupFirst(fields, 2, "query");
    LookupFirst(Obj1("bool", b).fields, 0, "bool");
    JObj(fields)
  }

  /** Without a query the body is the filter list, which always requires a
      tabling date. */
  lemma QuestionsQueryWithoutQuery(minScore: string, startDate: Option<string>, endDate: Option<string>,
                                   party: Option<string>, memberName: Option<string>, memberId: Option<int>)
    ensures var body := QuestionsQuery(None, minScore, startDate, endDate, party, memberName, memberId);
      && Get(body, "min_score") == Some(JFloat(minScore))
      && GetIn(GetIn(Get(body, "query"), "bool"), "must")
           == Some(JArr(QuestionFilters(startDate, endDate, party, memberName, memberId)))
    ensures QuestionFilters(startDate, endDate, party, memberName, memberId)[0] == Obj1("exists", Obj1("field", JStr("dateTabled")))
  {
    var filters := QuestionFilters(startDate, endDate, party, memberName, memberId);
    assert QuestionsBool(None, startDate, endDate, party, memberName, memberId) == Obj1("must", JArr(filters));
    var head := [Obj1("exists", Obj1("field", JStr("dateTabled")))];
    var withRange := AddFilterIfExists(head, BuildDateRangeFilter(startDate, endDate, "dateTabled"));
    assert withRange[0] == head[0];
    assert filters[0] == withRange[0];
  }

  /** With a query the body asks for at least one of the two semantic
      clauses and has no required clauses. */
  lemma QuestionsQueryWithQuery(query: string, minScore: string, startDate: Option<string>, endDate: Option<string>,
                                party: Option<string>, memberName: Option<string>, memberId: Option<int>)
    requires query != []
    ensures var b := GetIn(Get(QuestionsQuery(Some(query), minScore, startDate, endDate, party, memberName, memberId), "query"), "bool");
      && GetIn(b, "must").None?
      && GetIn(b, "minimum_should_match") == Some(JInt(1))
      && GetIn(b, "should") == Some(JArr([BuildSemanticQuery(query, "questionText", "1.0"),
                                         BuildSemanticQuery(query, "answerText", "0.8")]))
  {
    var should := [BuildSemanticQuery(query, "questionText", "1.0"), BuildSemanticQuery(query, "answerText", "0.8")];
    var inner := [Field("should", JArr(should)), Field("minimum_should_match", JInt(1))];
    assert QuestionsBool(Some(query), startDate, endDate, party, memberName, memberId) == JObj(inner);
    LookupFirst(inner, 1, "minimum_should_match");
    assert Lookup(inner, "must") == Lookup(inner[1..], "must") == Lookup(inner[2..], "must") == None;
  }

  /** With a query, the filter arguments make no difference to the body. */
  lemma QuestionsQueryIgnoresFiltersWithQuery(query: Option<string>, minScore: string,
                                              s1: Option<string>, e1: Option<string>, p1: Option<string>, n1: Option<string>, m1: Option<int>,
                                              s2: Option<string>, e2: Option<string>, p2: Option<string>, n2: Option<string>, m2: Option<int>)
    requires Given(query)
    ensures QuestionsQuery(query, minScore, s1, e1, p1, n1, m1) == QuestionsQuery(query, minScore, s2, e2, p2, n2, m2)
  {
  }

  /** search_parliamentary_questions: the minimum score is 0.5; each hit is
      parsed by parse_parliamentary_questions_hit, with `reformat` standing
      for `datetime.fromisoformat(...).isoformat()`. */
  method SearchParliamentaryQuestions(search: Search, index: string, query: Option<string>, dateFrom: Option<string>,
                                      dateTo: Option<string>, party: Option<string>, memberName: Option<string>,
                                      memberId: Option<int>, reformat: string -> Option<string>)
    returns (r: Result<seq<Json>, PyError>)
    ensures r == Answer(search(index, QuestionsQuery(query, "0.5", dateFrom, dateTo, party, memberName, memberId)),
                        HitsPath, QuestionHit(reformat))
  {
    var body := QuestionsQuery(query, "0.5", dateFrom, dateTo, party, memberName, memberId);
    r := RunSearch(search, index, body, HitsPath, QuestionHit(reformat));
  }

  // ---------------------------------------------------------------------
  // The FCA searches
  // ---------------------------------------------------------------------

  /** The body shared by the FCA searches: required clauses, filters, a page
      size and the stored fields to return. */
  function SearchBody(must: seq<Json>, filters: seq<Json>, limit: int, source: Json): Json {
    JObj([Field("query", Obj1("bool", JObj([Field("must", JArr(must)), Field("filter", JArr(filters))]))),
          Field("size", JInt(limit)), Field("_source", source)])
  }

  lemma SearchBodySpec(must: seq<Json>, filters: seq<Json>, limit: int, source: Json)
    ensures var body := SearchBody(must, filters, limit, source);
      && GetIn(GetIn(Get(body, "query"), "bool"), "must") == Some(JArr(must))
      && GetIn(GetIn(Get(body, "query"), "bool"), "filter") == Some(JArr(filters))
      && Get(body, "size") == Some(JInt(limit))
      && Get(body, "_source") == Some(source)
  {
    var body := SearchBody(must, filters, limit, source);
    LookupFirst(GetIn(Get(body, "query"), "bool").value.fields, 1, "filter");
    LookupFirst(body.fields, 1, "size");
    LookupFirst(body.fields, 2, "_source");
  }

  /** Semantic queries for `query` on each (field, boost) pair. */
  function SemanticQueries(query: string, targets: seq<(string, string)>): (r: seq<Json>)
    ensures |r| == |targets|
    ensures forall i :: 0 <= i < |targets| ==> r[i] == BuildSemanticQuery(query, targets[i].0, targets[i].1)
  {
    seq(|targets|, i requires 0 <= i < |targets| => BuildSemanticQuery(query, targets[i].0, targets[i].1))
  }

  /** search_fca_handbook: current provisions only, unless asked otherwise. */
  function HandbookFilters(isCurrent: bool, chapter: Option<string>, contentType: Option<string>): seq<Json> {
    (if isCurrent then [Term("is_current", JBool(true))] else [])
    + OptTerm("chapter.keyword", chapter) + OptTerm("content_type.keyword", contentType)
  }

  /** The current-only filter is present exactly when asked for; one more
      filter for each of chapter and content type given. */
  lemma HandbookFiltersSpec(isCurrent: bool, chapter: Option<string>, contentType: Option<string>)
    ensures var r := HandbookFilters(isCurrent, chapter, contentType);
      && (Term("is_current", JBool(true)) in r <==> isCurrent)
      && |r| == (if isCurrent then 1 else 0) + (if Given(chapter) then 1 else 0) + (if Given(contentType) then 1 else 0)
  {
    var r := HandbookFilters(isCurrent, chapter, contentType);
    if !isCurrent {
      assert forall i :: 0 <= i < |r| ==> r[i].fields[0].value.fields[0].key != "is_current";
    }
  }

  function HandbookQuery(query: string, chapter: Option<string>, contentType: Option<string>, isCurrent: bool, limit: int): Json {
    SearchBody(SemanticQueries(query, [("content", "2.0"), ("title", "1.5")]),
               HandbookFilters(isCurrent, chapter, contentType), limit,
               BuildSourceFields(["section_id", "chapter", "section_number", "title", "content", "content_type",
                                  "effective_date", "handbook_url"], ["title.inference", "content.inference"]))
  }

  /** search_fca_handbook */
  method SearchFcaHandbook(search: Search, index: string, query: string, chapter: Option<string>,
                           contentType: Option<string>, isCurrent: bool, limit: int)
    returns (r: Result<seq<Json>, PyError>)
    ensures r == Answer(search(index, HandbookQuery(query, chapter, contentType, isCurrent, limit)), HitsPath, CleanedSource)
  {
    r := RunSearch(search, index, HandbookQuery(query, chapter, contentType, isCurrent, limit), HitsPath, CleanedSource);
  }

  /** The three semantic clauses of the publication searches. */
  function PublicationMust(query: string): seq<Json> {
    SemanticQueries(query, [("content", "2.0"), ("summary", "1.5"), ("title", "1.0")])
  }

  function PolicyStatementFilters(policyArea: Option<string>, psNumber: Option<string>, fromDate: Option<string>,
                                  toDate: Option<string>): seq<Json> {
    AddFilterIfExists(OptTerm("policy_area.keyword", policyArea) + OptTerm("ps_number.keyword", psNumber),
                      BuildDateRangeFilter(fromDate, toDate, "publication_date"))
  }

  function PolicyStatementsQuery(query: string, policyArea: Option<string>, fromDate: Option<string>, toDate: Option<string>,
                                 psNumber: Option<string>, limit: int): Json {
    SearchBody(PublicationMust(query), PolicyStatementFilters(policyArea, psNumber, fromDate, toDate), limit,
               BuildSourceFields(["ps_number", "title", "publication_date", "summary", "content", "policy_area", "fca_url"],
                                 ["title.inference", "summary.inference", "content.inference"]))
  }

  /** search_policy_statements */
  method SearchPolicyStatements(search: Search, index: string, query: string, policyArea: Option<string>,
                                fromDate: Option<string>, toDate: Option<string>, psNumber: Option<string>, limit: int)
    returns (r: Result<seq<Json>, PyError>)
    ensures r == Answer(search(index, PolicyStatementsQuery(query, policyArea, fromDate, toDate, psNumber, limit)),
                        HitsPath, CleanedSource)
  {
    r := RunSearch(search, index, PolicyStatementsQuery(query, policyArea, fromDate, toDate, psNumber, limit),
                   HitsPath, CleanedSource);
  }

  /** An open consultation closes now or later; a closed one closed before now. */
  function ConsultationStatusFilter(openForConsultation: Option<bool>): seq<Json> {
    match openForConsultation
    case None => []
    case Some(true) => [Obj1("range", Obj1("consultation_closes", Obj1("gte", JStr("now"))))]
    case Some(false) => [Obj1("range", Obj1("consultation_closes", Obj1("lt", JStr("now"))))]
  }

  function ConsultationPaperFilters(policyArea: Option<string>, cpNumber: Option<string>, openForConsultation: Option<bool>,
                                    fromDate: Option<string>, toDate: Option<string>): seq<Json> {
    AddFilterIfExists(OptTerm("policy_area.keyword", policyArea) + OptTerm("cp_number.keyword", cpNumber)
                      + ConsultationStatusFilter(openForConsultation),
                      BuildDateRangeFilter(fromDate, toDate, "publication_date"))
  }

  /** Asking for open papers and asking for closed ones bound the closing
      date on opposite sides of now; not asking adds no bound. */
  lemma ConsultationStatusFilterSpec(openForConsultation: Option<bool>)
    ensures openForConsultation.None? <==> ConsultationStatusFilter(openForConsultation) == []
    ensures openForConsultation == Some(true) ==>
      GetIn(GetIn(Get(ConsultationStatusFilter(openForConsultation)[0], "range"), "consultation_closes"), "gte") == Some(JStr("now"))
    ensures openForConsultation == Some(false) ==>
      GetIn(GetIn(Get(ConsultationStatusFilter(openForConsultation)[0], "range"), "consultation_closes"), "lt") == Some(JStr("now"))
    ensures ConsultationStatusFilter(Some(true)) != ConsultationStatusFilter(Some(false))
  {
    assert ConsultationStatusFilter(Some(true))[0].fields[0].value.fields[0].value.fields[0].key == "gte";
  }

  function ConsultationPapersQuery(query: string, policyArea: Option<string>, fromDate: Option<string>, toDate: Option<string>,
                                   cpNumber: Option<string>, openForConsultation: Option<bool>, limit: int): Json {
    SearchBody(PublicationMust(query), ConsultationPaperFilters(policyArea, cpNumber, openForConsultation, fromDate, toDate), limit,
               BuildSourceFields(["cp_number", "title", "publication_date", "consultation_closes", "summary", "content",
                                  "policy_area", "fca_url"],
                                 ["title.inference", "summary.inference", "content.inference"]))
  }

  /** search_consultation_papers */
  method SearchConsultationPapers(search: Search, index: string, query: string, policyArea: Option<string>,
                                  fromDate: Option<string>, toDate: Option<string>, cpNumber: Option<string>,
                                  openForConsultation: Option<bool>, limit: int)
    returns (r: Result<seq<Json>, PyError>)
    ensures r == Answer(search(index, ConsultationPapersQuery(query, policyArea, fromDate, toDate, cpNumber,
                                                              openForConsultation, limit)),
                        HitsPath, CleanedSource)
  {
    r := RunSearch(search, index, ConsultationPapersQuery(query, policyArea, fromDate, toDate, cpNumber, openForConsultation, limit),
                   HitsPath, CleanedSource);
  }

  /** `{"match": {field: {"query": text, "boost": boost}}}` */
  function BoostedMatch(field: string, text: string, boost: string): Json {
    Obj1("match", Obj1(field, JObj([Field("query", JStr(text)), Field("boost", JFloat(boost))])))
  }

  /** The status filter always applies (by default only authorised firms),
      then city and permissions when given. */
  function FirmFilters(firmStatus: string, city: Option<string>, permissions: Option<string>): seq<Json> {
    [Term("firm_status.keyword", JStr(firmStatus))] + OptTerm("city.keyword", city)
    + (if Given(permissions) then [Obj1("match", Obj1("permissions", JStr(permissions.value)))] else [])
  }

  /** The scoring clauses of search_authorised_firms: the query on names and
      trading names, the firm name on names, or everything when neither. */
  function FirmMust(query: Option<string>, firmName: Option<string>): seq<Json> {
    var clauses := (if Given(query) then [BoostedMatch("firm_name", query.value, "2.0"),
                                          BoostedMatch("trading_names", query.value, "1.5")] else [])
                   + (if Given(firmName) then [BoostedMatch("firm_name", firmName.value, "2.0")] else []);
    if clauses != [] then clauses else [Obj1("match_all", JObj([]))]
  }

  /** Without a query or a firm name every firm of the status matches; a
      query contributes two clauses and a firm name one. */
  lemma FirmMustSpec(query: Option<string>, firmName: Option<string>)
    ensures FirmMust(query, firmName) == [Obj1("match_all", JObj([]))] <==> !Given(query) && !Given(firmName)
    ensures Given(query) || Given(firmName) ==>
      |FirmMust(query, firmName)| == (if Given(query) then 2 else 0) + (if Given(firmName) then 1 else 0)
  {
    if Given(query) || Given(firmName) {
      assert FirmMust(query, firmName)[0].fields[0].key == "match";
    }
  }

  function AuthorisedFirmsQuery(query: Option<string>, firmName: Option<string>, city: Option<string>,
                                permissions: Option<string>, firmStatus: string, limit: int): Json {
    SearchBody(FirmMust(query, firmName), FirmFilters(firmStatus, city, permissions), limit,
               BuildSourceFields(["firm_reference_number", "firm_name", "trading_names", "firm_status", "permissions",
                                  "address_line_1", "city", "postcode", "country", "telephone", "register_url"], []))
  }

  /** search_authorised_firms: the stored documents are returned as they are. */
  method SearchAuthorisedFirms(search: Search, index: string, query: Option<string>, firmName: Option<string>,
                               city: Option<string>, permissions: Option<string>, firmStatus: string, limit: int)
    returns (r: Result<seq<Json>, PyError>)
    ensures r == Answer(search(index, AuthorisedFirmsQuery(query, firmName, city, permissions, firmStatus, limit)),
                        HitsPath, RawSource)
  {
    r := RunSearch(search, index, AuthorisedFirmsQuery(query, firmName, city, permissions, firmStatus, limit),
                   HitsPath, RawSource);
  }

  function FirmByFrnQuery(firmReferenceNumber: string): Json {
    JObj([Field("query", Term("firm_reference_number.keyword", JStr(firmReferenceNumber))), Field("size", JInt(1))])
  }

  /** get_firm_by_frn: the stored document of the first hit, or None when
      there is no hit. */
  function GetFirmByFrn(search: Search, index: string, firmReferenceNumber: string): (r: Result<Option<Json>, PyError>)
    ensures search(index, FirmByFrnQuery(firmReferenceNumber)).Err? ==> r.Err?
    ensures search(index, FirmByFrnQuery(firmReferenceNumber)).Ok? ==>
      var hits := GetIn(Get(search(index, FirmByFrnQuery(firmReferenceNumber)).value, "hits"), "hits");
      && (hits == Some(JArr([])) ==> r == Ok(None))
      && (hits.Some? && hits.value.JArr? && hits.value.items != [] && Get(hits.value.items[0], "_source").Some? ==>
            r == Ok(Some(Get(hits.value.items[0], "_source").value)))
  {
    var response :- search(index, FirmByFrnQuery(firmReferenceNumber));
    var outer :- PyIndexKey(response, "hits");
    var hits :- PyIndexKey(outer, "hits");
    if !Truthy(hits) then Ok(None)
    else
      var top :- PyIndexPos(hits, 0);
      var source :- PyIndexKey(top, "_source");
      Ok(Some(source))
  }

  function EnforcementFilters(noticeType: Option<string>, minFineAmount: Option<Json>, subjectName: Option<string>,
                              fromDate: Option<string>, toDate: Option<string>): seq<Json> {
    AddFilterIfExists(
      OptTerm("notice_type.keyword", noticeType)
      + (if minFineAmount.Some? && Truthy(minFineAmount.value)
         then [Obj1("range", Obj1("fine_amount", Obj1("gte", minFineAmount.value)))] else [])
      + (if Given(subjectName) then [Obj1("match", Obj1("subject_name", JStr(subjectName.value)))] else []),
      BuildDateRangeFilter(fromDate, toDate, "publication_date"))
  }

  /** A minimum fine of zero is the same as none. */
  lemma EnforcementZeroFineIgnored(noticeType: Option<string>, subjectName: Option<string>, fromDate: Option<string>,
                                   toDate: Option<string>)
    ensures EnforcementFilters(noticeType, Some(JInt(0)), subjectName, fromDate, toDate)
         == EnforcementFilters(noticeType, None, subjectName, fromDate, toDate)
    ensures |EnforcementFilters(noticeType, Some(JInt(1)), subjectName, fromDate, toDate)|
         == |EnforcementFilters(noticeType, None, subjectName, fromDate, toDate)| + 1
  {
  }

  function EnforcementQuery(query: string, noticeType: Option<string>, fromDate: Option<string>, toDate: Option<string>,
                            minFineAmount: Option<Json>, subjectName: Option<string>, limit: int): Json {
    SearchBody(SemanticQueries(query, [("content", "2.0"), ("summary", "1.5")]) + [BoostedMatch("subject_name", query, "1.0")],
               EnforcementFilters(noticeType, minFineAmount, subjectName, fromDate, toDate), limit,
               BuildSourceFields(["notice_id", "notice_type", "subject_name", "publication_date", "action_taken", "summary",
                                  "content", "fine_amount", "currency"],
                                 ["summary.inference", "content.inference"]))
  }

  /** search_enforcement_notices; the minimum fine is a number (int or float). */
  method SearchEnforcementNotices(search: Search, index: string, query: string, noticeType: Option<string>,
                                  fromDate: Option<string>, toDate: Option<string>, minFineAmount: Option<Json>,
                                  subjectName: Option<string>, limit: int)
    returns (r: Result<seq<Json>, PyError>)
    ensures r == Answer(search(index, EnforcementQuery(query, noticeType, fromDate, toDate, minFineAmount, subjectName, limit)),
                        HitsPath, CleanedSource)
  {
    r := RunSearch(search, index, EnforcementQuery(query, noticeType, fromDate, toDate, minFineAmount, subjectName, limit),
                   HitsPath, CleanedSource);
  }

  function GuidanceFilters(documentType: Option<string>, topicArea: Option<string>, fromDate: Option<string>,
                           toDate: Option<string>): seq<Json> {
    AddFilterIfExists(OptTerm("document_type.keyword", documentType) + OptTerm("topic_area.keyword", topicArea),
                      BuildDateRangeFilter(fromDate, toDate, "publication_date"))
  }

  function GuidanceQuery(query: string, documentType: Option<string>, topicArea: Option<string>, fromDate: Option<string>,
                         toDate: Option<string>, limit: int): Json {
    SearchBody(SemanticQueries(query, [("content", "2.0"), ("title", "1.5")]),
               GuidanceFilters(documentType, topicArea, fromDate, toDate), limit,
               BuildSourceFields(["title", "document_type", "topic_area", "publication_date", "content", "summary", "source_url"],
                                 ["title.inference", "content.inference", "summary.inference"]))
  }

  /** search_guidance_documents */
  method SearchGuidanceDocuments(search: Search, index: string, query: string, documentType: Option<string>,
                                 topicArea: Option<string>, fromDate: Option<string>, toDate: Option<string>, limit: int)
    returns (r: Result<seq<Json>, PyError>)
    ensures r == Answer(search(index, GuidanceQuery(query, documentType, topicArea, fromDate, toDate, limit)),
                        HitsPath, CleanedSource)
  {
    r := RunSearch(search, index, GuidanceQuery(query, documentType, topicArea, fromDate, toDate, limit),
                   HitsPath, CleanedSource);
  }

  /** The publication searches send one filter per criterion given. */
  lemma PublicationFiltersSpec(policyArea: Option<string>, number: Option<string>, fromDate: Option<string>,
                               toDate: Option<string>)
    ensures |PolicyStatementFilters(policyArea, number, fromDate, toDate)|
         == (if Given(policyArea) then 1 else 0) + (if Given(number) then 1 else 0)
            + (if Given(fromDate) || Given(toDate) then 1 else 0)
    ensures ConsultationPaperFilters(policyArea, number, None, fromDate, toDate)
         == AddFilterIfExists(OptTerm("policy_area.keyword", policyArea) + OptTerm("cp_number.keyword", number),
                              BuildDateRangeFilter(fromDate, toDate, "publication_date"))
  {
  }

  /** The guidance search sends one filter per criterion given, the
      document type first. */
  lemma GuidanceFiltersSpec(documentType: Option<string>, topicArea: Option<string>, fromDate: Option<string>,
                            toDate: Option<string>)
    ensures var filters := GuidanceFilters(documentType, topicArea, fromDate, toDate);
      && |filters| == (if Given(documentType) then 1 else 0) + (if Given(topicArea) then 1 else 0)
                      + (if Given(fromDate) || Given(toDate) then 1 else 0)
      && (Given(documentType) ==> filters[0] == Term("document_type.keyword", JStr(documentType.value)))
  {
  }

  // ---------------------------------------------------------------------
  // get_regulatory_updates
  // ---------------------------------------------------------------------

  /** The four publication indices searched, in this order. */
  const RegulatoryIndices: seq<string> :=
    ["fca_mcp_policy_statements", "fca_mcp_consultation_papers", "fca_mcp_enforcement_notices", "fca_mcp_guidance_documents"]

  /** `{"bool": {"should": [a, b]}}` */
  function Either(a: Json, b: Json): Json {
    Obj1("bool", Obj1("should", JArr([a, b])))
  }

  function RegulatoryFilters(topicArea: Option<string>, fromDate: Option<string>, toDate: Option<string>,
                             documentTypes: seq<string>): seq<Json> {
    AddFilterIfExists(
      (if Given(topicArea) then [Either(Term("policy_area.keyword", JStr(topicArea.value)),
                                        Term("topic_area.keyword", JStr(topicArea.value)))] else [])
      + (if documentTypes != [] then [Either(Obj1("terms", Obj1("notice_type.keyword", JArr(Strs(documentTypes)))),
                                             Obj1("terms", Obj1("document_type.keyword", JArr(Strs(documentTypes)))))] else []),
      BuildDateRangeFilter(fromDate, toDate, "publication_date"))
  }

  /** The body sent to every index: the filters (or everything), newest first. */
  function RegulatoryQuery(topicArea: Option<string>, fromDate: Option<string>, toDate: Option<string>,
                           documentTypes: seq<string>, limit: int): Json {
    var filters := RegulatoryFilters(topicArea, fromDate, toDate, documentTypes);
    JObj([Field("query", Obj1("bool", Obj1("filter", JArr(if filters != [] then filters else [Obj1("match_all", JObj([]))])))),
          Field("sort", JArr([Obj1("publication_date", Obj1("order", JStr("desc")))])),
          Field("size", JInt(limit))])
  }

  /** One filter per criterion given. */
  lemma RegulatoryFiltersCount(topicArea: Option<string>, fromDate: Option<string>, toDate: Option<string>,
                               documentTypes: seq<string>)
    ensures var filters := RegulatoryFilters(topicArea, fromDate, toDate, documentTypes);
      |filters| == (if Given(topicArea) then 1 else 0) + (if documentTypes != [] then 1 else 0)
                   + (if Given(fromDate) || Given(toDate) then 1 else 0)
    ensures var filters := RegulatoryFilters(topicArea, fromDate, toDate, documentTypes);
      filters != [] ==> filters[0].JObj? && filters[0].fields != [] && filters[0].fields[0].key != "match_all"
  {
    var topic := if Given(topicArea) then [Either(Term("policy_area.keyword", JStr(topicArea.value)),
                                                  Term("topic_area.keyword", JStr(topicArea.value)))] else [];
    var types := if documentTypes != [] then [Either(Obj1("terms", Obj1("notice_type.keyword", JArr(Strs(documentTypes)))),
                                                     Obj1("terms", Obj1("document_type.keyword", JArr(Strs(documentTypes)))))] else [];
    var range := BuildDateRangeFilter(fromDate, toDate, "publication_date");
    var filters := RegulatoryFilters(topicArea, fromDate, toDate, documentTypes);
    assert filters == AddFilterIfExists(topic + types, range);
    assert range.Some? <==> Given(fromDate) || Given(toDate);
    if topic + types != [] {
      assert filters[0] == (topic + types)[0];
      assert filters[0].fields[0].key == "bool";
    } else if range.Some? {
      assert filters[0] == range.value;
      assert filters[0].fields[0].key == "range";
    }
  }

  /** With no criterion every document matches; otherwise one filter per
      criterion given. */
  lemma RegulatoryFiltersSpec(topicArea: Option<string>, fromDate: Option<string>, toDate: Option<string>,
                              documentTypes: seq<string>)
    ensures var body := RegulatoryQuery(topicArea, fromDate, toDate, documentTypes, 0);
      GetIn(GetIn(Get(body, "query"), "bool"), "filter") == Some(JArr([Obj1("match_all", JObj([]))]))
      <==> !Given(topicArea) && documentTypes == [] && !Given(fromDate) && !Given(toDate)
  {
    RegulatoryFiltersCount(topicArea, fromDate, toDate, documentTypes);
    var filters := RegulatoryFilters(topicArea, fromDate, toDate, documentTypes);
    var all := [Obj1("match_all", JObj([]))];
    var inner := if filters != [] then filters else all;
    assert GetIn(GetIn(Get(RegulatoryQuery(topicArea, fromDate, toDate, documentTypes, 0), "query"), "bool"), "filter")
      == Some(JArr(inner));
    if filters != [] {
      assert inner[0] != all[0];
    }
  }

  /** The name an index is reported under. */
  function IndexLabel(index: string): (r: string)
    ensures |r| <= |index|
  {
    ReplaceAll(index, "fca_mcp_", "")
  }

  /** `source = hit["_source"]; source["document_index"] = label`: only a
      dict takes the item assignment. */
  function Tag(index: string, hit: Json): (r: Result<Json, PyError>)
    ensures r.Ok? ==> r.value.JObj?
  {
    var source :- PyIndexKey(hit, "_source");
    if source.JObj? then Ok(JObj(SetKey(source.fields, "document_index", JStr(IndexLabel(index)))))
    else Err(TypeError)
  }

  /** The tagged sources of the hits before the first one that raises: the
      exception ends the index's loop but keeps what was appended. */
  function TaggedPrefix(index: string, hits: seq<Json>): seq<Json> {
    if hits == [] then []
    else match Tag(index, hits[0])
      case Err(_) => []
      case Ok(t) => [t] + TaggedPrefix(index, hits[1..])
  }

  /** What one index adds: nothing when the search or the hit list fails. */
  function IndexResults(search: Search, index: string, body: Json): seq<Json> {
    match search(index, body)
    case Err(_) => []
    case Ok(response) =>
      match ItemsAt(response, HitsPath)
      case Err(_) => []
      case Ok(hits) => TaggedPrefix(index, hits)
  }

  /** The results of the indices, in index order. */
  function AllResults(search: Search, indices: seq<string>, body: Json): seq<Json> {
    if indices == [] then []
    else AllResults(search, indices[..|indices| - 1], body) + IndexResults(search, indices[|indices| - 1], body)
  }

  /** `x.get("publication_date", "")` */
  function PublicationDate(x: Json): Json {
    if x.JObj? then Lookup(x.fields, "publication_date").GetOr(JStr("")) else JNull
  }

  /** The sort key of a date: strings as they are, `int` and `bool` as numbers. */
  function DateKey(x: Json): SortKey {
    match PublicationDate(x)
    case JStr(s) => StrKey(s)
    case JInt(i) => NumKey(i)
    case JBool(b) => NumKey(if b then 1 else 0)
    case _ => StrKey("")
  }

  /** Python can compare the two dates: both strings, or both numbers
      (`int` or `bool`). `None`, lists, dicts and floats are not modelled
      as comparable. */
  predicate Comparable(a: Json, b: Json) {
    (a.JStr? && b.JStr?) || ((a.JInt? || a.JBool?) && (b.JInt? || b.JBool?))
  }

  /** `all_results.sort(key=..., reverse=True)`: dates that are all strings
      or all numbers sort in descending order, keeping the order of equal
      dates; a list of two or more results in which some two dates cannot
      be compared raises `TypeError`. */
  function SortByDate(results: seq<Json>): (r: Result<seq<Json>, PyError>)
    ensures r.Ok? ==> multiset(r.value) == multiset(results)
    ensures r.Err? <==> |results| > 1 && exists x, y :: x in results && y in results
                                                        && !Comparable(PublicationDate(x), PublicationDate(y))
    ensures r.Err? ==> r.error == TypeError
  {
    if forall x, y :: x in results && y in results ==> Comparable(PublicationDate(x), PublicationDate(y)) then
      Ok(SortDesc(DateKey, results))
    else if |results| <= 1 then Ok(results)
    else Err(TypeError)
  }

  /** The tagging loop of one index. */
  method TagHits(index: string, hits: seq<Json>) returns (tagged: seq<Json>)
    ensures tagged == TaggedPrefix(index, hits)
  {
    tagged := [];
    var i := 0;
    while i < |hits|
      invariant 0 <= i <= |hits|
      invariant TaggedPrefix(index, hits) == tagged + TaggedPrefix(index, hits[i..])
    {
      assert hits[i..][1..] == hits[i + 1..];
      var t := Tag(index, hits[i]);
      if t.Err? {
        break;
      }
      tagged := tagged + [t.value];
      i := i + 1;
    }
  }

  /** get_regulatory_updates: search the four indices with the same body,
      tag each document with its index, sort newest first and keep `limit`. */
  method GetRegulatoryUpdates(search: Search, topicArea: Option<string>, fromDate: Option<string>, toDate: Option<string>,
                              documentTypes: seq<string>, limit: int)
    returns (r: Result<seq<Json>, PyError>)
    ensures var all := AllResults(search, RegulatoryIndices, RegulatoryQuery(topicArea, fromDate, toDate, documentTypes, limit));
      && (r.Err? <==> SortByDate(all).Err?)
      && (r.Ok? ==> r.value == SliceTo(SortByDate(all).value, limit))
  {
    var body := RegulatoryQuery(topicArea, fromDate, toDate, documentTypes, limit);
    var all := SearchIndices(search, RegulatoryIndices, body);
    var sorted := SortByDate(all);
    if sorted.Err? {
      return Err(sorted.error);
    }
    r := Ok(SliceTo(sorted.value, limit));
  }

  /** The loop over the indices: a failed search or hit list adds nothing. */
  method SearchIndices(search: Search, indices: seq<string>, body: Json) returns (all: seq<Json>)
    ensures all == AllResults(search, indices, body)
  {
    all := [];
    for k := 0 to |indices|
      invariant all == AllResults(search, indices[..k], body)
    {
      assert indices[..k + 1][..k] == indices[..k];
      var index := indices[k];
      var response := search(index, body);
      if response.Ok? {
        var hits := ItemsAt(response.value, HitsPath);
        if hits.Ok? {
          var tagged := TagHits(index, hits.value);
          all := all + tagged;
        }
      }
    }
    assert indices[..|indices|] == indices;
  }

  /** Every tagged document carries its index's label, and keeps every other
      field of its stored source. */
  lemma {:induction false} TaggedPrefixSpec(index: string, hits: seq<Json>, x: Json)
    requires x in TaggedPrefix(index, hits)
    ensures x.JObj? && Lookup(x.fields, "document_index") == Some(JStr(IndexLabel(index)))
    ensures exists h :: h in hits && Tag(index, h) == Ok(x)
  {
    if hits != [] && Tag(index, hits[0]).Ok? {
      var t := Tag(index, hits[0]).value;
      if x == t {
        var source := PyIndexKey(hits[0], "_source").value;
        SetKeyLookup(source.fields, "document_index", JStr(IndexLabel(index)), "document_index");
      } else {
        TaggedPrefixSpec(index, hits[1..], x);
        var h :| h in hits[1..] && Tag(index, h) == Ok(x);
        assert h in hits;
      }
    }
  }

  /** Every other key of the stored source reads as before after tagging. */
  lemma TagKeepsFields(index: string, hit: Json, q: string)
    requires Tag(index, hit).Ok? && q != "document_index"
    ensures Lookup(Tag(index, hit).value.fields, q) == Lookup(PyIndexKey(hit, "_source").value.fields, q)
  {
    SetKeyLookup(PyIndexKey(hit, "_source").value.fields, "document_index", JStr(IndexLabel(index)), q);
  }

  /** Each index is reported under its name without the `fca_mcp_` prefix:
      none of the four names repeats the prefix (each lacks an `f` or an `a`). */
  lemma IndexLabelStripsPrefix(name: string)
    requires 'f' !in name || 'a' !in name
    ensures IndexLabel("fca_mcp_" + name) == name
  {
    if 'f' !in name {
      NotContainsChar(name, "fca_mcp_", 0);
    } else {
      NotContainsChar(name, "fca_mcp_", 2);
    }
    StripPrefix("fca_mcp_", name);
  }

  /** All hits of an index are kept exactly when none raises. */
  lemma {:induction false} TaggedPrefixAll(index: string, hits: seq<Json>)
    ensures |TaggedPrefix(index, hits)| <= |hits|
    ensures |TaggedPrefix(index, hits)| == |hits| <==> forall h :: h in hits ==> Tag(index, h).Ok?
  {
    if hits != [] {
      TaggedPrefixAll(index, hits[1..]);
      if Tag(index, hits[0]).Ok? {
        assert hits == [hits[0]] + hits[1..];
      }
    }
  }

  /** The updates come newest first, are drawn from the indices' results and
      keep the order of documents with equal dates. */
  lemma RegulatoryUpdatesOrdered(results: seq<Json>, limit: int, k: SortKey)
    requires SortByDate(results).Ok?
    ensures Descending(DateKey, SliceTo(SortByDate(results).value, limit))
    ensures multiset(SliceTo(SortByDate(results).value, limit)) <= multiset(results)
    ensures WithKey(DateKey, k, SortByDate(results).value) == WithKey(DateKey, k, results)
  {
    SortByDateSpec(results, k);
    SliceToPart(SortByDate(results).value, limit);
  }

  /** The sorted list is in descending order and keeps equal dates in their
      order (a list that cannot be sorted has at most one element). */
  lemma SortByDateSpec(results: seq<Json>, k: SortKey)
    requires SortByDate(results).Ok?
    ensures Descending(DateKey, SortByDate(results).value)
    ensures WithKey(DateKey, k, SortByDate(results).value) == WithKey(DateKey, k, results)
  {
    if forall x, y :: x in results && y in results ==> Comparable(PublicationDate(x), PublicationDate(y)) {
      SortDescDescending(DateKey, results);
      SortDescStable(DateKey, results, k);
    } else {
      assert |results| <= 1;
    }
  }

  /** Two results dated 5 and 6 come out newest first, as Python sorts them;
      a number date next to a string date cannot be compared. */
  lemma SortByDateExamples()
    ensures SortByDate([Obj1("publication_date", JInt(5)), Obj1("publication_date", JInt(6))])
         == Ok([Obj1("publication_date", JInt(6)), Obj1("publication_date", JInt(5))])
    ensures SortByDate([Obj1("publication_date", JInt(5)), Obj1("publication_date", JStr("2024-01-01"))])
         == Err(TypeError)
  {
    var a := Obj1("publication_date", JInt(5));
    var b := Obj1("publication_date", JInt(6));
    assert PublicationDate(a) == JInt(5) && PublicationDate(b) == JInt(6);
    assert DateKey(a) == NumKey(5) && DateKey(b) == NumKey(6);
    assert forall x, y :: x in [a, b] && y in [a, b] ==> Comparable(PublicationDate(x), PublicationDate(y));
    assert SortDesc(DateKey, [b]) == [b] by {
      assert [b][1..] == [];
    }
    assert Insert(DateKey, a, [b]) == [b, a] by {
      assert [b][1..] == [];
    }
    assert [a, b][1..] == [b];
    var c := Obj1("publication_date", JStr("2024-01-01"));
    assert PublicationDate(c) == JStr("2024-01-01");
    assert !Comparable(PublicationDate(a), PublicationDate(c));
  }

  /** A leading slice of a descending list is descending and part of it. */
  lemma SliceToPart(sorted: seq<Json>, limit: int)
    requires Descending(DateKey, sorted)
    ensures Descending(DateKey, SliceTo(sorted, limit))
    ensures multiset(SliceTo(sorted, limit)) <= multiset(sorted)
  {
    var top := SliceTo(sorted, limit);
    assert sorted == top + sorted[|top|..];
    assert multiset(sorted) == multiset(top) + multiset(sorted[|top|..]);
  }
}
