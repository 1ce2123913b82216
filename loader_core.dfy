/** What every Elasticsearch loader of fca_mcp/data_loaders.py shares: the
    rate-limited HTTP GET they fetch through, the total-count request and
    the bulk store of documents into one index. */
module LoaderCore {
  import opened Wrappers
  import opened PyBuiltins
  import opened PyJson
  import opened Models

  /** A GET request: URL, query parameters and headers. */
  datatype Request = Request(url: string, params: seq<Field>, headers: seq<Field>)

  /** `cached_limited_get(...)` followed by `raise_for_status()` and
      `.json()`: the decoded body, or the HttpStatusError, TransportError or
      ValueError (undecodable body) those raise. */
  type Http = Request -> Result<Json, PyError>

  // ---------------------------------------------------------------------
  // get_total_results
  // ---------------------------------------------------------------------

  /** `{**params, "take": 1, "skip": 0}` */
  function CountParams(params: seq<Field>): seq<Field> {
    Merge(params, [Field("take", JInt(1)), Field("skip", JInt(0))])
  }

  /** The count request asks for a single result from the start and keeps
      every other parameter. */
  lemma CountParamsSpec(params: seq<Field>, q: string)
    ensures Lookup(CountParams(params), "take") == Some(JInt(1))
    ensures Lookup(CountParams(params), "skip") == Some(JInt(0))
    ensures q != "take" && q != "skip" ==> Lookup(CountParams(params), q) == Lookup(params, q)
  {
    var extra := [Field("take", JInt(1)), Field("skip", JInt(0))];
    MergeLookup(params, extra, "take");
    MergeLookup(params, extra, "skip");
    MergeLookup(params, extra, q);
    LookupFirst(extra, 1, "skip");
    if q != "take" && q != "skip" {
      assert Lookup(extra, q) == Lookup(extra[1..], q) == Lookup(extra[2..], q);
    }
  }

  /** ElasticDataLoader.get_total_results: the value stored under `countKey`
      in the decoded count response. */
  function GetTotalResults(http: Http, url: string, params: seq<Field>, countKey: string): (r: Result<Json, PyError>)
    ensures http(Request(url, CountParams(params), [])).Err? ==> r == Err(http(Request(url, CountParams(params), [])).error)
    ensures http(Request(url, CountParams(params), [])).Ok? ==>
      var data := http(Request(url, CountParams(params), [])).value;
      && (r.Ok? <==> data.JObj? && countKey in Keys(data.fields))
      && (r.Ok? ==> Lookup(data.fields, countKey) == Some(r.value))
      && (data.JObj? && countKey !in Keys(data.fields) ==> r == Err(ValueError))
  {
    var data :- http(Request(url, CountParams(params), []));
    LookupKeys(if data.JObj? then data.fields else [], countKey);
    var present :- PyIn(JStr(countKey), data);
    if !present then Err(ValueError) else PyIndexKey(data, countKey)
  }

  // ---------------------------------------------------------------------
  // store_in_elastic
  // ---------------------------------------------------------------------

  /** How documents are serialised and sent: pydantic's JSON dump of the
      stored fields, the SHA-256 hex digest used by contribution URIs, and
      the Elasticsearch client's `async_bulk`, which indexes every action or
      raises (a `BulkIndexError` once its retries are spent). */
  datatype Writer = Writer(storedFields: Document -> seq<Field>, sha256: string -> string,
                           bulk: seq<Action> -> Result<(), PyError>)

  /** One bulk `index` action into the loader's own index: `_id` and
      `_source`. */
  datatype Action = Action(id: string, source: Json)

  /** The action of one document; a dump that raises is the exception. */
  function ActionOf(writer: Writer, doc: Document): (r: Result<Action, PyError>)
    ensures r.Ok? ==> r.value.id == DocumentUri(writer.sha256, doc)
  {
    var source :- DumpDocument(writer.storedFields, writer.sha256, doc);
    Ok(Action(DocumentUri(writer.sha256, doc), source))
  }

  /** `[f(x) for x in xs]`: the first `x` whose `f` raises makes the whole
      comprehension raise. */
  function MapAll<A, B>(f: A -> Result<B, PyError>, xs: seq<A>): (r: Result<seq<B>, PyError>)
    ensures r.Ok? ==> |r.value| == |xs|
  {
    if xs == [] then Ok([])
    else
      var prev :- MapAll(f, xs[..|xs| - 1]);
      var last :- f(xs[|xs| - 1]);
      Ok(prev + [last])
  }

  /** `for x in xs: out.extend(f(x))`: the first `x` whose `f` raises ends
      the loop with that exception. */
  function FlatMapAll<A, B>(f: A -> Result<seq<B>, PyError>, xs: seq<A>): Result<seq<B>, PyError> {
    if xs == [] then Ok([])
    else
      var prev :- FlatMapAll(f, xs[..|xs| - 1]);
      var more :- f(xs[|xs| - 1]);
      Ok(prev + more)
  }

  /** A loop that threads a state `s` through the elements, stopping at the
      first step that raises. */
  function FoldAll<S, A>(step: (S, A) -> Result<S, PyError>, init: S, xs: seq<A>): Result<S, PyError> {
    if xs == [] then Ok(init)
    else
      var prev :- FoldAll(step, init, xs[..|xs| - 1]);
      step(prev, xs[|xs| - 1])
  }

  /** `list(range(start, stop, step))`; a zero step raises ValueError. */
  function PyRange(start: int, stop: int, step: int): (r: Result<seq<int>, PyError>)
    ensures r.Err? <==> step == 0
    ensures step > 0 ==> r == Ok(Range(start, stop, step))
  {
    if step > 0 then Ok(Range(start, stop, step))
    else if step < 0 then Ok(RangeDown(start, stop, step))
    else Err(ValueError)
  }

  /** A JSON value used where Python needs an int: bools are ints. */
  function AsInt(j: Json): (r: Result<int, PyError>)
    ensures j.JInt? ==> r == Ok(j.i)
    ensures !j.JInt? && !j.JBool? ==> r == Err(TypeError)
  {
    match j
    case JInt(i) => Ok(i)
    case JBool(b) => Ok(if b then 1 else 0)
    case _ => Err(TypeError)
  }

  /** `j == 0` */
  predicate EqualsZero(j: Json) {
    (j.JInt? || j.JBool? || j.JFloat?) && !Truthy(j)
  }

  /** The list of actions, built before anything is sent. */
  function Actions(writer: Writer, data: seq<Document>): Result<seq<Action>, PyError> {
    MapAll(d => ActionOf(writer, d), data)
  }

  /** Indexing the actions in order: a later action with an id already in
      the index replaces that document. */
  function Indexed(store: map<string, Json>, actions: seq<Action>): map<string, Json> {
    if actions == [] then store
    else Indexed(store, actions[..|actions| - 1])[actions[|actions| - 1].id := actions[|actions| - 1].source]
  }

  /** One more element of the comprehension. */
  lemma MapAllStep<A, B>(f: A -> Result<B, PyError>, xs: seq<A>, i: nat)
    requires i < |xs| && MapAll(f, xs[..i]).Ok?
    ensures f(xs[i]).Err? ==> MapAll(f, xs[..i + 1]) == Err(f(xs[i]).error)
    ensures f(xs[i]).Ok? ==> MapAll(f, xs[..i + 1]) == Ok(MapAll(f, xs[..i]).value + [f(xs[i]).value])
  {
    assert xs[..i + 1][..i] == xs[..i];
  }

  /** One more element of the extending loop. */
  lemma FlatMapAllStep<A, B>(f: A -> Result<seq<B>, PyError>, xs: seq<A>, i: nat)
    requires i < |xs| && FlatMapAll(f, xs[..i]).Ok?
    ensures f(xs[i]).Err? ==> FlatMapAll(f, xs[..i + 1]) == Err(f(xs[i]).error)
    ensures f(xs[i]).Ok? ==> FlatMapAll(f, xs[..i + 1]) == Ok(FlatMapAll(f, xs[..i]).value + f(xs[i]).value)
  {
    assert xs[..i + 1][..i] == xs[..i];
  }

  /** One more step of the threading loop. */
  lemma FoldAllStep<S, A>(step: (S, A) -> Result<S, PyError>, init: S, xs: seq<A>, i: nat)
    requires i < |xs| && FoldAll(step, init, xs[..i]).Ok?
    ensures FoldAll(step, init, xs[..i + 1]) == step(FoldAll(step, init, xs[..i]).value, xs[i])
  {
    assert xs[..i + 1][..i] == xs[..i];
  }

  /** A failure at some element is the failure of every longer list. */
  lemma {:induction false} MapAllErrExtends<A, B>(f: A -> Result<B, PyError>, xs: seq<A>, k: nat)
    requires k <= |xs| && MapAll(f, xs[..k]).Err?
    ensures MapAll(f, xs) == Err(MapAll(f, xs[..k]).error)
    decreases |xs| - k
  {
    if k < |xs| {
      assert xs[..k + 1][..k] == xs[..k];
      MapAllErrExtends(f, xs, k + 1);
    } else {
      assert xs[..k] == xs;
    }
  }

  lemma {:induction false} FlatMapAllErrExtends<A, B>(f: A -> Result<seq<B>, PyError>, xs: seq<A>, k: nat)
    requires k <= |xs| && FlatMapAll(f, xs[..k]).Err?
    ensures FlatMapAll(f, xs) == Err(FlatMapAll(f, xs[..k]).error)
    decreases |xs| - k
  {
    if k < |xs| {
      assert xs[..k + 1][..k] == xs[..k];
      FlatMapAllErrExtends(f, xs, k + 1);
    } else {
      assert xs[..k] == xs;
    }
  }

  lemma {:induction false} FoldAllErrExtends<S, A>(step: (S, A) -> Result<S, PyError>, init: S, xs: seq<A>, k: nat)
    requires k <= |xs| && FoldAll(step, init, xs[..k]).Err?
    ensures FoldAll(step, init, xs) == Err(FoldAll(step, init, xs[..k]).error)
    decreases |xs| - k
  {
    if k < |xs| {
      assert xs[..k + 1][..k] == xs[..k];
      FoldAllErrExtends(step, init, xs, k + 1);
    } else {
      assert xs[..k] == xs;
    }
  }

  /** The comprehension succeeds exactly when `f` succeeds on every element,
      and then holds `f`'s results in order. */
  lemma {:induction false} MapAllOk<A, B>(f: A -> Result<B, PyError>, xs: seq<A>)
    ensures MapAll(f, xs).Ok? <==> forall i :: 0 <= i < |xs| ==> f(xs[i]).Ok?
    ensures MapAll(f, xs).Ok? ==> forall i :: 0 <= i < |xs| ==> MapAll(f, xs).value[i] == f(xs[i]).value
  {
    if xs != [] {
      var init := xs[..|xs| - 1];
      MapAllOk(f, init);
      assert forall i :: 0 <= i < |init| ==> init[i] == xs[i];
    }
  }

  /** Building the actions fails exactly when some document cannot be
      dumped; otherwise the actions are the documents' URIs and dumps, in
      order. */
  lemma ActionsSpec(writer: Writer, data: seq<Document>)
    ensures Actions(writer, data).Ok? <==> forall i :: 0 <= i < |data| ==> ActionOf(writer, data[i]).Ok?
    ensures Actions(writer, data).Ok? ==> forall i :: 0 <= i < |data| ==> Actions(writer, data).value[i] == ActionOf(writer, data[i]).value
  {
    MapAllOk(d => ActionOf(writer, d), data);
  }

  /** A stored document is found under its id, and, when the stored fields
      have no `document_uri` of their own, carries that id as its
      `document_uri`. */
  lemma ActionsCarryUri(writer: Writer, data: seq<Document>, i: nat)
    requires Actions(writer, data).Ok? && i < |data|
    requires "document_uri" !in Keys(writer.storedFields(data[i]))
    ensures var a := Actions(writer, data).value[i];
      a.source.JObj? && Lookup(a.source.fields, "document_uri") == Some(JStr(a.id))
  {
    ActionsSpec(writer, data);
    DumpDocumentSpec(writer.storedFields, writer.sha256, data[i]);
  }

  /** After indexing, an id holds the source of the last action with that
      id, or what it held before when no action has it. */
  lemma {:induction false} IndexedSpec(store: map<string, Json>, actions: seq<Action>, id: string)
    ensures id in Indexed(store, actions) <==> id in store || exists i :: 0 <= i < |actions| && actions[i].id == id
    ensures forall i :: 0 <= i < |actions| && actions[i].id == id && (forall j :: i < j < |actions| ==> actions[j].id != id) ==>
      Indexed(store, actions)[id] == actions[i].source
    ensures (forall i :: 0 <= i < |actions| ==> actions[i].id != id) && id in store ==> Indexed(store, actions)[id] == store[id]
  {
    if actions != [] {
      var init := actions[..|actions| - 1];
      IndexedSpec(store, init, id);
      assert forall i :: 0 <= i < |init| ==> init[i] == actions[i];
    }
  }

  /** Storing the same documents twice leaves the index as storing them
      once: reloading a range is harmless. */
  lemma IndexedIdempotent(store: map<string, Json>, actions: seq<Action>)
    ensures Indexed(Indexed(store, actions), actions) == Indexed(store, actions)
  {
    var once := Indexed(store, actions);
    var twice := Indexed(once, actions);
    forall id | true
      ensures (id in twice <==> id in once) && (id in twice ==> twice[id] == once[id])
    {
      IndexedSpec(store, actions, id);
      IndexedSpec(once, actions, id);
      if exists i :: 0 <= i < |actions| && actions[i].id == id {
        var i :| 0 <= i < |actions| && actions[i].id == id;
        var last := LastWith(actions, id, i);
        assert twice[id] == actions[last].source;
      }
    }
  }

  /** The position of the last action with id `id`, given one at `i`. */
  lemma LastWith(actions: seq<Action>, id: string, i: nat) returns (last: nat)
    requires i < |actions| && actions[i].id == id
    ensures i <= last < |actions| && actions[last].id == id
    ensures forall j :: last < j < |actions| ==> actions[j].id != id
    decreases |actions| - i
  {
    if exists j :: i < j < |actions| && actions[j].id == id {
      var j :| i < j < |actions| && actions[j].id == id;
      last := LastWith(actions, id, j);
    } else {
      last := i;
    }
  }

  /** The index after a run, and how the run ended. */
  datatype Outcome = Outcome(store: map<string, Json>, result: Result<(), PyError>)

  /** The Elasticsearch side of a loader: the name of its index and the
      documents the index holds, by `_id`. */
  class ElasticDataLoader {
    const indexName: string
    var store: map<string, Json>

    constructor (indexName: string, store: map<string, Json>)
      ensures this.indexName == indexName && this.store == store
    {
      this.indexName := indexName;
      this.store := store;
    }

    /** ElasticDataLoader.store_in_elastic: build every action first, then
        send them in one bulk request, which indexes them in order or raises
        and is re-raised. */
    method StoreInElastic(writer: Writer, data: seq<Document>) returns (r: Result<(), PyError>)
      modifies this
      ensures Actions(writer, data).Err? ==> r == Err(Actions(writer, data).error) && store == old(store)
      ensures Actions(writer, data).Ok? && writer.bulk(Actions(writer, data).value).Err? ==>
        r == Err(writer.bulk(Actions(writer, data).value).error) && store == old(store)
      ensures Actions(writer, data).Ok? && writer.bulk(Actions(writer, data).value).Ok? ==>
        r == Ok(()) && store == Indexed(old(store), Actions(writer, data).value)
    {
      var actions := BuildActions(writer, data);
      if actions.Err? {
        return Err(actions.error);
      }
      var sent := writer.bulk(actions.value);
      if sent.Err? {
        return Err(sent.error);
      }
      IndexAll(actions.value);
      r := Ok(());
    }

    /** The comprehension building the actions. */
    static method BuildActions(writer: Writer, data: seq<Document>) returns (r: Result<seq<Action>, PyError>)
      ensures r == Actions(writer, data)
    {
      var actions: seq<Action> := [];
      var i := 0;
      while i < |data|
        invariant 0 <= i <= |data|
        invariant Actions(writer, data[..i]) == Ok(actions)
      {
        assert data[..i + 1][..i] == data[..i];
        var action := ActionOf(writer, data[i]);
        if action.Err? {
          MapAllErrExtends(d => ActionOf(writer, d), data, i + 1);
          return Err(action.error);
        }
        actions := actions + [action.value];
        i := i + 1;
      }
      assert data[..|data|] == data;
      r := Ok(actions);
    }

    /** The index applying the actions one after another. */
    method IndexAll(actions: seq<Action>)
      modifies this
      ensures store == Indexed(old(store), actions)
    {
      var j := 0;
      while j < |actions|
        invariant 0 <= j <= |actions|
        invariant store == Indexed(old(store), actions[..j])
      {
        assert actions[..j + 1][..j] == actions[..j];
        store := store[actions[j].id := actions[j].source];
        j := j + 1;
      }
      assert actions[..|actions|] == actions;
    }
  }
}
