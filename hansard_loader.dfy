/** The Hansard side of fca_mcp/data_loaders.py: the debate hierarchy of a
    sitting day (load_section_trees), the chain of parent sections of a
    debate (get_debate_parents), and the paged load of contributions into
    the index (ElasticHansardLoader). */
module HansardLoader {
  import opened Wrappers
  import opened PyBuiltins
  import opened PyJson
  import opened Models
  import opened LoaderCore

  const HansardBaseUrl := "https://hansard-api.parliament.uk"

  // ---------------------------------------------------------------------
  // load_section_trees
  // ---------------------------------------------------------------------

  function SectionsRequest(date: string, house: Json): Request {
    Request(HansardBaseUrl + "/overview/sectionsforday.json", [Field("house", house), Field("date", JStr(date))], [])
  }

  function TreeRequest(section: Json, date: string, house: Json): Request {
    Request(HansardBaseUrl + "/overview/sectiontrees.json",
            [Field("section", section), Field("date", JStr(date)), Field("house", house)], [])
  }

  /** What `extend(item.get("SectionTreeItems", []))` adds for one entry of
      a section tree. */
  function ItemChildren(item: Json): Result<seq<Json>, PyError> {
    var children :- PyGet(item, "SectionTreeItems", JArr([]));
    PyIter(children)
  }

  /** The section tree items of one section. */
  function SectionTreeItems(http: Http, date: string, house: Json, section: Json): Result<seq<Json>, PyError> {
    var tree :- http(TreeRequest(section, date, house));
    var entries :- PyIter(tree);
    FlatMapAll(ItemChildren, entries)
  }

  /** The items of each section, as one function of the section. */
  function SectionItemsOf(http: Http, date: string, house: Json): Json -> Result<seq<Json>, PyError> {
    s => SectionTreeItems(http, date, house, s)
  }

  /** One item entered under both its `Id` and its `ExternalId`. */
  function MapItem(m: map<Json, Json>, item: Json): Result<map<Json, Json>, PyError> {
    var id :- PyIndexKey(item, "Id");
    if !Hashable(id) then Err(TypeError)
    else
      var ext :- PyIndexKey(item, "ExternalId");
      if !Hashable(ext) then Err(TypeError)
      else Ok(m[id := item][ext := item])
  }

  function SectionTreeMap(items: seq<Json>): Result<map<Json, Json>, PyError> {
    FoldAll(MapItem, map[], items)
  }

  /** load_section_trees: every section tree item of the day's sections,
      keyed by both its id and its external id. */
  function SectionTrees(http: Http, date: string, house: Json): (r: Result<map<Json, Json>, PyError>)
    ensures http(SectionsRequest(date, house)).Err? ==> r == Err(http(SectionsRequest(date, house)).error)
    ensures r.Ok? ==> Keyed(r.value)
  {
    var sections :- http(SectionsRequest(date, house));
    var list :- PyIter(sections);
    var items :- FlatMapAll(SectionItemsOf(http, date, house), list);
    var tree := SectionTreeMap(items);
    if tree.Ok? then SectionTreeMapKeys(items); tree else tree
  }

  /** Every key of the map leads to an item that carries that key as its
      `Id` or its `ExternalId`. */
  predicate Keyed(tree: map<Json, Json>) {
    forall k :: k in tree ==>
      (tree[k].JObj? && (Lookup(tree[k].fields, "Id") == Some(k) || Lookup(tree[k].fields, "ExternalId") == Some(k)))
  }

  /** One item enters the map under both its keys, and the map stays keyed. */
  lemma MapItemSpec(m: map<Json, Json>, item: Json)
    requires MapItem(m, item).Ok? && Keyed(m)
    ensures Keyed(MapItem(m, item).value)
    ensures m.Keys <= MapItem(m, item).value.Keys
    ensures item.JObj? && Lookup(item.fields, "Id").Some? && Lookup(item.fields, "Id").value in MapItem(m, item).value
      && Lookup(item.fields, "ExternalId").Some? && Lookup(item.fields, "ExternalId").value in MapItem(m, item).value
  {
  }

  /** The map built by load_section_trees is keyed by its items' ids and
      external ids, holds an entry for both keys of every item, and holds
      nothing but those items. */
  lemma SectionTreeMapSpec(items: seq<Json>)
    requires SectionTreeMap(items).Ok?
    ensures Keyed(SectionTreeMap(items).value)
    ensures forall item :: item in items ==>
      item.JObj? && Lookup(item.fields, "Id").Some? && Lookup(item.fields, "Id").value in SectionTreeMap(items).value
      && Lookup(item.fields, "ExternalId").Some? && Lookup(item.fields, "ExternalId").value in SectionTreeMap(items).value
    ensures forall k :: k in SectionTreeMap(items).value ==> SectionTreeMap(items).value[k] in items
  {
    SectionTreeMapKeys(items);
    SectionTreeMapValues(items);
  }

  /** The keys half: every item is entered under both of its keys. */
  lemma {:induction false} SectionTreeMapKeys(items: seq<Json>)
    requires SectionTreeMap(items).Ok?
    ensures Keyed(SectionTreeMap(items).value)
    ensures forall item :: item in items ==>
      item.JObj? && Lookup(item.fields, "Id").Some? && Lookup(item.fields, "Id").value in SectionTreeMap(items).value
      && Lookup(item.fields, "ExternalId").Some? && Lookup(item.fields, "ExternalId").value in SectionTreeMap(items).value
  {
    if items != [] {
      var init := items[..|items| - 1];
      var last := items[|items| - 1];
      assert SectionTreeMap(init).Ok?;
      SectionTreeMapKeys(init);
      MapItemSpec(SectionTreeMap(init).value, last);
      forall item | item in items
        ensures item in init || item == last
      {
        assert items == init + [last];
      }
    }
  }

  /** Every entry of the map is one of the items. */
  lemma {:induction false} SectionTreeMapValues(items: seq<Json>)
    requires SectionTreeMap(items).Ok?
    ensures forall k :: k in SectionTreeMap(items).value ==> SectionTreeMap(items).value[k] in items
  {
    if items != [] {
      var init := items[..|items| - 1];
      var last := items[|items| - 1];
      assert items == init + [last];
      assert SectionTreeMap(init).Ok?;
      SectionTreeMapValues(init);
      assert SectionTreeMap(items) == MapItem(SectionTreeMap(init).value, last);
    }
  }

  /** `item` is entered under key `k`: as its `Id` or its `ExternalId`. */
  predicate Carries(item: Json, k: Json) {
    item.JObj? && (Lookup(item.fields, "Id") == Some(k) || Lookup(item.fields, "ExternalId") == Some(k))
  }

  /** Under each key sits the last item that carries it. */
  lemma {:induction false} SectionTreeMapLastWins(items: seq<Json>, i: nat, k: Json)
    requires SectionTreeMap(items).Ok? && i < |items| && Carries(items[i], k)
    requires forall j :: i < j < |items| ==> !Carries(items[j], k)
    ensures k in SectionTreeMap(items).value && SectionTreeMap(items).value[k] == items[i]
  {
    var init := items[..|items| - 1];
    var last := items[|items| - 1];
    assert SectionTreeMap(init).Ok?;
    var m := SectionTreeMap(init).value;
    assert SectionTreeMap(items) == MapItem(m, last);
    if i < |items| - 1 {
      assert init[i] == items[i];
      forall j | i < j < |init| ensures !Carries(init[j], k) {
        assert init[j] == items[j];
      }
      SectionTreeMapLastWins(init, i, k);
      assert !Carries(last, k);
    }
  }

  /** load_section_trees, with its three loops. */
  method LoadSectionTrees(http: Http, date: string, house: Json) returns (r: Result<map<Json, Json>, PyError>)
    ensures r == SectionTrees(http, date, house)
  {
    var sections := http(SectionsRequest(date, house));
    if sections.Err? {
      return Err(sections.error);
    }
    var list := PyIter(sections.value);
    if list.Err? {
      return Err(list.error);
    }
    var items := ItemsOfSections(http, date, house, list.value);
    if items.Err? {
      return Err(items.error);
    }
    r := TreeMapOf(items.value);
  }

  /** The loop over the sections, gathering their items. */
  method ItemsOfSections(http: Http, date: string, house: Json, sections: seq<Json>) returns (r: Result<seq<Json>, PyError>)
    ensures r == FlatMapAll(SectionItemsOf(http, date, house), sections)
  {
    var sectionItems := SectionItemsOf(http, date, house);
    var items: seq<Json> := [];
    var k := 0;
    while k < |sections|
      invariant 0 <= k <= |sections|
      invariant FlatMapAll(sectionItems, sections[..k]) == Ok(items)
    {
      var more := TreeItemsOf(http, date, house, sections[k]);
      FlatMapAllStep(sectionItems, sections, k);
      if more.Err? {
        FlatMapAllErrExtends(sectionItems, sections, k + 1);
        return Err(more.error);
      }
      items := items + more.value;
      k := k + 1;
    }
    assert sections[..|sections|] == sections;
    r := Ok(items);
  }

  /** The loop entering every item under its two keys. */
  method TreeMapOf(items: seq<Json>) returns (r: Result<map<Json, Json>, PyError>)
    ensures r == SectionTreeMap(items)
  {
    var m: map<Json, Json> := map[];
    var i := 0;
    while i < |items|
      invariant 0 <= i <= |items|
      invariant SectionTreeMap(items[..i]) == Ok(m)
    {
      FoldAllStep(MapItem, map[], items, i);
      var id := PyIndexKey(items[i], "Id");
      if id.Err? || !Hashable(id.value) {
        FoldAllErrExtends(MapItem, map[], items, i + 1);
        return Err(if id.Err? then id.error else TypeError);
      }
      m := m[id.value := items[i]];
      var ext := PyIndexKey(items[i], "ExternalId");
      if ext.Err? || !Hashable(ext.value) {
        FoldAllErrExtends(MapItem, map[], items, i + 1);
        return Err(if ext.Err? then ext.error else TypeError);
      }
      m := m[ext.value := items[i]];
      i := i + 1;
    }
    assert items[..|items|] == items;
    r := Ok(m);
  }

  /** The section tree items of one section, gathered by the inner loop. */
  method TreeItemsOf(http: Http, date: string, house: Json, section: Json) returns (r: Result<seq<Json>, PyError>)
    ensures r == SectionTreeItems(http, date, house, section)
  {
    var tree := http(TreeRequest(section, date, house));
    if tree.Err? {
      return Err(tree.error);
    }
    var entries := PyIter(tree.value);
    if entries.Err? {
      return Err(entries.error);
    }
    var items: seq<Json> := [];
    var j := 0;
    while j < |entries.value|
      invariant 0 <= j <= |entries.value|
      invariant FlatMapAll(ItemChildren, entries.value[..j]) == Ok(items)
    {
      FlatMapAllStep(ItemChildren, entries.value, j);
      var children := ItemChildren(entries.value[j]);
      if children.Err? {
        FlatMapAllErrExtends(ItemChildren, entries.value, j + 1);
        return Err(children.error);
      }
      items := items + children.value;
      j := j + 1;
    }
    assert entries.value[..|entries.value|] == entries.value;
    r := Ok(items);
  }

  // ---------------------------------------------------------------------
  // get_debate_parents
  // ---------------------------------------------------------------------

  /** `parent.ParentId` as the next key; None ends the walk. */
  function ParentKey(p: DebateParent): Json {
    if p.ParentId.Some? then JInt(p.ParentId.value) else JNull
  }

  /** The walk up the hierarchy from `next`. A key met a second time means
      the source's loop would append forever, until MemoryError. */
  function ChainFrom(tree: map<Json, Json>, next: Json, visited: set<Json>): Result<seq<DebateParent>, PyError>
    decreases tree.Keys - visited
  {
    if next == JNull then Ok([])
    else if !Hashable(next) then Err(TypeError)
    else if next !in tree then Err(KeyError)
    else if next in visited then Err(MemoryError)
    else
      var parent :- ValidateDebateParent(tree[next]);
      var rest :- ChainFrom(tree, ParentKey(parent), visited + {next});
      Ok([parent] + rest)
  }

  /** Any exception makes get_debate_parents return the empty list. */
  function ChainOrEmpty(tree: map<Json, Json>, start: Json): (r: seq<DebateParent>)
    ensures start == JNull ==> r == []
    ensures Keyed(tree) && r != [] ==>
      && (start.JStr? ==> r[0].ExternalId == start.s)
      && (start.JInt? ==> r[0].Id == start.i)
      && (forall i :: 0 <= i < |r| - 1 ==> r[i].ParentId == Some(r[i + 1].Id))
      && r[|r| - 1].ParentId.None?
  {
    match ChainFrom(tree, start, {})
    case Ok(parents) => if Keyed(tree) then ChainLinked(tree, start, {}); parents else parents
    case Err(_) => []
  }

  /** get_debate_parents */
  function DebateParents(http: Http, date: string, house: Json, debateExtId: Json): (r: seq<DebateParent>)
    ensures SectionTrees(http, date, house).Err? || debateExtId == JNull ==> r == []
    ensures r != [] ==>
      && (debateExtId.JStr? ==> r[0].ExternalId == debateExtId.s)
      && (forall i :: 0 <= i < |r| - 1 ==> r[i].ParentId == Some(r[i + 1].Id))
      && r[|r| - 1].ParentId.None?
  {
    match SectionTrees(http, date, house)
    case Ok(tree) => ChainOrEmpty(tree, debateExtId)
    case Err(_) => []
  }

  /** `Ok(prefix + r)` when `r` is a list; the same error otherwise. */
  function Prepend(prefix: seq<DebateParent>, r: Result<seq<DebateParent>, PyError>): Result<seq<DebateParent>, PyError> {
    match r
    case Ok(rest) => Ok(prefix + rest)
    case Err(e) => Err(e)
  }

  lemma PrependEmpty(r: Result<seq<DebateParent>, PyError>)
    ensures Prepend([], r) == r
  {
    if r.Ok? {
      assert [] + r.value == r.value;
    }
  }

  lemma PrependTwice(a: seq<DebateParent>, b: seq<DebateParent>, r: Result<seq<DebateParent>, PyError>)
    ensures Prepend(a, Prepend(b, r)) == Prepend(a + b, r)
  {
    if r.Ok? {
      assert a + (b + r.value) == (a + b) + r.value;
    }
  }

  /** One step of the walk. */
  lemma ChainFromStep(tree: map<Json, Json>, next: Json, visited: set<Json>)
    requires next != JNull && Hashable(next) && next in tree && next !in visited
    requires ValidateDebateParent(tree[next]).Ok?
    ensures var parent := ValidateDebateParent(tree[next]).value;
      ChainFrom(tree, next, visited) == Prepend([parent], ChainFrom(tree, ParentKey(parent), visited + {next}))
  {
  }

  /** The walk of get_debate_parents over a loaded map. */
  method WalkParents(tree: map<Json, Json>, start: Json) returns (parents: seq<DebateParent>)
    ensures parents == ChainOrEmpty(tree, start)
  {
    var next := start;
    var visited: set<Json> := {};
    parents := [];
    PrependEmpty(ChainFrom(tree, start, {}));
    while next != JNull
      invariant ChainFrom(tree, start, {}) == Prepend(parents, ChainFrom(tree, next, visited))
      decreases tree.Keys - visited
    {
      if !Hashable(next) || next !in tree || next in visited {
        return [];
      }
      var parent := ValidateDebateParent(tree[next]);
      if parent.Err? {
        return [];
      }
      var rest := ChainFrom(tree, ParentKey(parent.value), visited + {next});
      ChainFromStep(tree, next, visited);
      PrependTwice(parents, [parent.value], rest);
      parents := parents + [parent.value];
      visited := visited + {next};
      next := ParentKey(parent.value);
    }
  }

  /** Over a map built by load_section_trees, the chain starts at the
      section with the given external id (or id), each section's parent id
      is the id of the next one, and the last has no parent. */
  lemma {:induction false} ChainLinked(tree: map<Json, Json>, next: Json, visited: set<Json>)
    requires Keyed(tree) && ChainFrom(tree, next, visited).Ok?
    ensures var ps := ChainFrom(tree, next, visited).value;
      && (ps == [] <==> next == JNull)
      && (ps != [] && next.JStr? ==> ps[0].ExternalId == next.s)
      && (ps != [] && next.JInt? ==> ps[0].Id == next.i)
      && (forall i :: 0 <= i < |ps| - 1 ==> ps[i].ParentId == Some(ps[i + 1].Id))
      && (ps != [] ==> ps[|ps| - 1].ParentId.None?)
    decreases tree.Keys - visited
  {
    if next != JNull {
      var parent := ValidateDebateParent(tree[next]).value;
      var key := ParentKey(parent);
      ChainLinked(tree, key, visited + {next});
      var rest := ChainFrom(tree, key, visited + {next}).value;
      if rest != [] {
        assert key.JInt?;
      }
    }
  }

  /** get_debate_parents, loading the map first. */
  method GetDebateParents(http: Http, date: string, house: Json, debateExtId: Json) returns (parents: seq<DebateParent>)
    ensures parents == DebateParents(http, date, house, debateExtId)
  {
    var tree := LoadSectionTrees(http, date, house);
    if tree.Err? {
      return [];
    }
    parents := WalkParents(tree.value, debateExtId);
  }

  // ---------------------------------------------------------------------
  // ElasticHansardLoader
  // ---------------------------------------------------------------------

  /** `ContributionsResponse.model_validate(page).Results`, done by pydantic. */
  type ValidateContributions = Json -> Result<seq<Contribution>, PyError>

  /** `len(c.ContributionTextFull) > 0`; `len(None)` raises. */
  function HasText(c: Contribution): (r: Result<bool, PyError>)
    ensures r == Ok(true) <==> c.ContributionTextFull.Some? && c.ContributionTextFull.value != []
  {
    if c.ContributionTextFull.None? then Err(TypeError) else Ok(|c.ContributionTextFull.value| > 0)
  }

  function KeepWithText(kept: seq<Contribution>, c: Contribution): Result<seq<Contribution>, PyError> {
    var keep :- HasText(c);
    Ok(if keep then kept + [c] else kept)
  }

  /** `[c for c in contributions if len(c.ContributionTextFull) > 0]` */
  function ValidContributions(cs: seq<Contribution>): Result<seq<Contribution>, PyError> {
    FoldAll(KeepWithText, [], cs)
  }

  function HouseParam(c: Contribution): Json {
    if c.House.Some? then JStr(c.House.value) else JNull
  }

  function ExtIdParam(c: Contribution): Json {
    if c.DebateSectionExtId.Some? then JStr(c.DebateSectionExtId.value) else JNull
  }

  /** The contribution with its debate parents; formatting a missing
      sitting date raises. */
  function WithParents(http: Http, c: Contribution): (r: Result<Contribution, PyError>)
    ensures r.Ok? <==> c.SittingDate.Some?
    ensures r.Ok? ==> r.value.debate_parents.Some? && r.value.(debate_parents := c.debate_parents) == c
  {
    if c.SittingDate.None? then Err(AttributeError)
    else Ok(c.(debate_parents := Some(DebateParents(http, DateStamp(c.SittingDate.value), HouseParam(c), ExtIdParam(c)))))
  }

  /** What one page contributes: its contributions with text, each with
      its debate parents. */
  function PageContributions(http: Http, validate: ValidateContributions, url: string, params: seq<Field>)
    : Result<seq<Contribution>, PyError>
  {
    var page :- http(Request(url, params, []));
    var cs :- validate(page);
    var valid :- ValidContributions(cs);
    MapAll(c => WithParents(http, c), valid)
  }

  function ContributionDocs(cs: seq<Contribution>): (docs: seq<Document>)
    ensures |docs| == |cs|
    ensures forall i :: 0 <= i < |cs| ==> docs[i] == ContributionDoc(cs[i])
  {
    seq(|cs|, i requires 0 <= i < |cs| => ContributionDoc(cs[i]))
  }

  /** The index after one page: a page that raises anywhere is logged and
      leaves the index as it was. */
  function PageStore(store: map<string, Json>, http: Http, validate: ValidateContributions, writer: Writer,
                     url: string, params: seq<Field>): map<string, Json>
  {
    match PageContributions(http, validate, url, params)
    case Err(_) => store
    case Ok(cs) =>
      match Actions(writer, ContributionDocs(cs))
      case Err(_) => store
      case Ok(actions) => if writer.bulk(actions).Err? then store else Indexed(store, actions)
  }

  /** `base_params | {"take": page_size, "skip": skip}` */
  function PageParams(baseParams: seq<Field>, pageSize: int, skip: int): seq<Field> {
    Merge(baseParams, [Field("take", JInt(pageSize)), Field("skip", JInt(skip))])
  }

  function PagesStore(store: map<string, Json>, http: Http, validate: ValidateContributions, writer: Writer,
                      url: string, baseParams: seq<Field>, pageSize: int, skips: seq<int>): map<string, Json>
  {
    if skips == [] then store
    else PageStore(PagesStore(store, http, validate, writer, url, baseParams, pageSize, skips[..|skips| - 1]),
                   http, validate, writer, url, PageParams(baseParams, pageSize, skips[|skips| - 1]))
  }

  function TypeUrl(contributionType: string): string {
    HansardBaseUrl + "/search/contributions/" + contributionType + ".json"
  }

  function TypeParams(fromDate: string, toDate: string): seq<Field> {
    [Field("orderBy", JStr("SittingDateAsc")), Field("startDate", JStr(fromDate)), Field("endDate", JStr(toDate))]
  }

  /** The index after load_contributions_by_type, or the exception it
      raises: only the count request and the page range can raise. */
  function TypeStore(store: map<string, Json>, http: Http, validate: ValidateContributions, writer: Writer,
                     pageSize: int, contributionType: string, fromDate: string, toDate: string)
    : Result<map<string, Json>, PyError>
  {
    var url := TypeUrl(contributionType);
    var params := TypeParams(fromDate, toDate);
    var total :- GetTotalResults(http, url, Merge(params, [Field("take", JInt(1)), Field("skip", JInt(0))]), "TotalResultCount");
    if EqualsZero(total) then Ok(store)
    else
      var n :- AsInt(total);
      var skips :- PyRange(0, n, pageSize);
      Ok(PagesStore(store, http, validate, writer, url, params, pageSize, skips))
  }

  /** The four kinds of contribution, loaded in this order. */
  const ContributionTypes: seq<string> := ["Spoken", "Written", "Corrections", "Petitions"]

  /** Loading the kinds in order; the first kind whose load raises ends the
      run. */
  function TypesStore(store: map<string, Json>, http: Http, validate: ValidateContributions, writer: Writer,
                      pageSize: int, types: seq<string>, fromDate: string, toDate: string): Outcome
  {
    if types == [] then Outcome(store, Ok(()))
    else
      var prev := TypesStore(store, http, validate, writer, pageSize, types[..|types| - 1], fromDate, toDate);
      if prev.result.Err? then prev
      else match TypeStore(prev.store, http, validate, writer, pageSize, types[|types| - 1], fromDate, toDate)
        case Ok(next) => Outcome(next, Ok(()))
        case Err(e) => Outcome(prev.store, Err(e))
  }

  /** Every contribution a page stores has a non-empty full text, a sitting
      date and its debate parents. */
  lemma {:induction false} PageContributionsValid(http: Http, validate: ValidateContributions, url: string,
                                                 params: seq<Field>, c: Contribution)
    requires PageContributions(http, validate, url, params).Ok?
    requires c in PageContributions(http, validate, url, params).value
    ensures c.ContributionTextFull.Some? && c.ContributionTextFull.value != []
    ensures c.SittingDate.Some? && c.debate_parents.Some?
  {
    var page := http(Request(url, params, [])).value;
    var valid := ValidContributions(validate(page).value).value;
    var f := c => WithParents(http, c);
    var out := MapAll(f, valid).value;
    MapAllOk(f, valid);
    var i :| 0 <= i < |out| && out[i] == c;
    ValidContributionsHaveText(validate(page).value, valid[i]);
  }

  lemma {:induction false} ValidContributionsHaveText(cs: seq<Contribution>, c: Contribution)
    requires ValidContributions(cs).Ok? && c in ValidContributions(cs).value
    ensures c.ContributionTextFull.Some? && c.ContributionTextFull.value != []
  {
    if cs != [] {
      var init := cs[..|cs| - 1];
      var last := cs[|cs| - 1];
      if c != last || c in ValidContributions(init).value {
        ValidContributionsHaveText(init, c);
      }
    }
  }

  /** The contributions with a non-empty full text, in their original order. */
  function WithText(cs: seq<Contribution>): seq<Contribution> {
    if cs == [] then []
    else (if cs[0].ContributionTextFull.Some? && cs[0].ContributionTextFull.value != [] then [cs[0]] else [])
         + WithText(cs[1..])
  }

  lemma {:induction false} WithTextAppend(a: seq<Contribution>, b: seq<Contribution>)
    ensures WithText(a + b) == WithText(a) + WithText(b)
  {
    if a == [] {
      assert a + b == b;
    } else {
      assert (a + b)[0] == a[0] && (a + b)[1..] == a[1..] + b;
      WithTextAppend(a[1..], b);
    }
  }

  /** The page filter fails exactly when some contribution has no full text
      at all, and otherwise keeps the ones with text, in order. */
  lemma {:induction false} ValidContributionsSpec(cs: seq<Contribution>)
    ensures ValidContributions(cs).Ok? <==> forall i :: 0 <= i < |cs| ==> cs[i].ContributionTextFull.Some?
    ensures ValidContributions(cs).Ok? ==> ValidContributions(cs).value == WithText(cs)
  {
    if cs != [] {
      var init := cs[..|cs| - 1];
      var last := cs[|cs| - 1];
      assert cs == init + [last];
      ValidContributionsSpec(init);
      WithTextAppend(init, [last]);
      if ValidContributions(init).Err? {
        var i :| 0 <= i < |init| && init[i].ContributionTextFull.None?;
        assert cs[i] == init[i];
      } else {
        forall i | 0 <= i < |init| ensures init[i] == cs[i] { }
      }
    }
  }

  lemma MulMonotone(a: int, b: int, p: int)
    requires a <= b && p > 0
    ensures a * p <= b * p
  {
    assert b * p - a * p == (b - a) * p;
  }

  lemma MulStep(a: int, b: int, p: int)
    requires a < b && p > 0
    ensures a * p + p <= b * p
  {
    MulMonotone(a + 1, b, p);
    assert (a + 1) * p == a * p + p;
  }

  /** The page that starts at `k * pageSize` holds the positions from there
      up to the next page's start. */
  lemma PageOf(x: int, pageSize: int) returns (k: int)
    requires pageSize > 0 && 0 <= x
    ensures 0 <= k && k * pageSize <= x < k * pageSize + pageSize
  {
    k := x / pageSize;
  }

  /** With a positive page size, every result position below the total
      falls in a requested page ... */
  lemma PagesCoverResults(total: int, pageSize: int, x: int)
    requires pageSize > 0 && 0 <= x < total
    ensures var skips := Range(0, total, pageSize);
      exists k :: 0 <= k < |skips| && skips[k] <= x < skips[k] + pageSize
  {
    var skips := Range(0, total, pageSize);
    RangeSpec(0, total, pageSize);
    var k := PageOf(x, pageSize);
    if k >= |skips| {
      MulMonotone(|skips|, k, pageSize);
    }
    assert skips[k] <= x < skips[k] + pageSize;
  }

  /** ... and in only one. */
  lemma PagesDisjoint(total: int, pageSize: int, x: int, k1: int, k2: int)
    requires pageSize > 0
    requires var skips := Range(0, total, pageSize);
      && 0 <= k1 < |skips| && 0 <= k2 < |skips|
      && skips[k1] <= x < skips[k1] + pageSize && skips[k2] <= x < skips[k2] + pageSize
    ensures k1 == k2
  {
    var skips := Range(0, total, pageSize);
    RangeSpec(0, total, pageSize);
    assert skips[k1] == k1 * pageSize && skips[k2] == k2 * pageSize;
    if k1 < k2 {
      MulStep(k1, k2, pageSize);
    } else if k2 < k1 {
      MulStep(k2, k1, pageSize);
    }
  }

  /** ElasticHansardLoader: pages of `pageSize` contributions stored into
      `base`'s index. */
  class ElasticHansardLoader {
    const pageSize: int
    const base: ElasticDataLoader

    /** The source's default page size is 100. */
    constructor (pageSize: int, base: ElasticDataLoader)
      ensures this.pageSize == pageSize && this.base == base
    {
      this.pageSize := pageSize;
      this.base := base;
    }

    /** process_page: fetch, validate, keep the contributions with text,
        attach their debate parents and store them. */
    method ProcessPage(http: Http, validate: ValidateContributions, writer: Writer, url: string, params: seq<Field>)
      modifies base
      ensures base.store == PageStore(old(base.store), http, validate, writer, url, params)
    {
      var page := http(Request(url, params, []));
      if page.Err? {
        return;
      }
      var cs := validate(page.value);
      if cs.Err? {
        return;
      }
      var valid := ValidContributions(cs.value);
      if valid.Err? {
        return;
      }
      var enriched := AttachParents(http, valid.value);
      if enriched.Err? {
        return;
      }
      var stored := base.StoreInElastic(writer, ContributionDocs(enriched.value));
    }

    /** load_contributions_by_type: count, then one page per `pageSize`
        results, in order. */
    method LoadContributionsByType(http: Http, validate: ValidateContributions, writer: Writer,
                                   contributionType: string, fromDate: string, toDate: string)
      returns (r: Result<(), PyError>)
      modifies base
      ensures var expected := TypeStore(old(base.store), http, validate, writer, pageSize, contributionType, fromDate, toDate);
        && (expected.Err? ==> r == Err(expected.error) && base.store == old(base.store))
        && (expected.Ok? ==> r == Ok(()) && base.store == expected.value)
    {
      var url := TypeUrl(contributionType);
      var params := TypeParams(fromDate, toDate);
      var total := GetTotalResults(http, url, Merge(params, [Field("take", JInt(1)), Field("skip", JInt(0))]), "TotalResultCount");
      if total.Err? {
        return Err(total.error);
      }
      if EqualsZero(total.value) {
        return Ok(());
      }
      var n := AsInt(total.value);
      if n.Err? {
        return Err(n.error);
      }
      var skips := PyRange(0, n.value, pageSize);
      if skips.Err? {
        return Err(skips.error);
      }
      LoadPages(http, validate, writer, url, params, skips.value);
      r := Ok(());
    }

    /** The page loop of load_contributions_by_type: one page per offset. */
    method LoadPages(http: Http, validate: ValidateContributions, writer: Writer, url: string, params: seq<Field>,
                     skips: seq<int>)
      modifies base
      ensures base.store == PagesStore(old(base.store), http, validate, writer, url, params, pageSize, skips)
    {
      for k := 0 to |skips|
        invariant base.store == PagesStore(old(base.store), http, validate, writer, url, params, pageSize, skips[..k])
      {
        assert skips[..k + 1][..k] == skips[..k];
        ProcessPage(http, validate, writer, url, PageParams(params, pageSize, skips[k]));
      }
      assert skips[..|skips|] == skips;
    }

    /** The loop of load_all_contributions over the contribution types. */
    method LoadTypes(http: Http, validate: ValidateContributions, writer: Writer, types: seq<string>,
                     fromDate: string, toDate: string)
      returns (r: Result<(), PyError>)
      modifies base
      ensures var expected := TypesStore(old(base.store), http, validate, writer, pageSize, types, fromDate, toDate);
        r == expected.result && base.store == expected.store
    {
      r := Ok(());
      for k := 0 to |types|
        invariant var sofar := TypesStore(old(base.store), http, validate, writer, pageSize, types[..k], fromDate, toDate);
          r == sofar.result && base.store == sofar.store && r.Ok?
      {
        assert types[..k + 1][..k] == types[..k];
        r := LoadContributionsByType(http, validate, writer, types[k], fromDate, toDate);
        if r.Err? {
          TypesStoreStops(old(base.store), http, validate, writer, pageSize, types, fromDate, toDate, k + 1);
          return;
        }
      }
      assert types[..|types|] == types;
    }

    /** load_all_contributions: the four kinds, one after another. */
    method LoadAllContributions(http: Http, validate: ValidateContributions, writer: Writer,
                                fromDate: string, toDate: string)
      returns (r: Result<(), PyError>)
      modifies base
      ensures var expected := TypesStore(old(base.store), http, validate, writer, pageSize, ContributionTypes, fromDate, toDate);
        r == expected.result && base.store == expected.store
    {
      r := LoadTypes(http, validate, writer, ContributionTypes, fromDate, toDate);
    }
  }

  /** The loop of process_page that attaches debate parents. */
  method AttachParents(http: Http, valid: seq<Contribution>) returns (r: Result<seq<Contribution>, PyError>)
    ensures r == MapAll(c => WithParents(http, c), valid)
  {
    var withParents := c => WithParents(http, c);
    var enriched: seq<Contribution> := [];
    var i := 0;
    while i < |valid|
      invariant 0 <= i <= |valid|
      invariant MapAll(withParents, valid[..i]) == Ok(enriched)
    {
      MapAllStep(withParents, valid, i);
      var c := valid[i];
      if c.SittingDate.None? {
        MapAllErrExtends(withParents, valid, i + 1);
        return Err(AttributeError);
      }
      var parents := GetDebateParents(http, DateStamp(c.SittingDate.value), HouseParam(c), ExtIdParam(c));
      enriched := enriched + [c.(debate_parents := Some(parents))];
      i := i + 1;
    }
    assert valid[..|valid|] == valid;
    r := Ok(enriched);
  }

  /** Once a kind has raised, the later kinds change nothing. */
  lemma {:induction false} TypesStoreStops(store: map<string, Json>, http: Http, validate: ValidateContributions,
                                           writer: Writer, pageSize: int, types: seq<string>, fromDate: string,
                                           toDate: string, k: nat)
    requires k <= |types| && TypesStore(store, http, validate, writer, pageSize, types[..k], fromDate, toDate).result.Err?
    ensures TypesStore(store, http, validate, writer, pageSize, types, fromDate, toDate)
         == TypesStore(store, http, validate, writer, pageSize, types[..k], fromDate, toDate)
    decreases |types| - k
  {
    if k < |types| {
      assert types[..k + 1][..k] == types[..k];
      TypesStoreStops(store, http, validate, writer, pageSize, types, fromDate, toDate, k + 1);
    } else {
      assert types[..k] == types;
    }
  }
}
