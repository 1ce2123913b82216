/** ElasticFCAAuthorisedFirmsLoader of fca_mcp/data_loaders.py: firms found
    through the Financial Services Register search, each completed from six
    per-firm endpoints and stored as an FCAAuthorisedFirm. */
module FirmsLoader {
  import opened Wrappers
  import opened PyBuiltins
  import opened PyJson
  import opened Models
  import opened LoaderCore

  /** The Register API as the loader reaches it: the transport, the base URL
      from the settings and the authentication headers. */
  datatype RegisterApi = RegisterApi(http: Http, baseUrl: string, headers: seq<Field>)

  // ---------------------------------------------------------------------
  // _api_call
  // ---------------------------------------------------------------------

  const StatusPrefix := "FSR-API-"
  const SuccessKeywords: seq<string> := ["Ok", "Found", "successful", "Success"]
  const NotFoundKeywords: seq<string> := ["not found", "Not Found", "No search result found"]

  /** One of `keywords` occurs in `message`. */
  predicate AnyKeyword(keywords: seq<string>, message: string) {
    exists k :: k in keywords && Contains(message, k)
  }

  /** `any(k in message for k in keywords)`: stops at the first keyword
      found; `in` on a message that is no str, list or dict raises. */
  function AnyIn(keywords: seq<string>, message: Json): (r: Result<bool, PyError>)
    ensures message.JStr? ==> r == Ok(AnyKeyword(keywords, message.s))
    ensures keywords != [] && !message.JObj? && !message.JArr? && !message.JStr? ==> r == Err(TypeError)
  {
    if keywords == [] then Ok(false)
    else
      var hit :- PyIn(JStr(keywords[0]), message);
      if hit then Ok(true) else AnyIn(keywords[1..], message)
  }

  /** The decision of `_api_call` on a decoded response: `Some(data)`,
      `Some` of a stand-in with no data, or `None`; an exception is `Err`. */
  function Classify(data: Json): (r: Result<Option<Json>, PyError>)
    ensures r.Ok? && r.value.Some? ==> data.JObj? && r.value.value.JObj?
  {
    if !data.JObj? then Err(AttributeError)
    else
      var status := Lookup(data.fields, "Status").GetOr(JStr(""));
      var message := Lookup(data.fields, "Message").GetOr(JStr(""));
      if !status.JStr? then Err(AttributeError)
      else if !StartsWith(status.s, StatusPrefix) then Ok(None)
      else
        var success :- AnyIn(SuccessKeywords, message);
        if success then Ok(Some(data))
        else
          var missing :- AnyIn(NotFoundKeywords, message);
          if missing then Ok(Some(JObj([Field("Status", status), Field("Message", message), Field("Data", JNull)])))
          else Ok(Some(data))
  }

  /** _api_call: any exception, a failed status included, gives `None`. */
  function ApiCall(api: RegisterApi, endpoint: string): (r: Option<Json>)
    ensures r.Some? ==> r.value.JObj?
    ensures api.http(Request(endpoint, [], api.headers)).Err? ==> r.None?
    ensures api.http(Request(endpoint, [], api.headers)).Ok? && !api.http(Request(endpoint, [], api.headers)).value.JObj?
      ==> r.None?
  {
    match api.http(Request(endpoint, [], api.headers))
    case Err(_) => None
    case Ok(data) =>
      match Classify(data)
      case Ok(decision) => decision
      case Err(_) => None
  }

  /** The classification of a response whose status and message are
      strings: no `FSR-API-` prefix gives `None`; a success keyword keeps the
      data; failing that a not-found keyword gives a stand-in whose `Data`
      is null; any other `FSR-API-` status keeps the data. */
  lemma ClassifySpec(fields: seq<Field>, status: string, message: string)
    requires Lookup(fields, "Status").GetOr(JStr("")) == JStr(status)
    requires Lookup(fields, "Message").GetOr(JStr("")) == JStr(message)
    ensures !StartsWith(status, StatusPrefix) ==> Classify(JObj(fields)) == Ok(None)
    ensures StartsWith(status, StatusPrefix) && AnyKeyword(SuccessKeywords, message) ==>
      Classify(JObj(fields)) == Ok(Some(JObj(fields)))
    ensures (StartsWith(status, StatusPrefix) && !AnyKeyword(SuccessKeywords, message)
             && AnyKeyword(NotFoundKeywords, message)) ==>
      Classify(JObj(fields)) == Ok(Some(JObj([Field("Status", JStr(status)), Field("Message", JStr(message)), Field("Data", JNull)])))
    ensures (StartsWith(status, StatusPrefix) && !AnyKeyword(SuccessKeywords, message)
             && !AnyKeyword(NotFoundKeywords, message)) ==>
      Classify(JObj(fields)) == Ok(Some(JObj(fields)))
  {
  }

  /** A message containing "Not Found" also contains "Found", so the success
      branch, checked first, keeps the data: the "Not Found" keyword of the
      second branch is never the one that decides. */
  lemma NotFoundMessageKeepsData(fields: seq<Field>, status: string, message: string)
    requires Lookup(fields, "Status").GetOr(JStr("")) == JStr(status)
    requires Lookup(fields, "Message").GetOr(JStr("")) == JStr(message)
    requires StartsWith(status, StatusPrefix) && Contains(message, "Not Found")
    ensures Classify(JObj(fields)) == Ok(Some(JObj(fields)))
  {
    var i :| 0 <= i <= |message| && OccursAt(message, "Not Found", i);
    FoundWithinNotFound(message, i);
    assert SuccessKeywords[1] == "Found";
    assert AnyKeyword(SuccessKeywords, message);
    ClassifySpec(fields, status, message);
  }

  /** "Found" is the tail of "Not Found". */
  lemma FoundWithinNotFound(message: string, i: int)
    requires OccursAt(message, "Not Found", i)
    ensures Contains(message, "Found")
  {
    assert message[i + 4..i + 9] == message[i..i + 9][4..9];
    assert OccursAt(message, "Found", i + 4);
  }

  // ---------------------------------------------------------------------
  // The per-firm endpoints
  // ---------------------------------------------------------------------

  function FirmUrl(api: RegisterApi, frn: Json, suffix: string): string {
    api.baseUrl + "/Firm/" + PyStr(frn) + suffix
  }

  /** `data and data.get("Data")`: the truthy `Data` of a response, if any. */
  function DataOf(data: Option<Json>): (r: Result<Option<Json>, PyError>)
    ensures data.None? ==> r == Ok(None)
    ensures r.Ok? && r.value.Some? ==>
      (Truthy(r.value.value) && data.Some? && data.value.JObj? && Lookup(data.value.fields, "Data") == r.value)
  {
    match data
    case None => Ok(None)
    case Some(d) =>
      if !Truthy(d) then Ok(None)
      else
        var v :- PyGet(d, "Data", JNull);
        if Truthy(v) then Ok(Some(v)) else Ok(None)
  }

  function FetchData(api: RegisterApi, frn: Json, suffix: string): Result<Option<Json>, PyError> {
    DataOf(ApiCall(api, FirmUrl(api, frn, suffix)))
  }

  /** `for x in xs: out.extend(f(x))` for a body that cannot raise. */
  function FlatMap<A, B>(f: A -> seq<B>, xs: seq<A>): seq<B> {
    if xs == [] then [] else FlatMap(f, xs[..|xs| - 1]) + f(xs[|xs| - 1])
  }

  /** Everything the loop appends comes from the body on some element. */
  lemma {:induction false} FlatMapFrom<A, B>(f: A -> seq<B>, xs: seq<A>, y: B)
    requires y in FlatMap(f, xs)
    ensures exists x :: x in xs && y in f(x)
  {
    var init := xs[..|xs| - 1];
    if y in FlatMap(f, init) {
      FlatMapFrom(f, init, y);
      var x :| x in init && y in f(x);
      assert x in xs;
    } else {
      assert xs[|xs| - 1] in xs;
    }
  }

  /** Everything the raising loop appends comes from the body on some element. */
  lemma {:induction false} FlatMapAllFrom<A, B>(f: A -> Result<seq<B>, PyError>, xs: seq<A>, y: B)
    requires FlatMapAll(f, xs).Ok? && y in FlatMapAll(f, xs).value
    ensures exists x :: x in xs && f(x).Ok? && y in f(x).value
  {
    var init := xs[..|xs| - 1];
    if y in FlatMapAll(f, init).value {
      FlatMapAllFrom(f, init, y);
      var x :| x in init && f(x).Ok? && y in f(x).value;
      assert x in xs;
    } else {
      assert xs[|xs| - 1] in xs;
    }
  }

  // ---------------------------------------------------------------------
  // _get_firm_names
  // ---------------------------------------------------------------------

  /** A current name: the truthy `Name` of an entry. */
  function CurrentName(info: Json): Result<seq<Json>, PyError> {
    var name :- PyGet(info, "Name", JNull);
    if Truthy(name) then Ok([name]) else Ok([])
  }

  /** A previous name, marked as historical. */
  function PreviousName(info: Json): Result<seq<Json>, PyError> {
    var name :- PyGet(info, "Name", JNull);
    if Truthy(name) then Ok([JStr(PyStr(name) + " (Historical)")]) else Ok([])
  }

  /** The names listed under `key` of a name group, when it has that key. */
  function NamesUnder(group: Json, key: string, entry: Json -> Result<seq<Json>, PyError>): Result<seq<Json>, PyError> {
    var present :- PyIn(JStr(key), group);
    if !present then Ok([])
    else
      var list :- PyIndexKey(group, key);
      var infos :- PyIter(list);
      FlatMapAll(entry, infos)
  }

  function GroupNames(group: Json): Result<seq<Json>, PyError> {
    var current :- NamesUnder(group, "Current Names", CurrentName);
    var previous :- NamesUnder(group, "Previous Names", PreviousName);
    Ok(current + previous)
  }

  function FirmNames(api: RegisterApi, frn: Json): Result<seq<Json>, PyError> {
    var data :- FetchData(api, frn, "/Names");
    if data.None? then Ok([])
    else
      var groups :- PyIter(data.value);
      FlatMapAll(GroupNames, groups)
  }

  /** Every previous name is a string marked " (Historical)". */
  lemma PreviousNamesMarked(infos: seq<Json>)
    requires FlatMapAll(PreviousName, infos).Ok?
    ensures forall y :: y in FlatMapAll(PreviousName, infos).value ==> y.JStr? && EndsWith(y.s, " (Historical)")
  {
    forall y | y in FlatMapAll(PreviousName, infos).value
      ensures y.JStr? && EndsWith(y.s, " (Historical)")
    {
      FlatMapAllFrom(PreviousName, infos, y);
      var x :| x in infos && PreviousName(x).Ok? && y in PreviousName(x).value;
      var t := PyStr(PyGet(x, "Name", JNull).value);
      assert (t + " (Historical)")[|t|..] == " (Historical)";
    }
  }

  /** A name group yields its truthy current names, then its previous names,
      each a string marked " (Historical)". */
  lemma GroupNamesSpec(group: Json)
    requires GroupNames(group).Ok?
    ensures var v := GroupNames(group).value;
      && (forall y :: y in v ==> Truthy(y))
      && var previous := NamesUnder(group, "Previous Names", PreviousName).value;
      && |previous| <= |v| && v[|v| - |previous|..] == previous
      && forall y :: y in previous ==> y.JStr? && EndsWith(y.s, " (Historical)")
  {
    var current := NamesUnder(group, "Current Names", CurrentName).value;
    var previous := NamesUnder(group, "Previous Names", PreviousName).value;
    var v := GroupNames(group).value;
    assert v == current + previous;
    assert v[|v| - |previous|..] == previous;
    if PyIn(JStr("Previous Names"), group).value {
      PreviousNamesMarked(PyIter(PyIndexKey(group, "Previous Names").value).value);
    }
    forall y | y in v
      ensures Truthy(y)
    {
      if y in current {
        var list := PyIndexKey(group, "Current Names").value;
        FlatMapAllFrom(CurrentName, PyIter(list).value, y);
      } else {
        var list := PyIndexKey(group, "Previous Names").value;
        FlatMapAllFrom(PreviousName, PyIter(list).value, y);
      }
    }
  }

  /** The loop over one list of name entries. */
  method NamesIn(infos: seq<Json>, entry: Json -> Result<seq<Json>, PyError>) returns (r: Result<seq<Json>, PyError>)
    ensures r == FlatMapAll(entry, infos)
  {
    var names: seq<Json> := [];
    for i := 0 to |infos|
      invariant FlatMapAll(entry, infos[..i]) == Ok(names)
    {
      assert infos[..i + 1][..i] == infos[..i];
      var more := entry(infos[i]);
      if more.Err? {
        FlatMapAllErrExtends(entry, infos, i + 1);
        return Err(more.error);
      }
      names := names + more.value;
    }
    assert infos[..|infos|] == infos;
    r := Ok(names);
  }

  /** `if key in group: for info in group[key]: ...` */
  method NamesUnderKey(group: Json, key: string, entry: Json -> Result<seq<Json>, PyError>) returns (r: Result<seq<Json>, PyError>)
    ensures r == NamesUnder(group, key, entry)
  {
    var present := PyIn(JStr(key), group);
    if present.Err? {
      return Err(present.error);
    }
    if !present.value {
      return Ok([]);
    }
    var list := PyIndexKey(group, key);
    if list.Err? {
      return Err(list.error);
    }
    var infos := PyIter(list.value);
    if infos.Err? {
      return Err(infos.error);
    }
    r := NamesIn(infos.value, entry);
  }

  method NamesOfGroup(group: Json) returns (r: Result<seq<Json>, PyError>)
    ensures r == GroupNames(group)
  {
    var current := NamesUnderKey(group, "Current Names", CurrentName);
    if current.Err? {
      return Err(current.error);
    }
    var previous := NamesUnderKey(group, "Previous Names", PreviousName);
    if previous.Err? {
      return Err(previous.error);
    }
    r := Ok(current.value + previous.value);
  }

  /** The loop over the name groups. */
  method NamesOfGroups(groups: seq<Json>) returns (r: Result<seq<Json>, PyError>)
    ensures r == FlatMapAll(GroupNames, groups)
  {
    var names: seq<Json> := [];
    for i := 0 to |groups|
      invariant FlatMapAll(GroupNames, groups[..i]) == Ok(names)
    {
      assert groups[..i + 1][..i] == groups[..i];
      var more := NamesOfGroup(groups[i]);
      if more.Err? {
        FlatMapAllErrExtends(GroupNames, groups, i + 1);
        return Err(more.error);
      }
      names := names + more.value;
    }
    assert groups[..|groups|] == groups;
    r := Ok(names);
  }

  /** _get_firm_names */
  method GetFirmNames(api: RegisterApi, frn: Json) returns (r: Result<seq<Json>, PyError>)
    ensures r == FirmNames(api, frn)
  {
    var data := FetchData(api, frn, "/Names");
    if data.Err? {
      return Err(data.error);
    }
    if data.value.None? {
      return Ok([]);
    }
    var groups := PyIter(data.value.value);
    if groups.Err? {
      return Err(groups.error);
    }
    r := NamesOfGroups(groups.value);
  }

  // ---------------------------------------------------------------------
  // _get_firm_address
  // ---------------------------------------------------------------------

  const PrincipalPlace := "Principal Place of Business"

  predicate IsPrincipal(addr: Json) {
    addr.JObj? && Lookup(addr.fields, "Address Type") == Some(JStr(PrincipalPlace))
  }

  /** The position of the first Principal Place of Business. The scan stops
      there, so only the entries up to it must be dicts. */
  function PpobIndex(addrs: seq<Json>): (r: Result<Option<nat>, PyError>)
    ensures r.Ok? && r.value.Some? ==>
      (r.value.value < |addrs| && IsPrincipal(addrs[r.value.value])
       && forall j :: 0 <= j < r.value.value ==> addrs[j].JObj? && !IsPrincipal(addrs[j]))
    ensures r == Ok(None) ==> forall j :: 0 <= j < |addrs| ==> addrs[j].JObj? && !IsPrincipal(addrs[j])
    ensures r.Err? ==>
      (r.error == AttributeError
       && exists j :: 0 <= j < |addrs| && !addrs[j].JObj? && forall k :: 0 <= k < j ==> !IsPrincipal(addrs[k]))
  {
    if addrs == [] then Ok(None)
    else
      var t :- PyGet(addrs[0], "Address Type", JNull);
      if t == JStr(PrincipalPlace) then Ok(Some(0))
      else
        var rest :- PpobIndex(addrs[1..]);
        assert forall j :: 1 <= j < |addrs| ==> addrs[j] == addrs[1..][j - 1];
        Ok(if rest.Some? then Some(rest.value + 1) else None)
  }

  /** `ppob_address or first_address` */
  function SelectedAddress(addrs: seq<Json>): Result<Option<Json>, PyError> {
    var i :- PpobIndex(addrs);
    if i.Some? then Ok(Some(addrs[i.value]))
    else if addrs == [] then Ok(None)
    else Ok(Some(addrs[0]))
  }

  /** The ten address fields the loader keeps, each as found in the response. */
  datatype AddressInfo = AddressInfo(
    line1: Json, line2: Json, line3: Json, line4: Json, city: Json, county: Json,
    postcode: Json, country: Json, telephone: Json, website: Json)

  const BlankAddress := AddressInfo(JStr(""), JStr(""), JStr(""), JStr(""), JStr(""), JStr(""),
                                    JStr(""), JStr(""), JStr(""), JStr(""))

  /** `d.get(k, "")` on a dict. */
  function GetText(fields: seq<Field>, k: string): Json {
    Lookup(fields, k).GetOr(JStr(""))
  }

  function AddressFrom(fields: seq<Field>): AddressInfo {
    AddressInfo(GetText(fields, "Address Line 1"), GetText(fields, "Address Line 2"),
                GetText(fields, "Address Line 3"), GetText(fields, "Address Line 4"),
                GetText(fields, "Town"), GetText(fields, "County"), GetText(fields, "Postcode"),
                GetText(fields, "Country"), GetText(fields, "Phone Number"), GetText(fields, "Website Address"))
  }

  function AddressOf(data: Option<Json>): Result<AddressInfo, PyError> {
    if data.None? then Ok(BlankAddress)
    else
      var addrs :- PyIter(data.value);
      var selected :- SelectedAddress(addrs);
      if selected.None? || !Truthy(selected.value) then Ok(BlankAddress)
      else if !selected.value.JObj? then Err(AttributeError)
      else Ok(AddressFrom(selected.value.fields))
  }

  function FirmAddress(api: RegisterApi, frn: Json): Result<AddressInfo, PyError> {
    var data :- FetchData(api, frn, "/Address");
    AddressOf(data)
  }

  /** The address kept is that of the first Principal Place of Business,
      otherwise that of the first entry; with no entries every field is "". */
  lemma AddressSelection(addrs: seq<Json>)
    ensures addrs == [] ==> AddressOf(Some(JArr(addrs))) == Ok(BlankAddress)
    ensures forall i :: (0 <= i < |addrs| && IsPrincipal(addrs[i])
                         && forall j :: 0 <= j < i ==> addrs[j].JObj? && !IsPrincipal(addrs[j]))
                        ==> AddressOf(Some(JArr(addrs))) == Ok(AddressFrom(addrs[i].fields))
    ensures addrs != [] && (forall j :: 0 <= j < |addrs| ==> addrs[j].JObj? && !IsPrincipal(addrs[j])) ==>
      AddressOf(Some(JArr(addrs))) == Ok(if addrs[0].fields == [] then BlankAddress else AddressFrom(addrs[0].fields))
  {
    forall i | 0 <= i < |addrs| && IsPrincipal(addrs[i]) && forall j :: 0 <= j < i ==> addrs[j].JObj? && !IsPrincipal(addrs[j])
      ensures AddressOf(Some(JArr(addrs))) == Ok(AddressFrom(addrs[i].fields))
    {
      PpobIndexFinds(addrs, i);
    }
    if forall j :: 0 <= j < |addrs| ==> addrs[j].JObj? && !IsPrincipal(addrs[j]) {
      PpobIndexNone(addrs);
    }
  }

  /** The scan stops at the first Principal Place of Business. */
  lemma {:induction false} PpobIndexFinds(addrs: seq<Json>, i: nat)
    requires i < |addrs| && IsPrincipal(addrs[i])
    requires forall j :: 0 <= j < i ==> addrs[j].JObj? && !IsPrincipal(addrs[j])
    ensures PpobIndex(addrs) == Ok(Some(i))
  {
    if i > 0 {
      assert PyGet(addrs[0], "Address Type", JNull) != Ok(JStr(PrincipalPlace));
      forall j | 0 <= j < i - 1 ensures addrs[1..][j].JObj? && !IsPrincipal(addrs[1..][j]) {
        assert addrs[1..][j] == addrs[j + 1];
      }
      PpobIndexFinds(addrs[1..], i - 1);
    }
  }

  /** With no Principal Place of Business among dicts, the scan finds none. */
  lemma {:induction false} PpobIndexNone(addrs: seq<Json>)
    requires forall j :: 0 <= j < |addrs| ==> addrs[j].JObj? && !IsPrincipal(addrs[j])
    ensures PpobIndex(addrs) == Ok(None)
  {
    if addrs != [] {
      assert PyGet(addrs[0], "Address Type", JNull) != Ok(JStr(PrincipalPlace));
      forall j | 0 <= j < |addrs| - 1 ensures addrs[1..][j].JObj? && !IsPrincipal(addrs[1..][j]) {
        assert addrs[1..][j] == addrs[j + 1];
      }
      PpobIndexNone(addrs[1..]);
    }
  }

  /** The scan for the Principal Place of Business, remembering the first
      entry on the way. */
  method SelectAddress(entries: seq<Json>) returns (r: Result<Option<Json>, PyError>)
    ensures r == SelectedAddress(entries)
  {
    var ppob: Option<Json> := None;
    var first: Option<Json> := None;
    var i := 0;
    while i < |entries|
      invariant 0 <= i <= |entries|
      invariant forall j :: 0 <= j < i ==> entries[j].JObj? && !IsPrincipal(entries[j])
      invariant first == if i == 0 then None else Some(entries[0])
      invariant ppob.None?
    {
      var t := PyGet(entries[i], "Address Type", JNull);
      if t.Err? {
        return Err(t.error);
      }
      if t.value == JStr(PrincipalPlace) {
        ppob := Some(entries[i]);
        break;
      } else if first.None? {
        first := Some(entries[i]);
      }
      i := i + 1;
    }
    r := Ok(if ppob.Some? then ppob else first);
  }

  /** _get_firm_address */
  method GetFirmAddress(api: RegisterApi, frn: Json) returns (r: Result<AddressInfo, PyError>)
    ensures r == FirmAddress(api, frn)
  {
    var data := FetchData(api, frn, "/Address");
    if data.Err? {
      return Err(data.error);
    }
    if data.value.None? {
      return Ok(BlankAddress);
    }
    var addrs := PyIter(data.value.value);
    if addrs.Err? {
      return Err(addrs.error);
    }
    var selected := SelectAddress(addrs.value);
    if selected.Err? {
      return Err(selected.error);
    }
    if selected.value.None? || !Truthy(selected.value.value) {
      return Ok(BlankAddress);
    }
    r := Ok(AddressFrom(selected.value.value.fields));
  }

  // ---------------------------------------------------------------------
  // _get_firm_permissions
  // ---------------------------------------------------------------------

  const ExcludedLimitations: seq<Json> := [JStr("Valid limitation not present"), JStr("Limitation Not Found")]
  const LimitationMark := "LIMITATION: "

  function LimitationLine(l: Json): seq<string> {
    if l in ExcludedLimitations then [] else [LimitationMark + PyStr(l)]
  }

  /** A "...Limitation..." key of a detail group lists limitations. */
  function KeyLimitations(f: Field): seq<string> {
    if Contains(f.key, "Limitation") && f.value.JArr? then FlatMap(LimitationLine, f.value.items) else []
  }

  function GroupLimitations(group: Json): seq<string> {
    if group.JObj? then FlatMap(KeyLimitations, group.fields) else []
  }

  /** An activity, followed by the limitations found in its details. */
  function ActivityPermissions(f: Field): seq<string> {
    [f.key] + if f.value.JArr? then FlatMap(GroupLimitations, f.value.items) else []
  }

  function FirmPermissions(api: RegisterApi, frn: Json): Result<seq<string>, PyError> {
    var data :- FetchData(api, frn, "/Permissions");
    if data.None? then Ok([])
    else
      var activities :- PyItems(data.value);
      Ok(FlatMap(ActivityPermissions, activities))
  }

  /** What the loop appends for an element is in its result. */
  lemma {:induction false} FlatMapTo<A, B>(f: A -> seq<B>, xs: seq<A>, x: A, y: B)
    requires x in xs && y in f(x)
    ensures y in FlatMap(f, xs)
  {
    var init := xs[..|xs| - 1];
    if x != xs[|xs| - 1] {
      assert xs == init + [xs[|xs| - 1]];
      FlatMapTo(f, init, x, y);
    }
  }

  /** A body that yields nothing is a loop that yields nothing. */
  lemma {:induction false} FlatMapEmpty<A, B>(f: A -> seq<B>, xs: seq<A>)
    requires forall x :: x in xs ==> f(x) == []
    ensures FlatMap(f, xs) == []
  {
    if xs != [] {
      FlatMapEmpty(f, xs[..|xs| - 1]);
    }
  }

  /** Every permission line names an activity or a limitation that is not
      one of the two "no limitation" texts, and every activity is listed. */
  lemma PermissionLinesSpec(activities: seq<Field>)
    ensures forall f :: f in activities ==> f.key in FlatMap(ActivityPermissions, activities)
    ensures forall y :: y in FlatMap(ActivityPermissions, activities) ==>
      (exists f :: f in activities && y == f.key)
      || (exists l :: l !in ExcludedLimitations && y == LimitationMark + PyStr(l))
  {
    forall f | f in activities
      ensures f.key in FlatMap(ActivityPermissions, activities)
    {
      FlatMapTo(ActivityPermissions, activities, f, f.key);
    }
    forall y | y in FlatMap(ActivityPermissions, activities)
      ensures (exists f :: f in activities && y == f.key)
        || (exists l :: l !in ExcludedLimitations && y == LimitationMark + PyStr(l))
    {
      FlatMapFrom(ActivityPermissions, activities, y);
      var f :| f in activities && y in ActivityPermissions(f);
      if y != f.key {
        FlatMapFrom(GroupLimitations, f.value.items, y);
        var g :| g in f.value.items && y in GroupLimitations(g);
        FlatMapFrom(KeyLimitations, g.fields, y);
        var h :| h in g.fields && y in KeyLimitations(h);
        FlatMapFrom(LimitationLine, h.value.items, y);
        var l :| l in h.value.items && y in LimitationLine(l);
        assert l !in ExcludedLimitations && y == LimitationMark + PyStr(l);
      }
    }
  }

  /** Without list details the permissions are exactly the activities. */
  lemma {:induction false} PermissionsWithoutDetails(activities: seq<Field>)
    requires forall f :: f in activities ==> !f.value.JArr?
    ensures FlatMap(ActivityPermissions, activities) == Keys(activities)
  {
    if activities != [] {
      var init := activities[..|activities| - 1];
      var last := activities[|activities| - 1];
      PermissionsWithoutDetails(init);
      assert activities == init + [last];
      KeysSnoc(init, last);
      assert ActivityPermissions(last) == [last.key];
    }
  }

  method LimitationsIn(values: seq<Json>) returns (lines: seq<string>)
    ensures lines == FlatMap(LimitationLine, values)
  {
    lines := [];
    for i := 0 to |values|
      invariant lines == FlatMap(LimitationLine, values[..i])
    {
      assert values[..i + 1][..i] == values[..i];
      if values[i] !in ExcludedLimitations {
        lines := lines + [LimitationMark + PyStr(values[i])];
      }
    }
    assert values[..|values|] == values;
  }

  method LimitationsOfGroup(group: seq<Field>) returns (lines: seq<string>)
    ensures lines == FlatMap(KeyLimitations, group)
  {
    lines := [];
    for i := 0 to |group|
      invariant lines == FlatMap(KeyLimitations, group[..i])
    {
      assert group[..i + 1][..i] == group[..i];
      if Contains(group[i].key, "Limitation") && group[i].value.JArr? {
        var more := LimitationsIn(group[i].value.items);
        lines := lines + more;
      }
    }
    assert group[..|group|] == group;
  }

  method LimitationsOfDetails(details: seq<Json>) returns (lines: seq<string>)
    ensures lines == FlatMap(GroupLimitations, details)
  {
    lines := [];
    for i := 0 to |details|
      invariant lines == FlatMap(GroupLimitations, details[..i])
    {
      assert details[..i + 1][..i] == details[..i];
      if details[i].JObj? {
        var more := LimitationsOfGroup(details[i].fields);
        lines := lines + more;
      }
    }
    assert details[..|details|] == details;
  }

  /** The loop over the activities and their details. */
  method PermissionsOf(items: seq<Field>) returns (permissions: seq<string>)
    ensures permissions == FlatMap(ActivityPermissions, items)
  {
    permissions := [];
    for i := 0 to |items|
      invariant permissions == FlatMap(ActivityPermissions, items[..i])
    {
      assert items[..i + 1][..i] == items[..i];
      permissions := permissions + [items[i].key];
      if items[i].value.JArr? {
        var more := LimitationsOfDetails(items[i].value.items);
        permissions := permissions + more;
      }
    }
    assert items[..|items|] == items;
  }

  /** _get_firm_permissions */
  method GetFirmPermissions(api: RegisterApi, frn: Json) returns (r: Result<seq<string>, PyError>)
    ensures r == FirmPermissions(api, frn)
  {
    var data := FetchData(api, frn, "/Permissions");
    if data.Err? {
      return Err(data.error);
    }
    if data.value.None? {
      return Ok([]);
    }
    var activities := PyItems(data.value.value);
    if activities.Err? {
      return Err(activities.error);
    }
    var permissions := PermissionsOf(activities.value);
    r := Ok(permissions);
  }

  // ---------------------------------------------------------------------
  // _get_firm_individuals and _get_firm_disciplinary_history
  // ---------------------------------------------------------------------

  datatype Person = Person(name: Json, irn: Json, status: Json, apiUrl: Json)

  function PersonOf(p: Json): Result<Person, PyError> {
    if !p.JObj? then Err(AttributeError)
    else Ok(Person(GetText(p.fields, "Name"), GetText(p.fields, "IRN"), GetText(p.fields, "Status"), GetText(p.fields, "URL")))
  }

  function FirmIndividuals(api: RegisterApi, frn: Json): Result<seq<Person>, PyError> {
    var data :- FetchData(api, frn, "/Individuals");
    if data.None? then Ok([])
    else
      var people :- PyIter(data.value);
      MapAll(PersonOf, people)
  }

  datatype Disciplinary = Disciplinary(actionType: Json, enforcementType: Json, description: Json, effectiveDate: Json)

  function DisciplinaryOf(a: Json): Result<Disciplinary, PyError> {
    if !a.JObj? then Err(AttributeError)
    else Ok(Disciplinary(GetText(a.fields, "TypeofAction"), GetText(a.fields, "EnforcementType"),
                         GetText(a.fields, "TypeofDescription"), GetText(a.fields, "ActionEffectiveFrom")))
  }

  function FirmDisciplinaryHistory(api: RegisterApi, frn: Json): Result<seq<Disciplinary>, PyError> {
    var data :- FetchData(api, frn, "/DisciplinaryHistory");
    if data.None? then Ok([])
    else
      var actions :- PyIter(data.value);
      MapAll(DisciplinaryOf, actions)
  }

  /** Each entry becomes one record, in order, and an entry that is not a
      dict makes the whole call raise. */
  lemma RecordsSpec(people: seq<Json>, actions: seq<Json>)
    ensures MapAll(PersonOf, people).Ok? <==> forall i :: 0 <= i < |people| ==> people[i].JObj?
    ensures MapAll(PersonOf, people).Ok? ==> forall i :: 0 <= i < |people| ==>
      MapAll(PersonOf, people).value[i].name == GetText(people[i].fields, "Name")
    ensures MapAll(DisciplinaryOf, actions).Ok? <==> forall i :: 0 <= i < |actions| ==> actions[i].JObj?
    ensures MapAll(DisciplinaryOf, actions).Ok? ==> forall i :: 0 <= i < |actions| ==>
      MapAll(DisciplinaryOf, actions).value[i].actionType == GetText(actions[i].fields, "TypeofAction")
      && MapAll(DisciplinaryOf, actions).value[i].description == GetText(actions[i].fields, "TypeofDescription")
  {
    MapAllOk(PersonOf, people);
    MapAllOk(DisciplinaryOf, actions);
  }

  /** The loop over the people listed. */
  method PeopleOf(xs: seq<Json>) returns (r: Result<seq<Person>, PyError>)
    ensures r == MapAll(PersonOf, xs)
  {
    var individuals: seq<Person> := [];
    for i := 0 to |xs|
      invariant MapAll(PersonOf, xs[..i]) == Ok(individuals)
    {
      assert xs[..i + 1][..i] == xs[..i];
      var person := PersonOf(xs[i]);
      if person.Err? {
        MapAllErrExtends(PersonOf, xs, i + 1);
        return Err(person.error);
      }
      individuals := individuals + [person.value];
    }
    assert xs[..|xs|] == xs;
    r := Ok(individuals);
  }

  /** The loop over the disciplinary actions listed. */
  method ActionsOf(xs: seq<Json>) returns (r: Result<seq<Disciplinary>, PyError>)
    ensures r == MapAll(DisciplinaryOf, xs)
  {
    var history: seq<Disciplinary> := [];
    for i := 0 to |xs|
      invariant MapAll(DisciplinaryOf, xs[..i]) == Ok(history)
    {
      assert xs[..i + 1][..i] == xs[..i];
      var action := DisciplinaryOf(xs[i]);
      if action.Err? {
        MapAllErrExtends(DisciplinaryOf, xs, i + 1);
        return Err(action.error);
      }
      history := history + [action.value];
    }
    assert xs[..|xs|] == xs;
    r := Ok(history);
  }

  /** _get_firm_individuals */
  method GetFirmIndividuals(api: RegisterApi, frn: Json) returns (r: Result<seq<Person>, PyError>)
    ensures r == FirmIndividuals(api, frn)
  {
    var data := FetchData(api, frn, "/Individuals");
    if data.Err? {
      return Err(data.error);
    }
    if data.value.None? {
      return Ok([]);
    }
    var people := PyIter(data.value.value);
    if people.Err? {
      return Err(people.error);
    }
    r := PeopleOf(people.value);
  }

  /** _get_firm_disciplinary_history */
  method GetFirmDisciplinaryHistory(api: RegisterApi, frn: Json) returns (r: Result<seq<Disciplinary>, PyError>)
    ensures r == FirmDisciplinaryHistory(api, frn)
  {
    var data := FetchData(api, frn, "/DisciplinaryHistory");
    if data.Err? {
      return Err(data.error);
    }
    if data.value.None? {
      return Ok([]);
    }
    var actions := PyIter(data.value.value);
    if actions.Err? {
      return Err(actions.error);
    }
    r := ActionsOf(actions.value);
  }

  // ---------------------------------------------------------------------
  // _get_firm_requirements
  // ---------------------------------------------------------------------

  const ExcludedRequirementKeys: seq<string> :=
    ["Effective Date", "Requirement Reference", "Financial Promotions Requirement", "Financial Promotions Investment Types"]

  predicate KeptRequirement(f: Field) {
    f.key !in ExcludedRequirementKeys && f.value.JStr? && f.value.s != []
  }

  function RequirementLine(f: Field): seq<string> {
    if KeptRequirement(f) then [f.key + ": " + f.value.s] else []
  }

  function RequirementLines(req: Json): Result<seq<string>, PyError> {
    var fields :- PyItems(req);
    Ok(FlatMap(RequirementLine, fields))
  }

  function FirmRequirements(api: RegisterApi, frn: Json): Result<seq<string>, PyError> {
    var data :- FetchData(api, frn, "/Requirements");
    if data.None? then Ok([])
    else
      var reqs :- PyIter(data.value);
      FlatMapAll(RequirementLines, reqs)
  }

  /** A requirement yields "key: text" exactly for its non-empty string
      values under keys other than the four reference keys. */
  lemma RequirementLinesSpec(fields: seq<Field>)
    ensures forall f :: f in fields && KeptRequirement(f) ==> f.key + ": " + f.value.s in FlatMap(RequirementLine, fields)
    ensures forall y :: y in FlatMap(RequirementLine, fields) ==>
      exists f :: f in fields && KeptRequirement(f) && y == f.key + ": " + f.value.s
  {
    forall f | f in fields && KeptRequirement(f)
      ensures f.key + ": " + f.value.s in FlatMap(RequirementLine, fields)
    {
      FlatMapTo(RequirementLine, fields, f, f.key + ": " + f.value.s);
    }
    forall y | y in FlatMap(RequirementLine, fields)
      ensures exists f :: f in fields && KeptRequirement(f) && y == f.key + ": " + f.value.s
    {
      FlatMapFrom(RequirementLine, fields, y);
    }
  }

  method RequirementLinesOf(req: Json) returns (r: Result<seq<string>, PyError>)
    ensures r == RequirementLines(req)
  {
    var fields := PyItems(req);
    if fields.Err? {
      return Err(fields.error);
    }
    var xs := fields.value;
    var lines: seq<string> := [];
    for i := 0 to |xs|
      invariant lines == FlatMap(RequirementLine, xs[..i])
    {
      assert xs[..i + 1][..i] == xs[..i];
      if xs[i].key !in ExcludedRequirementKeys && xs[i].value.JStr? && xs[i].value.s != [] {
        lines := lines + [xs[i].key + ": " + xs[i].value.s];
      }
    }
    assert xs[..|xs|] == xs;
    r := Ok(lines);
  }

  /** The loop over the requirement entries. */
  method RequirementsOf(xs: seq<Json>) returns (r: Result<seq<string>, PyError>)
    ensures r == FlatMapAll(RequirementLines, xs)
  {
    var requirements: seq<string> := [];
    for i := 0 to |xs|
      invariant FlatMapAll(RequirementLines, xs[..i]) == Ok(requirements)
    {
      assert xs[..i + 1][..i] == xs[..i];
      var more := RequirementLinesOf(xs[i]);
      if more.Err? {
        FlatMapAllErrExtends(RequirementLines, xs, i + 1);
        return Err(more.error);
      }
      requirements := requirements + more.value;
    }
    assert xs[..|xs|] == xs;
    r := Ok(requirements);
  }

  /** _get_firm_requirements */
  method GetFirmRequirements(api: RegisterApi, frn: Json) returns (r: Result<seq<string>, PyError>)
    ensures r == FirmRequirements(api, frn)
  {
    var data := FetchData(api, frn, "/Requirements");
    if data.Err? {
      return Err(data.error);
    }
    if data.value.None? {
      return Ok([]);
    }
    var reqs := PyIter(data.value.value);
    if reqs.Err? {
      return Err(reqs.error);
    }
    r := RequirementsOf(reqs.value);
  }

  // ---------------------------------------------------------------------
  // _get_enhanced_firm_data
  // ---------------------------------------------------------------------

  /** A `str` field of the firm model. */
  function AsStr(j: Json): (r: Result<string, PyError>)
    ensures r.Ok? <==> j.JStr?
    ensures r.Ok? ==> r.value == j.s
  {
    if j.JStr? then Ok(j.s) else Err(ValidationError)
  }

  /** A value a `str | None` field of the firm model accepts. */
  predicate IsOptStr(j: Json) {
    j.JStr? || j.JNull?
  }

  /** The value a `str | None` field takes from an accepted value. */
  function OptStr(j: Json): Option<string> {
    if j.JStr? then Some(j.s) else None
  }

  /** `[ind["name"] for ind in individuals]` */
  function PersonNames(individuals: seq<Person>): (names: seq<Json>)
    ensures |names| == |individuals|
    ensures forall i :: 0 <= i < |individuals| ==> names[i] == individuals[i].name
  {
    seq(|individuals|, i requires 0 <= i < |individuals| => individuals[i].name)
  }

  /** `[f"{a['action_type']}: {a['description']}" for a in history]` */
  function HistoryLines(history: seq<Disciplinary>): (lines: seq<string>)
    ensures |lines| == |history|
    ensures forall i :: 0 <= i < |history| ==> lines[i] == PyStr(history[i].actionType) + ": " + PyStr(history[i].description)
  {
    seq(|history|, i requires 0 <= i < |history| => PyStr(history[i].actionType) + ": " + PyStr(history[i].description))
  }

  function ExceptionalBody(info: Json): Result<Json, PyError> {
    PyGet(info, "Exceptional Info Body", JStr(""))
  }

  /** The FCAAuthorisedFirm built from the base record and the six
      extractors' results. The keyword arguments are evaluated first (a base
      record that is no dict, or exceptional details that cannot be read,
      raise there); pydantic then validates every field at once, and any
      value of the wrong type makes the whole model a ValidationError. */
  function BuildFirm(frn: Json, base: Json, names: seq<Json>, address: AddressInfo, permissions: seq<string>,
                     individuals: seq<Person>, requirements: seq<string>, history: seq<Disciplinary>): (r: Result<Firm, PyError>)
    ensures !base.JObj? ==> r == Err(AttributeError)
    ensures r.Ok? ==>
      && frn == JStr(r.value.firm_reference_number) && r.value.permissions == permissions
      && r.value.regulatory_requirements == requirements && r.value.disciplinary_history == HistoryLines(history)
  {
    if !base.JObj? then Err(AttributeError)
    else
      var b := base.fields;
      var details :- PyIter(Lookup(b, "Exceptional Info Details").GetOr(JArr([])));
      var exceptional :- MapAll(ExceptionalBody, details);
      var name := GetText(b, "Organisation Name");
      var status := GetText(b, "Status");
      var trading := MapAll(AsStr, names);
      var keyIndividuals := MapAll(AsStr, PersonNames(individuals));
      var info := MapAll(AsStr, exceptional);
      if !frn.JStr? || !name.JStr? || !status.JStr? || trading.Err? || keyIndividuals.Err? || info.Err?
         || !(forall j :: j in OptionalFields(b, address) ==> IsOptStr(j))
      then Err(ValidationError)
      else
        Ok(Firm(frn.s, name.s, trading.value, status.s, permissions,
                OptStr(address.line1), OptStr(address.city), OptStr(address.postcode), OptStr(address.country),
                OptStr(address.telephone), OptStr(GetText(b, "Business Type")),
                OptStr(GetText(b, "Companies House Number")), OptStr(GetText(b, "Client Money Permission")),
                OptStr(GetText(b, "PSD / EMD Status")), OptStr(address.website), keyIndividuals.value, requirements,
                HistoryLines(history), OptStr(GetText(b, "Sub-Status")), OptStr(GetText(b, "MLRs Status")), info.value))
  }

  /** The values given to the firm's `str | None` fields, in field order. */
  function OptionalFields(b: seq<Field>, address: AddressInfo): seq<Json> {
    [address.line1, address.city, address.postcode, address.country, address.telephone,
     GetText(b, "Business Type"), GetText(b, "Companies House Number"), GetText(b, "Client Money Permission"),
     GetText(b, "PSD / EMD Status"), address.website, GetText(b, "Sub-Status"), GetText(b, "MLRs Status")]
  }

  /** A validated list holds the strings it was given, in order. */
  lemma AsStrsSpec(js: seq<Json>)
    ensures MapAll(AsStr, js).Ok? <==> forall i :: 0 <= i < |js| ==> js[i].JStr?
    ensures MapAll(AsStr, js).Ok? ==> forall i :: 0 <= i < |js| ==> JStr(MapAll(AsStr, js).value[i]) == js[i]
  {
    MapAllOk(AsStr, js);
  }

  /** A built firm carries the FRN it was asked for, the base record's name
      and status, the trading names, key individuals and address found, and
      the permissions, requirements and disciplinary lines unchanged. */
  lemma BuildFirmSpec(frn: Json, base: Json, names: seq<Json>, address: AddressInfo, permissions: seq<string>,
                      individuals: seq<Person>, requirements: seq<string>, history: seq<Disciplinary>)
    requires BuildFirm(frn, base, names, address, permissions, individuals, requirements, history).Ok?
    ensures var f := BuildFirm(frn, base, names, address, permissions, individuals, requirements, history).value;
      && base.JObj?
      && frn == JStr(f.firm_reference_number)
      && JStr(f.firm_name) == GetText(base.fields, "Organisation Name")
      && JStr(f.firm_status) == GetText(base.fields, "Status")
      && |f.trading_names| == |names| && (forall i :: 0 <= i < |names| ==> JStr(f.trading_names[i]) == names[i])
      && |f.key_individuals| == |individuals|
      && (forall i :: 0 <= i < |individuals| ==> JStr(f.key_individuals[i]) == individuals[i].name)
      && (address.line1.JStr? ==> f.address_line_1 == Some(address.line1.s))
      && (address.postcode.JStr? ==> f.postcode == Some(address.postcode.s))
      && f.permissions == permissions && f.regulatory_requirements == requirements
      && f.disciplinary_history == HistoryLines(history)
  {
    AsStrsSpec(names);
    AsStrsSpec(PersonNames(individuals));
  }

  /** _get_enhanced_firm_data: the six extractors, then the firm. */
  function EnhancedFirm(api: RegisterApi, frn: Json, base: Json): (r: Result<Firm, PyError>)
    ensures FirmNames(api, frn).Err? ==> r == Err(FirmNames(api, frn).error)
    ensures r.Ok? ==> frn == JStr(r.value.firm_reference_number)
  {
    var names :- FirmNames(api, frn);
    var address :- FirmAddress(api, frn);
    var permissions :- FirmPermissions(api, frn);
    var individuals :- FirmIndividuals(api, frn);
    var requirements :- FirmRequirements(api, frn);
    var history :- FirmDisciplinaryHistory(api, frn);
    BuildFirm(frn, base, names, address, permissions, individuals, requirements, history)
  }

  /** An extractor that raises loses the whole firm. */
  lemma EnhancedFirmNeedsAll(api: RegisterApi, frn: Json, base: Json)
    ensures EnhancedFirm(api, frn, base).Ok? ==>
      && FirmNames(api, frn).Ok? && FirmAddress(api, frn).Ok? && FirmPermissions(api, frn).Ok?
      && FirmIndividuals(api, frn).Ok? && FirmRequirements(api, frn).Ok? && FirmDisciplinaryHistory(api, frn).Ok?
    ensures EnhancedFirm(api, frn, base).Ok? ==>
      EnhancedFirm(api, frn, base).value.permissions == FirmPermissions(api, frn).value
      && EnhancedFirm(api, frn, base).value.regulatory_requirements == FirmRequirements(api, frn).value
      && frn == JStr(EnhancedFirm(api, frn, base).value.firm_reference_number)
  {
    if EnhancedFirm(api, frn, base).Ok? {
      BuildFirmSpec(frn, base, FirmNames(api, frn).value, FirmAddress(api, frn).value, FirmPermissions(api, frn).value,
                    FirmIndividuals(api, frn).value, FirmRequirements(api, frn).value, FirmDisciplinaryHistory(api, frn).value);
    }
  }

  /** _get_enhanced_firm_data */
  method GetEnhancedFirmData(api: RegisterApi, frn: Json, base: Json) returns (r: Result<Firm, PyError>)
    ensures r == EnhancedFirm(api, frn, base)
  {
    var names := GetFirmNames(api, frn);
    if names.Err? {
      return Err(names.error);
    }
    var address := GetFirmAddress(api, frn);
    if address.Err? {
      return Err(address.error);
    }
    var permissions := GetFirmPermissions(api, frn);
    if permissions.Err? {
      return Err(permissions.error);
    }
    var individuals := GetFirmIndividuals(api, frn);
    if individuals.Err? {
      return Err(individuals.error);
    }
    var requirements := GetFirmRequirements(api, frn);
    if requirements.Err? {
      return Err(requirements.error);
    }
    var history := GetFirmDisciplinaryHistory(api, frn);
    if history.Err? {
      return Err(history.error);
    }
    r := BuildFirm(frn, base, names.value, address.value, permissions.value, individuals.value, requirements.value, history.value);
  }

  // ---------------------------------------------------------------------
  // _process_single_firm
  // ---------------------------------------------------------------------

  /** The firm for an FRN, or `None` when anything on the way raises. */
  function SingleFirm(api: RegisterApi, frn: Json): (r: Option<Firm>)
    ensures FetchData(api, frn, "").Err? ==> r.None?
    ensures r.Some? ==> frn == JStr(r.value.firm_reference_number)
  {
    match FetchData(api, frn, "")
    case Ok(Some(data)) =>
      (match PyIndexPos(data, 0)
       case Ok(base) => (match EnhancedFirm(api, frn, base) case Ok(f) => Some(f) case Err(_) => None)
       case Err(_) => None)
    case _ => None
  }

  /** A firm is only ever produced from a successful detail call and
      enhancement of that very FRN. */
  lemma SingleFirmSpec(api: RegisterApi, frn: Json)
    ensures SingleFirm(api, frn).Some? ==>
      && FetchData(api, frn, "").Ok? && FetchData(api, frn, "").value.Some?
      && var base := PyIndexPos(FetchData(api, frn, "").value.value, 0);
      && base.Ok? && EnhancedFirm(api, frn, base.value) == Ok(SingleFirm(api, frn).value)
      && frn == JStr(SingleFirm(api, frn).value.firm_reference_number)
  {
    if SingleFirm(api, frn).Some? {
      var base := PyIndexPos(FetchData(api, frn, "").value.value, 0);
      EnhancedFirmNeedsAll(api, frn, base.value);
    }
  }

  /** _process_single_firm */
  method ProcessSingleFirm(api: RegisterApi, frn: Json) returns (r: Option<Firm>)
    ensures r == SingleFirm(api, frn)
  {
    var detail := FetchData(api, frn, "");
    if detail.Err? || detail.value.None? {
      return None;
    }
    var base := PyIndexPos(detail.value.value, 0);
    if base.Err? {
      return None;
    }
    var firm := GetEnhancedFirmData(api, frn, base.value);
    if firm.Err? {
      return None;
    }
    r := Some(firm.value);
  }

  // ---------------------------------------------------------------------
  // load_authorised_firms: collecting FRNs
  // ---------------------------------------------------------------------

  const SearchTerms: seq<string> := ["ltd", "limited", "plc", "llp", "limited liability"]
  const KnownFrns: seq<string> := ["615820"]
  const SearchFound := "FSR-API-04-01-00"
  const PerTermLimit := 20
  const DefaultLimit := 500
  const BatchSize := 3

  /** One entry of `all_firms`: an FRN and the summary first seen for it. */
  datatype Entry = Entry(frn: Json, summary: Json)

  function Frns(table: seq<Entry>): (ks: seq<Json>)
    ensures |ks| == |table|
    ensures forall i :: 0 <= i < |table| ==> ks[i] == table[i].frn
  {
    seq(|table|, i requires 0 <= i < |table| => table[i].frn)
  }

  predicate UniqueFrns(table: seq<Entry>) {
    forall i, j :: 0 <= i < j < |table| ==> table[i].frn != table[j].frn
  }

  function SearchRequest(api: RegisterApi, term: string): Request {
    Request(api.baseUrl + "/Search", [Field("q", JStr(term)), Field("type", JStr("firm"))], api.headers)
  }

  /** The summaries a search for `term` offers: at most twenty, and none
      unless the status is FSR-API-04-01-00 and there is data. */
  function SearchSummaries(api: RegisterApi, term: string): (r: Result<seq<Json>, PyError>)
    ensures r.Ok? ==> |r.value| <= PerTermLimit
  {
    var data :- api.http(SearchRequest(api, term));
    var status :- PyGet(data, "Status", JNull);
    if status != JStr(SearchFound) then Ok([])
    else
      var found := Lookup(data.fields, "Data").GetOr(JNull);
      if !Truthy(found) then Ok([])
      else
        var page :- PySliceTo(found, PerTermLimit);
        PyIter(page)
  }

  /** `if frn and frn not in all_firms: all_firms[frn] = firm_summary` */
  function AddSummary(table: seq<Entry>, summary: Json): Result<seq<Entry>, PyError> {
    var frn :- PyGet(summary, "Reference Number", JNull);
    if !Truthy(frn) then Ok(table)
    else if !Hashable(frn) then Err(TypeError)
    else if frn in Frns(table) then Ok(table)
    else Ok(table + [Entry(frn, summary)])
  }

  /** The table after a scan of summaries, and whether an exception ended it. */
  datatype Scan = Scan(table: seq<Entry>, failed: bool)

  /** The loop over one search's summaries: an exception ends it, and what
      was added before stays. */
  function ScanSummaries(table: seq<Entry>, summaries: seq<Json>): Scan {
    if summaries == [] then Scan(table, false)
    else
      var prev := ScanSummaries(table, summaries[..|summaries| - 1]);
      if prev.failed then prev
      else
        match AddSummary(prev.table, summaries[|summaries| - 1])
        case Ok(t) => Scan(t, false)
        case Err(_) => Scan(prev.table, true)
  }

  function TermTable(api: RegisterApi, table: seq<Entry>, term: string): seq<Entry> {
    match SearchSummaries(api, term)
    case Err(_) => table
    case Ok(summaries) => ScanSummaries(table, summaries).table
  }

  function SearchTable(api: RegisterApi, terms: seq<string>): seq<Entry> {
    if terms == [] then [] else TermTable(api, SearchTable(api, terms[..|terms| - 1]), terms[|terms| - 1])
  }

  function KnownSummary(frn: string): Json {
    JObj([Field("Reference Number", JStr(frn)), Field("Name", JStr("Firm " + frn)),
          Field("Type of business or Individual", JStr("Firm"))])
  }

  function WithKnown(table: seq<Entry>, known: seq<string>): seq<Entry> {
    if known == [] then table
    else
      var prev := WithKnown(table, known[..|known| - 1]);
      var frn := known[|known| - 1];
      if JStr(frn) in Frns(prev) then prev else prev + [Entry(JStr(frn), KnownSummary(frn))]
  }

  /** `list(all_firms.keys())[:limit]` */
  function SelectedFrns(api: RegisterApi, limit: int): (r: seq<Json>)
    ensures r <= Frns(WithKnown(SearchTable(api, SearchTerms), KnownFrns))
    ensures 0 <= limit ==> |r| <= limit
  {
    SliceTo(Frns(WithKnown(SearchTable(api, SearchTerms), KnownFrns)), limit)
  }

  /** An entry is only ever added, never replaced: the first summary seen
      for an FRN wins, FRNs stay distinct and truthy, and a summary adds at
      most one entry. */
  lemma AddSummaryGrows(table: seq<Entry>, summary: Json)
    requires UniqueFrns(table)
    ensures AddSummary(table, summary).Ok? ==>
      var t := AddSummary(table, summary).value;
      table <= t && |t| <= |table| + 1 && UniqueFrns(t)
      && (|t| > |table| ==> Truthy(t[|table|].frn) && t[|table|].summary == summary)
  {
  }

  lemma {:induction false} ScanSummariesGrows(table: seq<Entry>, summaries: seq<Json>)
    requires UniqueFrns(table)
    ensures var t := ScanSummaries(table, summaries).table;
      table <= t && |t| <= |table| + |summaries| && UniqueFrns(t)
  {
    if summaries != [] {
      var init := summaries[..|summaries| - 1];
      ScanSummariesGrows(table, init);
      var prev := ScanSummaries(table, init);
      if !prev.failed {
        AddSummaryGrows(prev.table, summaries[|summaries| - 1]);
      }
    }
  }

  /** A failed scan stays failed, whatever follows. */
  lemma {:induction false} ScanFailedStays(table: seq<Entry>, summaries: seq<Json>, k: nat)
    requires k <= |summaries| && ScanSummaries(table, summaries[..k]).failed
    ensures ScanSummaries(table, summaries) == ScanSummaries(table, summaries[..k])
    decreases |summaries| - k
  {
    if k < |summaries| {
      assert summaries[..k + 1][..k] == summaries[..k];
      ScanFailedStays(table, summaries, k + 1);
    } else {
      assert summaries[..k] == summaries;
    }
  }

  /** Each search term adds at most twenty FRNs, all new. */
  lemma TermTableGrows(api: RegisterApi, table: seq<Entry>, term: string)
    requires UniqueFrns(table)
    ensures var t := TermTable(api, table, term);
      table <= t && |t| <= |table| + PerTermLimit && UniqueFrns(t)
  {
    if SearchSummaries(api, term).Ok? {
      ScanSummariesGrows(table, SearchSummaries(api, term).value);
    }
  }

  lemma {:induction false} SearchTableGrows(api: RegisterApi, terms: seq<string>)
    ensures |SearchTable(api, terms)| <= PerTermLimit * |terms| && UniqueFrns(SearchTable(api, terms))
  {
    if terms != [] {
      SearchTableGrows(api, terms[..|terms| - 1]);
      TermTableGrows(api, SearchTable(api, terms[..|terms| - 1]), terms[|terms| - 1]);
    }
  }

  lemma {:induction false} WithKnownSpec(table: seq<Entry>, known: seq<string>)
    requires UniqueFrns(table)
    ensures var t := WithKnown(table, known);
      table <= t && UniqueFrns(t) && forall frn :: frn in known ==> JStr(frn) in Frns(t)
  {
    if known != [] {
      var init := known[..|known| - 1];
      WithKnownSpec(table, init);
      var prev := WithKnown(table, init);
      var t := WithKnown(table, known);
      assert Frns(prev) <= Frns(t);
      forall frn | frn in known
        ensures JStr(frn) in Frns(t)
      {
        var last := known[|known| - 1];
        if frn != last {
          assert frn in init;
        } else if JStr(last) !in Frns(prev) {
          assert Frns(t)[|prev|] == JStr(last);
        }
      }
    }
  }

  /** The FRNs processed are distinct, at most `limit` of them, at most
      twenty per search term before the known FRN, and the known FRN is
      among the collected ones. */
  lemma SelectedFrnsSpec(api: RegisterApi, limit: int)
    ensures var all := Frns(WithKnown(SearchTable(api, SearchTerms), KnownFrns));
      && JStr("615820") in all
      && |all| <= PerTermLimit * |SearchTerms| + |KnownFrns|
      && (forall i, j :: 0 <= i < j < |all| ==> all[i] != all[j])
      && SelectedFrns(api, limit) <= all
      && (0 <= limit ==> |SelectedFrns(api, limit)| <= limit)
  {
    var searched := SearchTable(api, SearchTerms);
    SearchTableGrows(api, SearchTerms);
    WithKnownSpec(searched, KnownFrns);
    assert "615820" in KnownFrns;
    WithKnownGrowsBy(searched, KnownFrns);
  }

  lemma {:induction false} WithKnownGrowsBy(table: seq<Entry>, known: seq<string>)
    ensures |WithKnown(table, known)| <= |table| + |known|
  {
    if known != [] {
      WithKnownGrowsBy(table, known[..|known| - 1]);
    }
  }

  /** The loop over one search's summaries. */
  method ScanTerm(table: seq<Entry>, summaries: seq<Json>) returns (t: seq<Entry>)
    ensures t == ScanSummaries(table, summaries).table
  {
    t := table;
    for i := 0 to |summaries|
      invariant ScanSummaries(table, summaries[..i]) == Scan(t, false)
    {
      assert summaries[..i + 1][..i] == summaries[..i];
      var frn := PyGet(summaries[i], "Reference Number", JNull);
      if frn.Err? {
        ScanFailedStays(table, summaries, i + 1);
        return;
      }
      if Truthy(frn.value) {
        if !Hashable(frn.value) {
          ScanFailedStays(table, summaries, i + 1);
          return;
        }
        if frn.value !in Frns(t) {
          t := t + [Entry(frn.value, summaries[i])];
        }
      }
    }
    assert summaries[..|summaries|] == summaries;
  }

  /** The search loop and the known FRNs: `all_firms`, in insertion order. */
  method CollectFirms(api: RegisterApi) returns (table: seq<Entry>)
    ensures table == WithKnown(SearchTable(api, SearchTerms), KnownFrns)
  {
    table := [];
    for k := 0 to |SearchTerms|
      invariant table == SearchTable(api, SearchTerms[..k])
    {
      assert SearchTerms[..k + 1][..k] == SearchTerms[..k];
      var summaries := SearchSummaries(api, SearchTerms[k]);
      if summaries.Err? {
        continue;
      }
      table := ScanTerm(table, summaries.value);
    }
    assert SearchTerms[..|SearchTerms|] == SearchTerms;
    ghost var searched := table;
    for k := 0 to |KnownFrns|
      invariant table == WithKnown(searched, KnownFrns[..k])
    {
      assert KnownFrns[..k + 1][..k] == KnownFrns[..k];
      var frn := KnownFrns[k];
      if JStr(frn) !in Frns(table) {
        table := table + [Entry(JStr(frn), KnownSummary(frn))];
      }
    }
    assert KnownFrns[..|KnownFrns|] == KnownFrns;
  }

  // ---------------------------------------------------------------------
  // load_authorised_firms: processing and storing
  // ---------------------------------------------------------------------

  /** The firms that come out of the FRNs, in order; an FRN that yields no
      firm is skipped. */
  function FirmsOf(api: RegisterApi, frns: seq<Json>): (r: seq<Firm>)
    ensures |r| <= |frns|
    ensures forall i :: 0 <= i < |r| ==> JStr(r[i].firm_reference_number) in frns
  {
    if frns == [] then []
    else
      FirmsOf(api, frns[..|frns| - 1])
      + match SingleFirm(api, frns[|frns| - 1]) case Some(f) => [f] case None => []
  }

  /** Every firm stored is the firm of one of the FRNs, under that FRN. */
  lemma {:induction false} FirmsOfSpec(api: RegisterApi, frns: seq<Json>)
    ensures |FirmsOf(api, frns)| <= |frns|
    ensures forall f :: f in FirmsOf(api, frns) ==>
      exists frn :: frn in frns && SingleFirm(api, frn) == Some(f) && frn == JStr(f.firm_reference_number)
  {
    if frns != [] {
      var init := frns[..|frns| - 1];
      var last := frns[|frns| - 1];
      FirmsOfSpec(api, init);
      SingleFirmSpec(api, last);
      forall f | f in FirmsOf(api, frns)
        ensures exists frn :: frn in frns && SingleFirm(api, frn) == Some(f) && frn == JStr(f.firm_reference_number)
      {
        if f in FirmsOf(api, init) {
          var frn :| frn in init && SingleFirm(api, frn) == Some(f) && frn == JStr(f.firm_reference_number);
          assert frn in frns;
        } else {
          assert last in frns;
        }
      }
    }
  }

  function FirmDocs(firms: seq<Firm>): (docs: seq<Document>)
    ensures |docs| == |firms|
    ensures forall i :: 0 <= i < |firms| ==> docs[i] == FirmDoc(firms[i])
  {
    seq(|firms|, i requires 0 <= i < |firms| => FirmDoc(firms[i]))
  }

  /** A firm always dumps, so storing firms builds every action. */
  lemma FirmActionsBuild(writer: Writer, firms: seq<Firm>)
    ensures Actions(writer, FirmDocs(firms)).Ok?
    ensures forall i :: 0 <= i < |firms| ==> Actions(writer, FirmDocs(firms)).value[i].id == "firm_" + firms[i].firm_reference_number
  {
    var docs := FirmDocs(firms);
    forall i | 0 <= i < |docs|
      ensures ActionOf(writer, docs[i]).Ok?
    {
      DumpDocumentFails(writer.storedFields, writer.sha256, docs[i]);
    }
    ActionsSpec(writer, docs);
  }

  /** Processing a list in two parts gives the firms of each part, in order. */
  lemma {:induction false} FirmsOfAppend(api: RegisterApi, a: seq<Json>, b: seq<Json>)
    ensures FirmsOf(api, a + b) == FirmsOf(api, a) + FirmsOf(api, b)
    decreases |b|
  {
    if b == [] {
      assert a + b == a;
    } else {
      var init := b[..|b| - 1];
      assert (a + b)[..|a + b| - 1] == a + init;
      FirmsOfAppend(api, a, init);
    }
  }

  lemma FirmsOfSplit(api: RegisterApi, frns: seq<Json>, i: nat, end: nat)
    requires i <= end <= |frns|
    ensures FirmsOf(api, frns[..end]) == FirmsOf(api, frns[..i]) + FirmsOf(api, frns[i..end])
  {
    assert frns[..end] == frns[..i] + frns[i..end];
    FirmsOfAppend(api, frns[..i], frns[i..end]);
  }

  /** One batch: its firms, gathered in the order of its FRNs. */
  method ProcessBatch(api: RegisterApi, batch: seq<Json>) returns (firms: seq<Firm>)
    ensures firms == FirmsOf(api, batch)
  {
    firms := [];
    for j := 0 to |batch|
      invariant firms == FirmsOf(api, batch[..j])
    {
      assert batch[..j + 1][..j] == batch[..j];
      var firm := ProcessSingleFirm(api, batch[j]);
      if firm.Some? {
        firms := firms + [firm.value];
      }
    }
    assert batch[..|batch|] == batch;
  }

  /** ElasticFCAAuthorisedFirmsLoader: the Register's firms stored into
      `base`'s index. */
  class ElasticFCAAuthorisedFirmsLoader {
    const base: ElasticDataLoader

    constructor (base: ElasticDataLoader)
      ensures this.base == base
    {
      this.base := base;
    }

    /** The batches of three of load_authorised_firms: each batch's firms
        are gathered in order, so the batches together give the firms of
        the whole list in order. */
    method ProcessFirms(api: RegisterApi, frns: seq<Json>) returns (firms: seq<Firm>)
      ensures firms == FirmsOf(api, frns)
    {
      firms := [];
      // The batch starts are those of range(0, len(frns), 3): each batch
      // ends three further on, or at the end of the list.
      var i := 0;
      while i < |frns|
        invariant 0 <= i <= |frns|
        invariant firms == FirmsOf(api, frns[..i])
      {
        var end := if i + BatchSize < |frns| then i + BatchSize else |frns|;
        var batch := frns[i..end];
        var more := ProcessBatch(api, batch);
        FirmsOfSplit(api, frns, i, end);
        firms := firms + more;
        i := end;
      }
      assert frns[..|frns|] == frns;
    }

    /** load_authorised_firms */
    method LoadAuthorisedFirms(api: RegisterApi, writer: Writer, limit: int) returns (r: Result<(), PyError>)
      modifies base
      ensures var firms := FirmsOf(api, SelectedFrns(api, limit));
        && Actions(writer, FirmDocs(firms)).Ok?
        && var actions := Actions(writer, FirmDocs(firms)).value;
        && (writer.bulk(actions).Err? ==> r == Err(writer.bulk(actions).error) && base.store == old(base.store))
        && (writer.bulk(actions).Ok? ==> r == Ok(()) && base.store == Indexed(old(base.store), actions))
    {
      var table := CollectFirms(api);
      var frns := SliceTo(Frns(table), limit);
      var firms := ProcessFirms(api, frns);
      FirmActionsBuild(writer, firms);
      r := base.StoreInElastic(writer, FirmDocs(firms));
    }
  }
}
