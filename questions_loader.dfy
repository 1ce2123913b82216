/** ElasticParliamentaryQuestionLoader of fca_mcp/data_loaders.py: written
    questions tabled or answered in a date range, fetched page by page,
    each question stored once, and a truncated question replaced by its
    full texts. */
module QuestionsLoader {
  import opened Wrappers
  import opened PyBuiltins
  import opened PyJson
  import opened Models
  import opened LoaderCore

  const PqsBaseUrl := "https://questions-statements-api.parliament.uk/api"

  /** `ParliamentaryQuestion(**value)`, done by pydantic. */
  type BuildQuestion = Json -> Result<Question, PyError>

  /** `ParliamentaryQuestionsResponse.model_validate(page)`, done by pydantic. */
  type ValidateQuestions = Json -> Result<QuestionsPage, PyError>

  // ---------------------------------------------------------------------
  // enrich_question
  // ---------------------------------------------------------------------

  function QuestionRequest(q: Question): Request {
    Request(PqsBaseUrl + "/writtenquestions/questions/" + IntToString(q.id), [Field("expandMember", JStr("true"))], [])
  }

  /** The full version of a question, fetched by its id. */
  function FullQuestion(http: Http, build: BuildQuestion, q: Question): Result<Question, PyError> {
    var data :- http(QuestionRequest(q));
    var value :- PyIndexKey(data, "value");
    if !value.JObj? then Err(TypeError) else build(value)
  }

  /** enrich_question: the question with the texts of its full version, or
      unchanged when fetching or building the full version raises. */
  function EnrichQuestion(http: Http, build: BuildQuestion, q: Question): (r: Question)
    ensures r.id == q.id && r.details == q.details
    ensures FullQuestion(http, build, q).Err? ==> r == q
    ensures FullQuestion(http, build, q).Ok? ==>
      r.questionText == FullQuestion(http, build, q).value.questionText
      && r.answerText == FullQuestion(http, build, q).value.answerText
  {
    match FullQuestion(http, build, q)
    case Ok(full) => q.(questionText := full.questionText, answerText := full.answerText)
    case Err(_) => q
  }

  // ---------------------------------------------------------------------
  // process_page
  // ---------------------------------------------------------------------

  /** The questions a page stores, and the ids seen once it has run. */
  datatype Selection = Selection(selected: seq<Question>, seen: set<int>)

  /** The question as stored: enriched when truncated. */
  function Stored(http: Http, build: BuildQuestion, q: Question): Question {
    if IsTruncated(q) then EnrichQuestion(http, build, q) else q
  }

  /** The loop over a page's questions: an id already seen is skipped,
      otherwise it is marked seen and the question kept. */
  function SelectNew(http: Http, build: BuildQuestion, seen: set<int>, qs: seq<Question>): (r: Selection)
    ensures seen <= r.seen
    ensures |r.selected| <= |qs|
    ensures forall x :: x in r.selected ==> x.id !in seen
  {
    if qs == [] then Selection([], seen)
    else
      var prev := SelectNew(http, build, seen, qs[..|qs| - 1]);
      var q := qs[|qs| - 1];
      if q.id in prev.seen then prev
      else Selection(prev.selected + [Stored(http, build, q)], prev.seen + {q.id})
  }

  function Ids(qs: seq<Question>): set<int> {
    set q | q in qs :: q.id
  }

  /** Position `i` of the page holds the first question with its id, and
      that id was not seen before the page. */
  predicate FirstNew(seen: set<int>, qs: seq<Question>, i: int)
    requires 0 <= i < |qs|
  {
    qs[i].id !in seen && forall j :: 0 <= j < i ==> qs[j].id != qs[i].id
  }

  /** The questions at the page's first-new positions, as stored, in page
      order. */
  function FirstNewStored(http: Http, build: BuildQuestion, seen: set<int>, qs: seq<Question>): (r: seq<Question>)
    ensures |r| <= |qs|
  {
    if qs == [] then []
    else
      FirstNewStored(http, build, seen, qs[..|qs| - 1])
      + (if FirstNew(seen, qs, |qs| - 1) then [Stored(http, build, qs[|qs| - 1])] else [])
  }

  /** A page keeps the first question of each id it has not seen before, in
      page order, and marks every id of the page as seen. */
  lemma SelectNewSpec(http: Http, build: BuildQuestion, seen: set<int>, qs: seq<Question>)
    ensures var sel := SelectNew(http, build, seen, qs);
      && sel.selected == FirstNewStored(http, build, seen, qs)
      && sel.seen == seen + Ids(qs)
      && (forall i, j :: 0 <= i < j < |sel.selected| ==> sel.selected[i].id != sel.selected[j].id)
      && (forall x :: x in sel.selected ==> x.id !in seen)
      && Ids(sel.selected) == Ids(qs) - seen
      && (forall x :: x in sel.selected ==> exists q :: q in qs && x == Stored(http, build, q))
  {
    SelectNewSeen(http, build, seen, qs);
    SelectNewIds(http, build, seen, qs);
    SelectNewFresh(http, build, seen, qs);
    SelectNewStored(http, build, seen, qs);
    SelectNewFirsts(http, build, seen, qs);
  }

  /** The kept questions are the first-new ones, in page order. */
  lemma {:induction false} SelectNewFirsts(http: Http, build: BuildQuestion, seen: set<int>, qs: seq<Question>)
    ensures SelectNew(http, build, seen, qs).selected == FirstNewStored(http, build, seen, qs)
  {
    if qs != [] {
      var init := qs[..|qs| - 1];
      var q := qs[|qs| - 1];
      SelectNewFirsts(http, build, seen, init);
      SelectNewSeen(http, build, seen, init);
      var prev := SelectNew(http, build, seen, init);
      if q.id in prev.seen && q.id !in seen {
        var x :| x in init && x.id == q.id;
        var j :| 0 <= j < |init| && init[j] == x;
        assert qs[j].id == q.id;
      }
      if q.id !in prev.seen {
        forall j | 0 <= j < |qs| - 1 ensures qs[j].id != q.id {
          assert qs[j] == init[j];
          assert init[j].id in Ids(init);
        }
      }
    }
  }

  /** Every id of the page ends up seen. */
  lemma {:induction false} SelectNewSeen(http: Http, build: BuildQuestion, seen: set<int>, qs: seq<Question>)
    ensures SelectNew(http, build, seen, qs).seen == seen + Ids(qs)
  {
    if qs != [] {
      var init := qs[..|qs| - 1];
      var q := qs[|qs| - 1];
      SelectNewSeen(http, build, seen, init);
      assert qs == init + [q];
      assert Ids(qs) == Ids(init) + {q.id};
    }
  }

  /** The kept questions carry exactly the ids of the page that had not
      been seen. */
  lemma {:induction false} SelectNewIds(http: Http, build: BuildQuestion, seen: set<int>, qs: seq<Question>)
    ensures Ids(SelectNew(http, build, seen, qs).selected) == Ids(qs) - seen
  {
    if qs != [] {
      var init := qs[..|qs| - 1];
      var q := qs[|qs| - 1];
      SelectNewIds(http, build, seen, init);
      SelectNewSeen(http, build, seen, init);
      var prev := SelectNew(http, build, seen, init);
      assert qs == init + [q];
      assert Ids(qs) == Ids(init) + {q.id};
      if q.id !in prev.seen {
        var s := Stored(http, build, q);
        assert s.id == q.id;
        assert Ids(prev.selected + [s]) == Ids(prev.selected) + {s.id};
      }
    }
  }

  /** The kept questions have distinct ids, none seen before the page. */
  lemma {:induction false} SelectNewFresh(http: Http, build: BuildQuestion, seen: set<int>, qs: seq<Question>)
    ensures var sel := SelectNew(http, build, seen, qs);
      && (forall i, j :: 0 <= i < j < |sel.selected| ==> sel.selected[i].id != sel.selected[j].id)
      && (forall x :: x in sel.selected ==> x.id !in seen)
  {
    if qs != [] {
      var init := qs[..|qs| - 1];
      var q := qs[|qs| - 1];
      SelectNewFresh(http, build, seen, init);
      var prev := SelectNew(http, build, seen, init);
      if q.id !in prev.seen {
        SelectNewIds(http, build, seen, init);
        SelectNewSeen(http, build, seen, init);
        var s := Stored(http, build, q);
        assert s.id == q.id;
        forall i | 0 <= i < |prev.selected|
          ensures prev.selected[i].id != s.id
        {
          assert prev.selected[i].id in Ids(prev.selected);
        }
      }
    }
  }

  /** Each kept question is one of the page's, as stored. */
  lemma {:induction false} SelectNewStored(http: Http, build: BuildQuestion, seen: set<int>, qs: seq<Question>)
    ensures forall x :: x in SelectNew(http, build, seen, qs).selected ==> exists q :: q in qs && x == Stored(http, build, q)
  {
    if qs != [] {
      var init := qs[..|qs| - 1];
      var q := qs[|qs| - 1];
      SelectNewStored(http, build, seen, init);
      var prev := SelectNew(http, build, seen, init);
      if q.id !in prev.seen {
        var s := Stored(http, build, q);
        forall x | x in prev.selected + [s]
          ensures exists q' :: q' in qs && x == Stored(http, build, q')
        {
          if x != s {
            var q' :| q' in init && x == Stored(http, build, q');
            assert q' in qs;
          } else {
            assert q in qs;
          }
        }
      }
    }
  }

  function QuestionDocs(qs: seq<Question>): (docs: seq<Document>)
    ensures |docs| == |qs|
    ensures forall i :: 0 <= i < |qs| ==> docs[i] == QuestionDoc(qs[i])
  {
    seq(|qs|, i requires 0 <= i < |qs| => QuestionDoc(qs[i]))
  }

  /** The index and the seen ids, shared by every page of a run. */
  datatype LoadState = LoadState(store: map<string, Json>, seen: set<int>)

  const QuestionsUrl := PqsBaseUrl + "/writtenquestions/questions"

  /** One page: a page that fails to arrive or validate changes nothing;
      once its questions are selected their ids stay seen even when the
      store then raises. */
  function PageState(st: LoadState, http: Http, validate: ValidateQuestions, build: BuildQuestion, writer: Writer,
                     params: seq<Field>): (r: LoadState)
    ensures http(Request(QuestionsUrl, params, [])).Err? ==> r == st
    ensures st.seen <= r.seen
  {
    match http(Request(QuestionsUrl, params, []))
    case Err(_) => st
    case Ok(page) =>
      match validate(page)
      case Err(_) => st
      case Ok(response) =>
        var sel := SelectNew(http, build, st.seen, PageQuestions(response));
        match Actions(writer, QuestionDocs(sel.selected))
        case Err(_) => LoadState(st.store, sel.seen)
        case Ok(actions) =>
          if writer.bulk(actions).Err? then LoadState(st.store, sel.seen)
          else LoadState(Indexed(st.store, actions), sel.seen)
  }

  function PagesState(st: LoadState, http: Http, validate: ValidateQuestions, build: BuildQuestion, writer: Writer,
                      params: seq<Field>, skips: seq<int>): LoadState
  {
    if skips == [] then st
    else PageState(PagesState(st, http, validate, build, writer, params, skips[..|skips| - 1]),
                   http, validate, build, writer, Merge(params, [Field("skip", JInt(skips[|skips| - 1]))]))
  }

  /** The ids seen only grow from page to page: an id, once seen, stays
      seen for every later page of the run. */
  lemma {:induction false} PagesStateSeenGrows(st: LoadState, http: Http, validate: ValidateQuestions, build: BuildQuestion,
                                               writer: Writer, params: seq<Field>, skips: seq<int>)
    ensures st.seen <= PagesState(st, http, validate, build, writer, params, skips).seen
  {
    if skips != [] {
      var mid := PagesState(st, http, validate, build, writer, params, skips[..|skips| - 1]);
      PagesStateSeenGrows(st, http, validate, build, writer, params, skips[..|skips| - 1]);
      var pageParams := Merge(params, [Field("skip", JInt(skips[|skips| - 1]))]);
      var page := http(Request(QuestionsUrl, pageParams, []));
      if page.Ok? && validate(page.value).Ok? {
        SelectNewSpec(http, build, mid.seen, PageQuestions(validate(page.value).value));
      }
    }
  }

  /** The parameters of the two passes: by tabling date, then by answer date. */
  function PassParams(fromKey: string, toKey: string, fromDate: string, toDate: string, pageSize: int): seq<Field> {
    [Field(fromKey, JStr(fromDate)), Field(toKey, JStr(toDate)), Field("expandMember", JStr("true")),
     Field("take", JInt(pageSize))]
  }

  /** One pass: count, then every page of `pageSize`, in order. */
  function PassState(st: LoadState, http: Http, validate: ValidateQuestions, build: BuildQuestion, writer: Writer,
                     params: seq<Field>, pageSize: int): Result<LoadState, PyError>
  {
    var total :- GetTotalResults(http, QuestionsUrl, params, "totalResults");
    var n :- AsInt(total);
    var skips :- PyRange(0, n, pageSize);
    Ok(PagesState(st, http, validate, build, writer, params, skips))
  }

  /** load_questions_for_date_range: the tabled pass, then the answered
      pass, sharing the seen ids; a pass whose count raises ends the run. */
  function RunState(store: map<string, Json>, http: Http, validate: ValidateQuestions, build: BuildQuestion,
                    writer: Writer, fromDate: string, toDate: string, pageSize: int): Outcome
  {
    var start := LoadState(store, {});
    match PassState(start, http, validate, build, writer, PassParams("tabledWhenFrom", "tabledWhenTo", fromDate, toDate, pageSize), pageSize)
    case Err(e) => Outcome(store, Err(e))
    case Ok(tabled) =>
      match PassState(tabled, http, validate, build, writer, PassParams("answeredWhenFrom", "answeredWhenTo", fromDate, toDate, pageSize), pageSize)
      case Err(e) => Outcome(tabled.store, Err(e))
      case Ok(answered) => Outcome(answered.store, Ok(()))
  }

  /** ElasticParliamentaryQuestionLoader: pages of `pageSize` questions
      stored into `base`'s index. */
  class ElasticParliamentaryQuestionLoader {
    const pageSize: int
    const base: ElasticDataLoader

    /** The source's default page size is 50. */
    constructor (pageSize: int, base: ElasticDataLoader)
      ensures this.pageSize == pageSize && this.base == base
    {
      this.pageSize := pageSize;
      this.base := base;
    }

    /** The selection loop of process_page. */
    method SelectQuestions(http: Http, build: BuildQuestion, seen: set<int>, qs: seq<Question>)
      returns (valid: seq<Question>, seenAfter: set<int>)
      ensures Selection(valid, seenAfter) == SelectNew(http, build, seen, qs)
    {
      valid := [];
      seenAfter := seen;
      var i := 0;
      while i < |qs|
        invariant 0 <= i <= |qs|
        invariant Selection(valid, seenAfter) == SelectNew(http, build, seen, qs[..i])
      {
        assert qs[..i + 1][..i] == qs[..i];
        var q := qs[i];
        i := i + 1;
        if q.id in seenAfter {
          continue;
        }
        seenAfter := seenAfter + {q.id};
        if IsTruncated(q) {
          var enriched := EnrichQuestion(http, build, q);
          valid := valid + [enriched];
        } else {
          valid := valid + [q];
        }
      }
      assert qs[..|qs|] == qs;
    }

    /** process_page */
    method ProcessPage(http: Http, validate: ValidateQuestions, build: BuildQuestion, writer: Writer,
                       params: seq<Field>, seen: set<int>)
      returns (seenAfter: set<int>)
      modifies base
      ensures LoadState(base.store, seenAfter) == PageState(LoadState(old(base.store), seen), http, validate, build, writer, params)
    {
      seenAfter := seen;
      var page := http(Request(QuestionsUrl, params, []));
      if page.Err? {
        return;
      }
      var response := validate(page.value);
      if response.Err? {
        return;
      }
      var valid;
      valid, seenAfter := SelectQuestions(http, build, seen, PageQuestions(response.value));
      var stored := base.StoreInElastic(writer, QuestionDocs(valid));
    }

    /** One pass of load_questions_for_date_range. */
    method LoadPass(http: Http, validate: ValidateQuestions, build: BuildQuestion, writer: Writer,
                    params: seq<Field>, seen: set<int>)
      returns (r: Result<set<int>, PyError>)
      modifies base
      ensures var expected := PassState(LoadState(old(base.store), seen), http, validate, build, writer, params, pageSize);
        && (expected.Err? ==> r == Err(expected.error) && base.store == old(base.store))
        && (expected.Ok? ==> r.Ok? && LoadState(base.store, r.value) == expected.value)
    {
      var total := GetTotalResults(http, QuestionsUrl, params, "totalResults");
      if total.Err? {
        return Err(total.error);
      }
      var n := AsInt(total.value);
      if n.Err? {
        return Err(n.error);
      }
      var skips := PyRange(0, n.value, pageSize);
      if skips.Err? {
        return Err(skips.error);
      }
      var seenNow := LoadPages(http, validate, build, writer, params, seen, skips.value);
      r := Ok(seenNow);
    }

    /** The page loop of one pass: one page per offset, the seen ids carried
        from page to page. */
    method LoadPages(http: Http, validate: ValidateQuestions, build: BuildQuestion, writer: Writer,
                     params: seq<Field>, seen: set<int>, skips: seq<int>)
      returns (seenNow: set<int>)
      modifies base
      ensures LoadState(base.store, seenNow)
           == PagesState(LoadState(old(base.store), seen), http, validate, build, writer, params, skips)
    {
      seenNow := seen;
      for k := 0 to |skips|
        invariant LoadState(base.store, seenNow)
               == PagesState(LoadState(old(base.store), seen), http, validate, build, writer, params, skips[..k])
      {
        assert skips[..k + 1][..k] == skips[..k];
        seenNow := ProcessPage(http, validate, build, writer, Merge(params, [Field("skip", JInt(skips[k]))]), seenNow);
      }
      assert skips[..|skips|] == skips;
    }

    /** load_questions_for_date_range */
    method LoadQuestionsForDateRange(http: Http, validate: ValidateQuestions, build: BuildQuestion, writer: Writer,
                                     fromDate: string, toDate: string)
      returns (r: Result<(), PyError>)
      modifies base
      ensures var expected := RunState(old(base.store), http, validate, build, writer, fromDate, toDate, pageSize);
        r == expected.result && base.store == expected.store
    {
      var tabled := LoadPass(http, validate, build, writer,
                             PassParams("tabledWhenFrom", "tabledWhenTo", fromDate, toDate, pageSize), {});
      if tabled.Err? {
        return Err(tabled.error);
      }
      var answered := LoadPass(http, validate, build, writer,
                               PassParams("answeredWhenFrom", "answeredWhenTo", fromDate, toDate, pageSize), tabled.value);
      if answered.Err? {
        return Err(answered.error);
      }
      r := Ok(());
    }
  }
}
