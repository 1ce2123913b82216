/** The document models stored in Elasticsearch (fca_mcp/models.py, whose
    first 267 lines are also parliament_mcp/models.py): their validated
    fields, the URLs and document URIs computed from them, and what
    `model_dump` adds for those computed fields. */
module Models {
  import opened Wrappers
  import opened PyBuiltins
  import opened PyJson

  // ---------------------------------------------------------------------
  // Dates
  // ---------------------------------------------------------------------

  /** A validated datetime; only the calendar date is ever formatted here,
      the time of day is carried along unread. */
  datatype DateTime = DateTime(year: nat, month: nat, day: nat, timeOfDay: nat)

  /** `f"{d:%Y-%m-%d}"` and `d.strftime("%Y-%m-%d")`. */
  function DateStamp(d: DateTime): string {
    ZeroPad(d.year, 4) + "-" + ZeroPad(d.month, 2) + "-" + ZeroPad(d.day, 2)
  }

  /** A calendar date of the common era is always ten characters with its
      dashes at positions 4 and 7. */
  lemma DateStampShape(d: DateTime)
    requires 1 <= d.year <= 9999 && 1 <= d.month <= 12 && 1 <= d.day <= 31
    ensures |DateStamp(d)| == 10
    ensures DateStamp(d)[4] == '-' && DateStamp(d)[7] == '-'
  {
    NatToStringDigits(d.year);
    NatToStringDigits(d.month);
    NatToStringDigits(d.day);
    var y, m, dd := ZeroPad(d.year, 4), ZeroPad(d.month, 2), ZeroPad(d.day, 2);
    assert |y| == 4 && |m| == 2 && |dd| == 2;
    var stamp := y + "-" + m + "-" + dd;
    assert DateStamp(d) == stamp;
    assert stamp[4] == '-' && stamp[7] == '-';
  }

  /** A number below `10^k` has at most `k` digits (for k up to 4). */
  lemma NatToStringDigits(n: nat)
    requires n < 10000
    ensures n < 10 ==> |NatToString(n)| == 1
    ensures n < 100 ==> |NatToString(n)| <= 2
    ensures |NatToString(n)| <= 4
  {
    if n >= 10 {
      NatToStringDigits(n / 10);
    }
  }

  /** What a `mode="before"` datetime validator hands on to pydantic. */
  datatype DateTimeInput = ParsedDate(d: DateTime) | Unparsed(raw: Json)

  /** The ISO text given to `datetime.fromisoformat`: a trailing UTC
      designator `Z` is rewritten as the offset `+00:00`. */
  function ZuluToOffset(s: string): string {
    ReplaceAll(s, "Z", "+00:00")
  }

  /** GroupedQuestionDate.parse_datetime: strings are parsed by the given
      `fromisoformat`; any other value is passed through untouched. */
  function ParseDateTime(fromIsoFormat: string -> Result<DateTime, PyError>, value: Json): (r: Result<DateTimeInput, PyError>)
    ensures !value.JStr? ==> r == Ok(Unparsed(value))
    ensures value.JStr? && fromIsoFormat(ZuluToOffset(value.s)).Err? ==> r == Err(fromIsoFormat(ZuluToOffset(value.s)).error)
    ensures value.JStr? && fromIsoFormat(ZuluToOffset(value.s)).Ok? ==> r == Ok(ParsedDate(fromIsoFormat(ZuluToOffset(value.s)).value))
  {
    if value.JStr? then
      var d :- fromIsoFormat(ZuluToOffset(value.s));
      Ok(ParsedDate(d))
    else Ok(Unparsed(value))
  }

  /** The parser never sees a `Z`. */
  lemma ZuluToOffsetHasNoZ(s: string)
    ensures 'Z' !in ZuluToOffset(s)
  {
    ReplaceAllRemovesChar(s, 'Z', "+00:00");
  }

  /** Text without a `Z` reaches the parser unchanged. */
  lemma ZuluToOffsetKeepsPlainText(s: string)
    requires 'Z' !in s
    ensures ZuluToOffset(s) == s
  {
    assert !Contains(s, "Z") by {
      forall i | 0 <= i <= |s| ensures !OccursAt(s, "Z", i) {
        if i + 1 <= |s| {
          assert s[i..i + 1] == [s[i]];
        }
      }
    }
    ReplaceAllAbsent(s, "Z", "+00:00");
  }

  // ---------------------------------------------------------------------
  // f-string rendering of optional fields
  // ---------------------------------------------------------------------

  /** `f"{x}"` for an optional string. */
  function OptText(x: Option<string>): string {
    if x.Some? then x.value else "None"
  }

  /** `f"{x}"` for an optional integer. */
  function OptIntText(x: Option<int>): string {
    if x.Some? then IntToString(x.value) else "None"
  }

  // ---------------------------------------------------------------------
  // Debate hierarchy
  // ---------------------------------------------------------------------

  /** One section of the Hansard debate hierarchy. */
  datatype DebateParent = DebateParent(Id: int, Title: string, ParentId: Option<int>, ExternalId: string)

  /** `DebateParent.model_validate(j)`: a dict with an integer `Id`, a string
      `Title`, a `ParentId` that is an integer or None (but present), and a
      string `ExternalId`; other keys are ignored. */
  function ValidateDebateParent(j: Json): (r: Result<DebateParent, PyError>)
    ensures r.Ok? ==> j.JObj?
    ensures r.Ok? ==> Lookup(j.fields, "Id") == Some(JInt(r.value.Id))
    ensures r.Ok? ==> Lookup(j.fields, "Title") == Some(JStr(r.value.Title))
    ensures r.Ok? ==> Lookup(j.fields, "ExternalId") == Some(JStr(r.value.ExternalId))
    ensures r.Ok? ==> Lookup(j.fields, "ParentId") == Some(if r.value.ParentId.Some? then JInt(r.value.ParentId.value) else JNull)
    ensures r.Err? ==> r.error == ValidationError
  {
    if !j.JObj? then Err(ValidationError)
    else
      var id := Lookup(j.fields, "Id");
      var title := Lookup(j.fields, "Title");
      var parent := Lookup(j.fields, "ParentId");
      var ext := Lookup(j.fields, "ExternalId");
      if id.Some? && id.value.JInt? && title.Some? && title.value.JStr? && ext.Some? && ext.value.JStr?
         && parent.Some? && (parent.value.JInt? || parent.value.JNull?)
      then
        Ok(DebateParent(id.value.i, title.value.s,
                        if parent.value.JInt? then Some(parent.value.i) else None, ext.value.s))
      else Err(ValidationError)
  }

  /** A well-typed section always validates. */
  lemma ValidateDebateParentComplete(fields: seq<Field>, p: DebateParent)
    requires Lookup(fields, "Id") == Some(JInt(p.Id))
    requires Lookup(fields, "Title") == Some(JStr(p.Title))
    requires Lookup(fields, "ExternalId") == Some(JStr(p.ExternalId))
    requires Lookup(fields, "ParentId") == Some(if p.ParentId.Some? then JInt(p.ParentId.value) else JNull)
    ensures ValidateDebateParent(JObj(fields)) == Ok(p)
  {
  }

  // ---------------------------------------------------------------------
  // Hansard contributions
  // ---------------------------------------------------------------------

  /** A validated Hansard contribution. */
  datatype Contribution = Contribution(
    MemberName: Option<string>,
    MemberId: Option<int>,
    AttributedTo: Option<string>,
    ItemId: Option<int>,
    ContributionExtId: Option<string>,
    ContributionText: Option<string>,
    ContributionTextFull: Option<string>,
    HRSTag: Option<string>,
    HansardSection: Option<string>,
    DebateSection: Option<string>,
    DebateSectionId: Option<int>,
    DebateSectionExtId: Option<string>,
    SittingDate: Option<DateTime>,
    Section: Option<string>,
    House: Option<string>,
    OrderInDebateSection: Option<int>,
    DebateSectionOrder: Option<int>,
    Rank: Option<int>,
    Timecode: Option<DateTime>,
    debate_parents: Option<seq<DebateParent>>)

  const HansardSite := "https://hansard.parliament.uk/"

  /** Contribution.debate_url; formatting a missing sitting date raises. */
  function DebateUrl(c: Contribution): (r: Result<string, PyError>)
    ensures r.Ok? <==> c.SittingDate.Some?
    ensures r.Err? ==> r.error == TypeError
  {
    if c.SittingDate.None? then Err(TypeError)
    else Ok(HansardSite + OptText(c.House) + "/" + DateStamp(c.SittingDate.value)
            + "/debates/" + OptText(c.DebateSectionExtId) + "/link")
  }

  /** Contribution.contribution_url: None without an external id, else the
      debate URL with a `#contribution-` fragment. */
  function ContributionUrl(c: Contribution): (r: Result<Option<string>, PyError>)
    ensures c.ContributionExtId.None? ==> r == Ok(None)
    ensures c.ContributionExtId.Some? ==> (r.Err? <==> c.SittingDate.None?)
    ensures r.Ok? && r.value.Some? ==> c.ContributionExtId.Some? && |r.value.value| > |HansardSite|
  {
    if c.ContributionExtId.None? then Ok(None)
    else
      var debate :- DebateUrl(c);
      Ok(Some(debate + "#contribution-" + c.ContributionExtId.value))
  }

  /** A concatenation starts with its first part and ends with its second. */
  lemma ConcatEnds(p: string, t: string)
    ensures StartsWith(p + t, p) && EndsWith(p + t, t)
  {
    assert (p + t)[..|p|] == p;
    assert (p + t)[|p + t| - |t|..] == t;
  }

  /** The debate URL names the house, the sitting date and the debate, in
      that order after the Hansard site. */
  lemma DebateUrlShape(c: Contribution)
    requires c.SittingDate.Some?
    ensures DebateUrl(c) == Ok(HansardSite + OptText(c.House) + "/" + DateStamp(c.SittingDate.value)
                               + "/debates/" + OptText(c.DebateSectionExtId) + "/link")
    ensures StartsWith(DebateUrl(c).value, HansardSite + OptText(c.House) + "/" + DateStamp(c.SittingDate.value))
    ensures EndsWith(DebateUrl(c).value, "/debates/" + OptText(c.DebateSectionExtId) + "/link")
  {
    var p := HansardSite + OptText(c.House) + "/" + DateStamp(c.SittingDate.value);
    var t := "/debates/" + OptText(c.DebateSectionExtId) + "/link";
    assert DebateUrl(c).value == p + t;
    ConcatEnds(p, t);
  }

  /** The contribution URL exists exactly for contributions with an external
      id, fails only where the debate URL fails, and points into the debate
      page at that contribution. */
  lemma ContributionUrlSpec(c: Contribution)
    ensures c.ContributionExtId.None? ==> ContributionUrl(c) == Ok(None)
    ensures c.ContributionExtId.Some? ==> (ContributionUrl(c).Err? <==> DebateUrl(c).Err?)
    ensures ContributionUrl(c).Ok? && ContributionUrl(c).value.Some? ==>
      StartsWith(ContributionUrl(c).value.value, DebateUrl(c).value)
      && EndsWith(ContributionUrl(c).value.value, "#contribution-" + c.ContributionExtId.value)
    ensures c.ContributionExtId.Some? && DebateUrl(c).Ok? ==>
      ContributionUrl(c) == Ok(Some(DebateUrl(c).value + "#contribution-" + c.ContributionExtId.value))
  {
    if c.ContributionExtId.Some? && DebateUrl(c).Ok? {
      var d := DebateUrl(c).value;
      var t := "#contribution-" + c.ContributionExtId.value;
      assert d + "#contribution-" + c.ContributionExtId.value == d + t;
      ConcatEnds(d, t);
    }
  }

  /** The text hashed for a contribution without an external id. */
  function ContributionHashInput(c: Contribution): string {
    OptText(c.DebateSectionExtId) + "_" + OptText(c.ContributionText) + "_" + OptIntText(c.OrderInDebateSection)
  }

  const ContribPrefix := "debate_"
  const ContribInfix := "_contrib_"

  /** Contribution.document_uri, with `sha256` the hex digest of a text. */
  function ContributionUri(sha256: string -> string, c: Contribution): (r: string)
    ensures StartsWith(r, ContribPrefix + OptText(c.DebateSectionExtId) + ContribInfix)
    ensures c.ContributionExtId.Some? ==> EndsWith(r, c.ContributionExtId.value)
    ensures c.ContributionExtId.None? ==> EndsWith(r, sha256(ContributionHashInput(c)))
    ensures r[|ContribPrefix + OptText(c.DebateSectionExtId) + ContribInfix|..]
         == if c.ContributionExtId.Some? then c.ContributionExtId.value else sha256(ContributionHashInput(c))
  {
    var tail := if c.ContributionExtId.None? then sha256(ContributionHashInput(c)) else c.ContributionExtId.value;
    ContribPrefix + OptText(c.DebateSectionExtId) + ContribInfix + tail
  }

  /** In one debate, distinct external ids give distinct URIs. */
  lemma ContributionUriSeparatesExtIds(sha256: string -> string, a: Contribution, b: Contribution)
    requires a.DebateSectionExtId == b.DebateSectionExtId
    requires a.ContributionExtId.Some? && b.ContributionExtId.Some?
    requires ContributionUri(sha256, a) == ContributionUri(sha256, b)
    ensures a.ContributionExtId == b.ContributionExtId
  {
    var p := ContribPrefix + OptText(a.DebateSectionExtId) + ContribInfix;
    assert ContributionUri(sha256, a) == p + a.ContributionExtId.value;
    assert ContributionUri(sha256, b) == p + b.ContributionExtId.value;
    assert a.ContributionExtId.value == ContributionUri(sha256, a)[|p|..];
  }

  /** Without external ids, contributions to one debate at one position that
      differ in their text get different URIs, given a hash without
      collisions. */
  lemma ContributionUriSeparatesTexts(sha256: string -> string, a: Contribution, b: Contribution)
    requires forall x, y :: sha256(x) == sha256(y) ==> x == y
    requires a.ContributionExtId.None? && b.ContributionExtId.None?
    requires a.DebateSectionExtId == b.DebateSectionExtId
    requires a.OrderInDebateSection == b.OrderInDebateSection
    requires OptText(a.ContributionText) != OptText(b.ContributionText)
    ensures ContributionUri(sha256, a) != ContributionUri(sha256, b)
  {
    HashInputSeparatesTexts(a, b);
    var p := ContribPrefix + OptText(a.DebateSectionExtId) + ContribInfix;
    assert ContributionUri(sha256, a) == p + sha256(ContributionHashInput(a));
    assert ContributionUri(sha256, b) == p + sha256(ContributionHashInput(b));
    assert sha256(ContributionHashInput(a)) == ContributionUri(sha256, a)[|p|..];
    assert sha256(ContributionHashInput(b)) == ContributionUri(sha256, b)[|p|..];
  }

  /** The hashed texts of contributions to one debate at one position differ
      when their texts do. */
  lemma HashInputSeparatesTexts(a: Contribution, b: Contribution)
    requires a.DebateSectionExtId == b.DebateSectionExtId
    requires a.OrderInDebateSection == b.OrderInDebateSection
    requires OptText(a.ContributionText) != OptText(b.ContributionText)
    ensures ContributionHashInput(a) != ContributionHashInput(b)
  {
    var d, o := OptText(a.DebateSectionExtId), OptIntText(a.OrderInDebateSection);
    var ta, tb := OptText(a.ContributionText), OptText(b.ContributionText);
    var ha, hb := ContributionHashInput(a), ContributionHashInput(b);
    assert ha == d + "_" + ta + "_" + o;
    assert hb == d + "_" + tb + "_" + o;
    if ha == hb {
      MiddleDetermined(d, ta, tb, o);
    }
  }

  /** Two joins `d_t_o` with the same ends agree in the middle. */
  lemma MiddleDetermined(d: string, ta: string, tb: string, o: string)
    requires d + "_" + ta + "_" + o == d + "_" + tb + "_" + o
    ensures ta == tb
  {
    var h := d + "_" + ta + "_" + o;
    assert |ta| == |tb|;
    assert h[|d| + 1..|d| + 1 + |ta|] == ta;
    assert (d + "_" + tb + "_" + o)[|d| + 1..|d| + 1 + |tb|] == tb;
  }

  /** The hashed text renders a missing text as `None`, so a contribution
      whose text is missing and one whose text is the word "None" share
      a URI. */
  lemma ContributionUriNoneTextCollision(sha256: string -> string, a: Contribution)
    requires a.ContributionExtId.None? && a.ContributionText.None?
    ensures ContributionUri(sha256, a) == ContributionUri(sha256, a.(ContributionText := Some("None")))
    ensures a != a.(ContributionText := Some("None"))
  {
  }

  /** The URI of the model test with an external id: it is used verbatim. */
  lemma ContributionUriExampleExtId(sha256: string -> string, c: Contribution)
    requires c.DebateSectionExtId == Some("debate-123") && c.ContributionExtId == Some("contrib-456")
    ensures ContributionUri(sha256, c) == "debate_debate-123_contrib_contrib-456"
  {
    assert ContributionUri(sha256, c) == "debate_" + "debate-123" + "_contrib_" + "contrib-456";
  }

  /** The model test without an external id: the digest follows the debate
      prefix, so the URI is longer than the prefix. */
  lemma ContributionUriExampleHashed(sha256: string -> string, c: Contribution)
    requires forall s :: |sha256(s)| == 64
    requires c.DebateSectionExtId == Some("debate-789") && c.ContributionExtId.None?
    ensures StartsWith(ContributionUri(sha256, c), "debate_debate-789_contrib_")
    ensures |ContributionUri(sha256, c)| > |"debate_debate-789_contrib_"|
  {
    var h := sha256(ContributionHashInput(c));
    assert "debate_" + "debate-789" + "_contrib_" == "debate_debate-789_contrib_";
    assert ContributionUri(sha256, c) == "debate_debate-789_contrib_" + h;
    ConcatEnds("debate_debate-789_contrib_", h);
  }

  // ---------------------------------------------------------------------
  // Parliamentary questions
  // ---------------------------------------------------------------------

  /** A validated written question. `details` carries the remaining
      validated fields, which nothing here reads. */
  datatype Question = Question(id: int, questionText: Option<string>, answerText: Option<string>, details: Json)

  /** One item of a questions page: `value` holds the question. */
  datatype QuestionItem = QuestionItem(value: Question, links: seq<Json>)

  datatype QuestionsPage = QuestionsPage(results: seq<QuestionItem>, totalResults: int)

  /** ParliamentaryQuestion.document_uri */
  function QuestionUri(q: Question): (r: string)
    ensures StartsWith(r, "pq_") && r[3..] == IntToString(q.id)
  {
    "pq_" + IntToString(q.id)
  }

  /** Questions with different ids are stored under different URIs. */
  lemma QuestionUriInjective(a: Question, b: Question)
    requires QuestionUri(a) == QuestionUri(b)
    ensures a.id == b.id
  {
    assert IntToString(a.id) == QuestionUri(a)[3..];
    assert IntToString(b.id) == QuestionUri(b)[3..];
    IntToStringInjective(a.id, b.id);
  }

  /** ParliamentaryQuestion.is_truncated: a present question or answer text
      that ends in an ellipsis. */
  predicate IsTruncated(q: Question) {
    (q.questionText.Some? && EndsWith(q.questionText.value, "..."))
    || (q.answerText.Some? && EndsWith(q.answerText.value, "..."))
  }

  /** A question none of whose present texts ends in an ellipsis is not
      truncated. */
  lemma NoEllipsisNotTruncated(q: Question)
    requires q.questionText.None? || !EndsWith(q.questionText.value, "...")
    requires q.answerText.None? || !EndsWith(q.answerText.value, "...")
    ensures !IsTruncated(q)
  {
  }

  /** A question or answer text that ends in an ellipsis marks the question
      as truncated, whatever the other text is. */
  lemma EllipsisTruncated(q: Question, t: string)
    requires q.questionText == Some(t + "...") || q.answerText == Some(t + "...")
    ensures IsTruncated(q)
  {
    ConcatEnds(t, "...");
  }

  /** ParliamentaryQuestionsResponse.questions */
  function PageQuestions(page: QuestionsPage): (qs: seq<Question>)
    ensures |qs| == |page.results|
    ensures forall i :: 0 <= i < |qs| ==> qs[i] == page.results[i].value
  {
    ItemValues(page.results)
  }

  function ItemValues(items: seq<QuestionItem>): (qs: seq<Question>)
    ensures |qs| == |items|
    ensures forall i :: 0 <= i < |qs| ==> qs[i] == items[i].value
  {
    if items == [] then [] else [items[0].value] + ItemValues(items[1..])
  }

  // ---------------------------------------------------------------------
  // FCA documents
  // ---------------------------------------------------------------------

  /** An FCA Handbook section; `details` carries the other validated fields. */
  datatype HandbookSection = HandbookSection(section_id: string, details: Json)

  const HandbookSite := "https://www.handbook.fca.org.uk/handbook/"

  /** FCAHandbookSection.handbook_url: None for an empty section id. */
  function HandbookUrl(h: HandbookSection): (r: Option<string>)
    ensures r.Some? <==> h.section_id != []
    ensures r.Some? ==> StartsWith(r.value, HandbookSite) && r.value[|HandbookSite|..] == h.section_id
  {
    if h.section_id != [] then Some(HandbookSite + h.section_id) else None
  }

  /** The URL of the model test. */
  lemma HandbookUrlExample(h: HandbookSection)
    requires h.section_id == "PRIN_1_1"
    ensures HandbookUrl(h) == Some("https://www.handbook.fca.org.uk/handbook/PRIN_1_1")
    ensures HandbookUri(h) == "handbook_PRIN_1_1"
  {
    assert HandbookSite + "PRIN_1_1" == "https://www.handbook.fca.org.uk/handbook/PRIN_1_1";
    assert "handbook_" + "PRIN_1_1" == "handbook_PRIN_1_1";
  }

  function HandbookUri(h: HandbookSection): (r: string)
    ensures StartsWith(r, "handbook_") && r[9..] == h.section_id
  {
    "handbook_" + h.section_id
  }

  /** An FCA policy statement or consultation paper, identified by its
      number such as "PS24/1" or "CP24/1". */
  datatype Publication = Publication(number: string, details: Json)

  const PolicyStatementsPage := "https://www.fca.org.uk/publications/policy-statements/"
  const ConsultationPapersPage := "https://www.fca.org.uk/publications/consultation-papers/"

  /** The URL slug: the number in lower case with `/` turned into `-`. */
  function Slug(number: string): (r: string)
    ensures |r| == |number|
    ensures '/' !in r
    ensures forall i :: 0 <= i < |r| ==> r[i] == (if number[i] == '/' then '-' else LowerChar(number[i]))
  {
    var r := ReplaceChar(AsciiLower(number), '/', '-');
    assert forall i :: 0 <= i < |r| ==> r[i] != '/';
    r
  }

  /** FCAPolicyStatement.fca_url */
  function PolicyStatementUrl(p: Publication): (r: string)
    ensures StartsWith(r, PolicyStatementsPage) && r[|PolicyStatementsPage|..] == Slug(p.number)
  {
    PolicyStatementsPage + Slug(p.number)
  }

  /** FCAConsultationPaper.fca_url */
  function ConsultationPaperUrl(p: Publication): (r: string)
    ensures StartsWith(r, ConsultationPapersPage) && r[|ConsultationPapersPage|..] == Slug(p.number)
  {
    ConsultationPapersPage + Slug(p.number)
  }

  /** The number with `/` turned into `_`, as used in the document URIs. */
  function UriSafe(number: string): (r: string)
    ensures |r| == |number|
    ensures '/' !in r
  {
    var r := ReplaceChar(number, '/', '_');
    assert forall i :: 0 <= i < |r| ==> r[i] != '/';
    r
  }

  function PolicyStatementUri(p: Publication): (r: string)
    ensures StartsWith(r, "policy_statement_") && r[17..] == UriSafe(p.number)
  {
    "policy_statement_" + UriSafe(p.number)
  }

  function ConsultationPaperUri(p: Publication): (r: string)
    ensures StartsWith(r, "consultation_paper_") && r[19..] == UriSafe(p.number)
  {
    "consultation_paper_" + UriSafe(p.number)
  }

  /** Numbers without underscores keep distinct URIs. */
  lemma UriSafeInjective(a: string, b: string)
    requires '_' !in a && '_' !in b
    requires UriSafe(a) == UriSafe(b)
    ensures a == b
  {
    assert |a| == |b|;
    forall i | 0 <= i < |a| ensures a[i] == b[i] {
      assert UriSafe(a)[i] == UriSafe(b)[i];
    }
  }

  /** A number such as "PS24/1" is keyed with its slash turned into `_`:
      "PS24_1". */
  lemma UriSafeWithSlash(series: string, issue: string)
    requires '/' !in series && '/' !in issue
    ensures UriSafe(series + "/" + issue) == series + "_" + issue
  {
    var n := series + "/" + issue;
    var u, e := UriSafe(n), series + "_" + issue;
    assert |u| == |e|;
    forall i | 0 <= i < |n| ensures u[i] == e[i] {
      if i < |series| {
        assert n[i] == series[i] && e[i] == series[i];
      } else if i > |series| {
        assert n[i] == issue[i - |series| - 1] && e[i] == issue[i - |series| - 1];
      } else {
        assert n[i] == '/' && e[i] == '_';
      }
    }
  }

  /** ... and linked under its lower-cased series and issue joined by `-`:
      "ps24-1". */
  lemma SlugWithSlash(series: string, issue: string)
    requires '/' !in series && '/' !in issue
    ensures Slug(series + "/" + issue) == AsciiLower(series) + "-" + AsciiLower(issue)
  {
    var n := series + "/" + issue;
    var l, ls, li := Slug(n), AsciiLower(series), AsciiLower(issue);
    var f := ls + "-" + li;
    assert |l| == |f|;
    forall i | 0 <= i < |n| ensures l[i] == f[i] {
      if i < |series| {
        assert n[i] == series[i] && f[i] == ls[i];
      } else if i > |series| {
        assert n[i] == issue[i - |series| - 1] && f[i] == li[i - |series| - 1];
      } else {
        assert n[i] == '/' && f[i] == '-';
      }
    }
  }

  /** "PS24/1" and "PS24_1" are stored under the same URI. */
  lemma PolicyStatementUriCollision(details: Json)
    ensures PolicyStatementUri(Publication("PS24/1", details)) == PolicyStatementUri(Publication("PS24_1", details))
  {
  }

  /** An authorised firm, as built from the Financial Services Register. */
  datatype Firm = Firm(
    firm_reference_number: string,
    firm_name: string,
    trading_names: seq<string>,
    firm_status: string,
    permissions: seq<string>,
    address_line_1: Option<string>,
    city: Option<string>,
    postcode: Option<string>,
    country: Option<string>,
    telephone: Option<string>,
    business_type: Option<string>,
    companies_house_number: Option<string>,
    client_money_permission: Option<string>,
    psd_status: Option<string>,
    website: Option<string>,
    key_individuals: seq<string>,
    regulatory_requirements: seq<string>,
    disciplinary_history: seq<string>,
    sub_status: Option<string>,
    mlrs_status: Option<string>,
    exceptional_info: seq<string>)

  const RegisterSite := "https://register.fca.org.uk/"

  function FirmRegisterUrl(f: Firm): string {
    RegisterSite + "ShPo_FirmDetailsPage?id=" + f.firm_reference_number
  }

  function FirmUri(f: Firm): string {
    "firm_" + f.firm_reference_number
  }

  /** An enforcement notice; `details` carries the other validated fields. */
  datatype EnforcementNotice = EnforcementNotice(notice_id: string, details: Json)

  function EnforcementUrl(e: EnforcementNotice): string {
    "https://www.fca.org.uk/news/" + e.notice_id
  }

  function EnforcementUri(e: EnforcementNotice): string {
    "enforcement_" + e.notice_id
  }

  /** An entry of the individual register. */
  datatype Individual = Individual(individual_reference_number: string, details: Json)

  function IndividualRegisterUrl(i: Individual): string {
    RegisterSite + "ShPo_IndividualDetailsPage?id=" + i.individual_reference_number
  }

  function IndividualUri(i: Individual): string {
    "individual_" + i.individual_reference_number
  }

  /** A collective investment scheme. */
  datatype Product = Product(product_reference_number: string, details: Json)

  function ProductRegisterUrl(p: Product): string {
    RegisterSite + "ShPo_ProductDetailsPage?id=" + p.product_reference_number
  }

  function ProductUri(p: Product): string {
    "product_" + p.product_reference_number
  }

  /** Each register key determines the reference number it was made from. */
  lemma RegisterUrisInjective(f1: Firm, f2: Firm, i1: Individual, i2: Individual,
                              p1: Product, p2: Product, e1: EnforcementNotice, e2: EnforcementNotice)
    ensures FirmUri(f1) == FirmUri(f2) ==> f1.firm_reference_number == f2.firm_reference_number
    ensures IndividualUri(i1) == IndividualUri(i2) ==> i1.individual_reference_number == i2.individual_reference_number
    ensures ProductUri(p1) == ProductUri(p2) ==> p1.product_reference_number == p2.product_reference_number
    ensures EnforcementUri(e1) == EnforcementUri(e2) ==> e1.notice_id == e2.notice_id
  {
    assert FirmUri(f1)[5..] == f1.firm_reference_number && FirmUri(f2)[5..] == f2.firm_reference_number;
    assert IndividualUri(i1)[11..] == i1.individual_reference_number;
    assert IndividualUri(i2)[11..] == i2.individual_reference_number;
    assert ProductUri(p1)[8..] == p1.product_reference_number && ProductUri(p2)[8..] == p2.product_reference_number;
    assert EnforcementUri(e1)[12..] == e1.notice_id && EnforcementUri(e2)[12..] == e2.notice_id;
  }

  // ---------------------------------------------------------------------
  // Every stored document
  // ---------------------------------------------------------------------

  /** The ElasticDocument subclasses. */
  datatype Document =
    | ContributionDoc(contribution: Contribution)
    | QuestionDoc(question: Question)
    | HandbookDoc(section: HandbookSection)
    | PolicyStatementDoc(statement: Publication)
    | ConsultationPaperDoc(paper: Publication)
    | FirmDoc(firm: Firm)
    | EnforcementDoc(notice: EnforcementNotice)
    | IndividualDoc(individual: Individual)
    | ProductDoc(product: Product)

  /** `item.document_uri`, the Elasticsearch `_id` of a document. */
  function DocumentUri(sha256: string -> string, doc: Document): (r: string)
    ensures StartsWith(r, UriPrefix(doc))
  {
    match doc
    case ContributionDoc(c) => ContributionUri(sha256, c)
    case QuestionDoc(q) => QuestionUri(q)
    case HandbookDoc(h) => HandbookUri(h)
    case PolicyStatementDoc(p) => PolicyStatementUri(p)
    case ConsultationPaperDoc(p) => ConsultationPaperUri(p)
    case FirmDoc(f) => FirmUri(f)
    case EnforcementDoc(e) => EnforcementUri(e)
    case IndividualDoc(i) => IndividualUri(i)
    case ProductDoc(p) => ProductUri(p)
  }

  /** The fixed beginning of each kind's URI. */
  function UriPrefix(doc: Document): string {
    match doc
    case ContributionDoc(_) => ContribPrefix
    case QuestionDoc(_) => "pq_"
    case HandbookDoc(_) => "handbook_"
    case PolicyStatementDoc(_) => "policy_statement_"
    case ConsultationPaperDoc(_) => "consultation_paper_"
    case FirmDoc(_) => "firm_"
    case EnforcementDoc(_) => "enforcement_"
    case IndividualDoc(_) => "individual_"
    case ProductDoc(_) => "product_"
  }

  /** Documents of different kinds never share a URI, so the indices can
      never have one kind overwrite another. */
  lemma DocumentUriSeparatesKinds(sha256: string -> string, a: Document, b: Document)
    requires DocumentUri(sha256, a) == DocumentUri(sha256, b)
    ensures a.ContributionDoc? == b.ContributionDoc? && a.QuestionDoc? == b.QuestionDoc?
    ensures a.HandbookDoc? == b.HandbookDoc? && a.PolicyStatementDoc? == b.PolicyStatementDoc?
    ensures a.ConsultationPaperDoc? == b.ConsultationPaperDoc? && a.FirmDoc? == b.FirmDoc?
    ensures a.EnforcementDoc? == b.EnforcementDoc? && a.IndividualDoc? == b.IndividualDoc?
    ensures a.ProductDoc? == b.ProductDoc?
  {
    var u := DocumentUri(sha256, a);
    var pa, pb := UriPrefix(a), UriPrefix(b);
    assert u[0] == pa[0] && u[0] == pb[0];
    assert u[1] == pa[1] && u[1] == pb[1];
    PrefixHeadsDistinct(a, b);
  }

  /** The kinds' prefixes already differ in their first two characters. */
  lemma PrefixHeadsDistinct(a: Document, b: Document)
    requires UriPrefix(a)[0] == UriPrefix(b)[0] && UriPrefix(a)[1] == UriPrefix(b)[1]
    ensures a.ContributionDoc? == b.ContributionDoc? && a.QuestionDoc? == b.QuestionDoc?
    ensures a.HandbookDoc? == b.HandbookDoc? && a.PolicyStatementDoc? == b.PolicyStatementDoc?
    ensures a.ConsultationPaperDoc? == b.ConsultationPaperDoc? && a.FirmDoc? == b.FirmDoc?
    ensures a.EnforcementDoc? == b.EnforcementDoc? && a.IndividualDoc? == b.IndividualDoc?
    ensures a.ProductDoc? == b.ProductDoc?
  {
  }

  /** What `model_dump(mode="json")` adds for the computed fields, in
      declaration order; a computed field that raises makes the dump raise. */
  function ComputedFields(sha256: string -> string, doc: Document): Result<seq<Field>, PyError> {
    var uri := Field("document_uri", JStr(DocumentUri(sha256, doc)));
    match doc
    case ContributionDoc(c) =>
      var debate :- DebateUrl(c);
      var contribution :- ContributionUrl(c);
      Ok([Field("debate_url", JStr(debate)),
          Field("contribution_url", if contribution.Some? then JStr(contribution.value) else JNull),
          uri])
    case QuestionDoc(_) => Ok([uri])
    case HandbookDoc(h) =>
      var url := HandbookUrl(h);
      Ok([Field("handbook_url", if url.Some? then JStr(url.value) else JNull), uri])
    case PolicyStatementDoc(p) => Ok([Field("fca_url", JStr(PolicyStatementUrl(p))), uri])
    case ConsultationPaperDoc(p) => Ok([Field("fca_url", JStr(ConsultationPaperUrl(p))), uri])
    case FirmDoc(f) => Ok([Field("register_url", JStr(FirmRegisterUrl(f))), uri])
    case EnforcementDoc(e) => Ok([Field("enforcement_url", JStr(EnforcementUrl(e))), uri])
    case IndividualDoc(i) => Ok([Field("register_url", JStr(IndividualRegisterUrl(i))), uri])
    case ProductDoc(p) => Ok([Field("register_url", JStr(ProductRegisterUrl(p))), uri])
  }

  /** `item.model_dump(mode="json")`: the stored fields, as serialised by
      pydantic (`storedFields`), followed by the computed ones. */
  function DumpDocument(storedFields: Document -> seq<Field>, sha256: string -> string, doc: Document): Result<Json, PyError> {
    var computed :- ComputedFields(sha256, doc);
    Ok(JObj(storedFields(doc) + computed))
  }

  /** The computed fields fail only for a contribution without a sitting
      date, and otherwise end with `document_uri`, which no other computed
      field is called. */
  lemma ComputedFieldsSpec(sha256: string -> string, doc: Document)
    ensures ComputedFields(sha256, doc).Err? <==> doc.ContributionDoc? && doc.contribution.SittingDate.None?
    ensures ComputedFields(sha256, doc).Ok? ==>
      var v := ComputedFields(sha256, doc).value;
      |v| >= 1 && v[|v| - 1] == Field("document_uri", JStr(DocumentUri(sha256, doc)))
      && forall i :: 0 <= i < |v| - 1 ==> v[i].key != "document_uri"
  {
    match doc
    case ContributionDoc(c) =>
      if c.SittingDate.Some? {
        ContributionComputedFields(sha256, c);
      } else {
        assert DebateUrl(c).Err?;
      }
    case _ =>
      var computed := ComputedFields(sha256, doc);
      assert computed.Ok? && |computed.value| <= 2;
  }

  /** A dated contribution computes its two URLs, then its URI. */
  lemma ContributionComputedFields(sha256: string -> string, c: Contribution)
    requires c.SittingDate.Some?
    ensures ComputedFields(sha256, ContributionDoc(c)).Ok?
    ensures |ComputedFields(sha256, ContributionDoc(c)).value| == 3
    ensures ComputedFields(sha256, ContributionDoc(c)).value[0].key == "debate_url"
    ensures ComputedFields(sha256, ContributionDoc(c)).value[1].key == "contribution_url"
    ensures ComputedFields(sha256, ContributionDoc(c)).value[2]
         == Field("document_uri", JStr(DocumentUri(sha256, ContributionDoc(c))))
  {
    assert DebateUrl(c).Ok?;
    assert ContributionUrl(c).Ok?;
  }

  /** Only a contribution without a sitting date fails to dump. */
  lemma DumpDocumentFails(storedFields: Document -> seq<Field>, sha256: string -> string, doc: Document)
    ensures DumpDocument(storedFields, sha256, doc).Err? <==> doc.ContributionDoc? && doc.contribution.SittingDate.None?
  {
    ComputedFieldsSpec(sha256, doc);
  }

  /** A dumped document carries its own URI under `document_uri`. */
  lemma DumpDocumentSpec(storedFields: Document -> seq<Field>, sha256: string -> string, doc: Document)
    requires "document_uri" !in Keys(storedFields(doc))
    ensures DumpDocument(storedFields, sha256, doc).Ok? ==>
      var d := DumpDocument(storedFields, sha256, doc).value;
      d.JObj? && Lookup(d.fields, "document_uri") == Some(JStr(DocumentUri(sha256, doc)))
  {
    ComputedFieldsSpec(sha256, doc);
    var computed := ComputedFields(sha256, doc);
    if computed.Ok? {
      LookupLast(storedFields(doc), computed.value, "document_uri", JStr(DocumentUri(sha256, doc)));
    }
  }

  /** A key found only in the last entry of the second part is read there. */
  lemma LookupLast(a: seq<Field>, b: seq<Field>, k: string, v: Json)
    requires k !in Keys(a)
    requires |b| >= 1 && b[|b| - 1] == Field(k, v)
    requires forall i :: 0 <= i < |b| - 1 ==> b[i].key != k
    ensures Lookup(a + b, k) == Some(v)
  {
    assert forall i :: 0 <= i < |a| ==> a[i].key == Keys(a)[i];
    LookupAppend(a, b, k);
    LookupAppend(b[..|b| - 1], [Field(k, v)], k);
    assert b[..|b| - 1] + [Field(k, v)] == b;
  }
}
