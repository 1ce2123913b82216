# fca-mcp core in Dafny

This project models the core of fca-mcp. fca-mcp is a Python service that loads UK
Parliament data and Financial Conduct Authority (FCA) data into Elasticsearch. It then
answers Model Context Protocol search tools against those indices. The model covers:

- **Loaders** (`fca_mcp/data_loaders.py`):
  - the Hansard contribution loader (`ElasticHansardLoader`): section trees, the
    debate-parent walk, and paging by contribution type;
  - the parliamentary-question loader (`ElasticParliamentaryQuestionLoader`): two passes
    (tabled, then answered), a set of seen ids, and enrichment of truncated questions;
  - the FCA register loader (`ElasticFCAAuthorisedFirmsLoader`): the API-call
    classification, the firm name, address, permission, individual, requirement and
    disciplinary lookups, the search-term scan, and the batches of three firms;
  - the shared `store_in_elastic` bulk index.
- **Document models** (`fca_mcp/models.py`, whose first 267 lines are the same as
  `parliament_mcp/models.py`): computed URLs and `document_uri` values, `is_truncated`,
  date parsing, and the `DebateParent` validation.
- **Search handlers** (`fca_mcp/mcp_server/handlers.py`): every query builder and
  result reshaper, including the multi-index `get_regulatory_updates`.
- **Parameter and response helpers** (`fca_mcp/mcp_server/utils.py`):
  `sanitize_params`, `remove_null_values` and `flatten_dict`.

Python values are modelled as a `Json` datatype (`json.dfy`). A dict is a sequence of
fields in insertion order, so iteration order, overwriting a key and `{**a, **b}` behave
as in Python. Raised exceptions are `Err` values of `PyError`. HTTP, the Elasticsearch
search call, SHA-256, pydantic validation of list pages and date reformatting are
function parameters. The loaders are classes whose index store is a
`map<string, Json>` field. Each loader method is proved equal to a specification
function of the old store and its inputs. The listed lemmas prove properties of those
functions.

Modules:

| Module | Contents |
|---|---|
| `PyBuiltins` | `str` and `range` operations |
| `PyJson` | dict and list semantics |
| `Wrappers` | `Option` and `Result` |
| `StableSort` | `sorted(..., reverse=True)` |
| `Utils` | the helpers in `utils.py` |
| `Models` | the document models |
| `LoaderCore` | the shared `ElasticDataLoader` |
| `HansardLoader`, `QuestionsLoader`, `FirmsLoader` | the three loaders |
| `Handlers` | the search tools |

The repository's documentation says the debate-parent walk follows `parentExternalId`.
The code (`fca_mcp/data_loaders.py:264-268`) follows `ParentId` to the next map entry.
The model follows the code.

## Model

| member | source | states |
|---|---|---|
| PyBuiltins.ReplaceChar | fca_mcp/models.py:329-332 | `s.replace(a, b)` for one character keeps the length, turns every `a` into `b` and keeps all other characters |
| PyBuiltins.ReplaceAllRemovesChar | parliament_mcp/models.py:159-160 | replacing every `Z` by text that has no `Z` leaves no `Z` |
| PyBuiltins.ReplaceAllAbsent | parliament_mcp/models.py:159-160 | `replace` of a pattern that does not occur returns the string unchanged |
| PyBuiltins.StripPrefix | fca_mcp/mcp_server/handlers.py:822 | removing prefix `p` from `p + t`, where `t` does not contain `p`, gives back `t` |
| PyBuiltins.AsciiLower | fca_mcp/models.py:323-326 | `str.lower` on ASCII text: the length is kept, `A`-`Z` become `a`-`z` and every other character is kept |
| PyBuiltins.NatToString | fca_mcp/models.py:215-218 | `str` of a natural number is a non-empty string of digits, with at least two digits from 10 up |
| PyBuiltins.NatToStringInjective | fca_mcp/models.py:215-218 | distinct naturals have distinct decimal strings |
| PyBuiltins.IntToStringSign | fca_mcp/models.py:215-218 | `str(i)` starts with `-` exactly when `i` is negative |
| PyBuiltins.IntToStringInjective | fca_mcp/models.py:215-218 | distinct integers have distinct `str` forms |
| PyBuiltins.ZeroPad | fca_mcp/models.py:56-59 | a zero-padded date field is the number's digits preceded by only zeros, at least as wide as asked and exactly the digits when they already fill the width |
| PyBuiltins.RangeSpec | fca_mcp/data_loaders.py:251-253 | `range(start, stop, step)` with a positive step yields exactly the values `start + k*step` below `stop`, in increasing order |
| PyBuiltins.SliceTo | fca_mcp/mcp_server/handlers.py:830 | `xs[:n]` is a prefix of `xs`, and its length follows Python's rule for negative and too-large `n` |
| PyBuiltins.StrLeTotal | fca_mcp/mcp_server/handlers.py:829 | Python string comparison is total |
| PyBuiltins.StrLeTransitive | fca_mcp/mcp_server/handlers.py:829 | Python string comparison is transitive |
| PyBuiltins.StrLeAntisymmetric | fca_mcp/mcp_server/handlers.py:829 | Python string comparison is antisymmetric |
| PyJson.LookupKeys | fca_mcp/data_loaders.py:127-130 | `k in d` holds exactly when looking `k` up succeeds |
| PyJson.SetKey | fca_mcp/mcp_server/utils.py:23 | `d[k] = v` keeps the position of an existing key and appends a new one |
| PyJson.SetKeyLookup | fca_mcp/mcp_server/utils.py:23 | after `d[k] = v`, `k` maps to `v` and every other key keeps its value |
| PyJson.MergeLookup | fca_mcp/data_loaders.py:123 | in `{**a, **b}`, a key of `b` takes `b`'s value and every other key takes `a`'s |
| PyJson.PyGet | fca_mcp/data_loaders.py:523-524 | `.get(k, default)` returns the value or the default on a dict and raises `AttributeError` on anything else |
| PyJson.PyItems | fca_mcp/data_loaders.py:630 | `.items()` returns the key/value pairs of a dict in order and raises `AttributeError` on anything else |
| PyJson.PyIndexKey | fca_mcp/data_loaders.py:108-109 | `d[k]` succeeds exactly on a dict holding `k`, and returns its value |
| PyJson.PyIndexPos | fca_mcp/data_loaders.py:835 | `xs[i]` returns the element inside the list, raises `IndexError` outside it, and fails on a non-sequence |
| PyJson.PyIter | fca_mcp/data_loaders.py:95-102 | iteration succeeds exactly on lists, dicts and strings, and a list yields its items |
| PyJson.PyIn | fca_mcp/data_loaders.py:563 | `x in y` tests dict keys, list members or substrings, and raises `TypeError` otherwise |
| PyJson.PySliceTo | fca_mcp/data_loaders.py:779 | `[:n]` of a list is its prefix, and a non-sequence fails |
| StableSort.SortDesc | fca_mcp/mcp_server/handlers.py:829 | sorting returns a permutation of its input |
| StableSort.SortDescDescending | fca_mcp/mcp_server/handlers.py:829 | `sorted(..., reverse=True)` gives a list whose keys descend, numbers by value and strings by code points |
| StableSort.SortDescStable | fca_mcp/mcp_server/handlers.py:829 | items with equal keys keep their original relative order |
| Utils.SanitizeParams | fca_mcp/mcp_server/utils.py:12-25 | the loop builds exactly the sanitized parameter dict |
| Utils.Sanitized | fca_mcp/mcp_server/utils.py:16-25 | no entry of the sanitized dict is `self`, `None` or `""`, and there are no more entries than arguments |
| Utils.SanitizedKeys | fca_mcp/mcp_server/utils.py:16-25 | the sanitized dict's keys are the names of the kept arguments, in the order they were passed |
| Utils.SanitizedLookup | fca_mcp/mcp_server/utils.py:16-25 | a name maps to `v` in the result exactly when it was passed with `v` and is not `self`, `None`, `""` or a `FieldInfo` default |
| Utils.RemoveNulls | fca_mcp/mcp_server/utils.py:63-72 | the result is `None`, a dict or a list exactly when the input is; cleaned dicts and lists hold no `None` at their top level and are no longer than before |
| Utils.RemoveNullsNullFree | fca_mcp/mcp_server/utils.py:63-72 | no `None` remains inside any dict or list of the result |
| Utils.RemoveNullsKeepsKind | fca_mcp/mcp_server/utils.py:63-72 | the result is `None` exactly when the input is |
| Utils.RemoveNullsNoop | fca_mcp/mcp_server/utils.py:63-72 | a value with no `None` inside is returned unchanged |
| Utils.RemoveNullsIdempotent | fca_mcp/mcp_server/utils.py:63-72 | cleaning twice equals cleaning once |
| Utils.RemoveNullItemsOrder | fca_mcp/mcp_server/utils.py:70 | the surviving list elements are the non-`None` ones, in order, each cleaned |
| Utils.RemoveNullFieldsKeys | fca_mcp/mcp_server/utils.py:68 | the surviving dict keys are those with non-`None` values, in order |
| Utils.Flatten | fca_mcp/mcp_server/utils.py:75-95 | scalars are returned as they are, and a list flattens to a list of the same length |
| Utils.FlattenIsFlat | fca_mcp/mcp_server/utils.py:75-95 | on a well-formed input, no `links`, `value` or `items` wrapper survives anywhere |
| Utils.FlattenPrefersValue | fca_mcp/mcp_server/utils.py:84-87 | a dict with a `value` key flattens to its flattened value, whatever else it holds |
| Utils.FlattenFlatNoop | fca_mcp/mcp_server/utils.py:75-95 | a value that is already flat is returned unchanged |
| Utils.FlattenIdempotent | fca_mcp/mcp_server/utils.py:75-95 | flattening twice equals flattening once |
| Models.DateStampShape | fca_mcp/models.py:56-59 | a `%Y-%m-%d` stamp of a valid date has ten characters with dashes at positions 4 and 7 |
| Models.ParseDateTime | parliament_mcp/models.py:155-161 | non-strings pass through; a string is the date `fromisoformat` parses from it after `Z` becomes `+00:00`, and a failed parse is that parse's error |
| Models.ZuluToOffsetHasNoZ | parliament_mcp/models.py:160 | after the rewrite no `Z` remains |
| Models.ZuluToOffsetKeepsPlainText | parliament_mcp/models.py:160 | text without `Z` is unchanged |
| Models.ValidateDebateParent | fca_mcp/models.py:7-15 | a validated parent's fields are the dict's own values |
| Models.ValidateDebateParentComplete | fca_mcp/models.py:7-15 | a dict with well-typed `Id`, `Title` and `ParentId` always validates |
| Models.DebateUrl | fca_mcp/models.py:56-59 | the URL exists exactly when the sitting date does, and otherwise formatting raises `TypeError` |
| Models.DebateUrlShape | fca_mcp/models.py:56-59 | the URL is the Hansard site, the house, `/`, the date stamp, `/debates/`, the debate's external id and `/link`, in that order |
| Models.ContributionUrl | parliament_mcp/models.py:61-66 | without an external id there is no URL; with one, it fails exactly when the sitting date is missing |
| Models.ContributionUrlSpec | parliament_mcp/models.py:61-66 | without an external id there is no URL; with one, it fails exactly when the debate URL does, and otherwise it is the debate URL followed by `#contribution-` and the external id |
| Models.ContributionUri | fca_mcp/models.py:68-78 | the URI is `debate_`, the debate's external id and `_contrib_`, and everything after that prefix is exactly the contribution's external id when it has one and otherwise the digest of its hashed text |
| Models.ContributionUriSeparatesExtIds | fca_mcp/models.py:68-78 | contributions of one debate with different external ids get different URIs |
| Models.HashInputSeparatesTexts | fca_mcp/models.py:71-76 | in one debate at one position, different texts give different hashed inputs |
| Models.ContributionUriSeparatesTexts | fca_mcp/models.py:68-76 | without external ids and with a collision-free hash, contributions to one debate at one position with different texts get different URIs |
| Models.ContributionUriNoneTextCollision | parliament_mcp/models.py:71-76 | a missing text and the literal text `None` hash the same input |
| Models.ContributionUriExampleExtId | tests/test_models.py:6-15 | the documented example with an external id |
| Models.ContributionUriExampleHashed | tests/test_models.py:17-27 | the documented example without an external id starts with the debate prefix and is longer than it |
| Models.QuestionUri | fca_mcp/models.py:215-218 | the URI is `pq_` followed by the question id |
| Models.QuestionUriInjective | fca_mcp/models.py:215-218 | distinct question ids give distinct `pq_` URIs |
| Models.EllipsisTruncated | fca_mcp/models.py:220-225 | a question or answer ending in `...` is truncated |
| Models.NoEllipsisNotTruncated | parliament_mcp/models.py:220-225 | a question none of whose present texts ends in `...` is not truncated; with Models.EllipsisTruncated, `is_truncated` holds exactly when a present text ends in `...` |
| Models.PageQuestions | parliament_mcp/models.py:264-267 | the page's questions are the `value` of each result, in order |
| Models.HandbookUrl | fca_mcp/models.py:292-298 | a URL exists exactly when the section id is non-empty, and it is the handbook site followed by the id |
| Models.HandbookUri | fca_mcp/models.py:300-303 | the URI is `handbook_` followed by the section id |
| Models.HandbookUrlExample | tests/test_models.py:48-73 | the documented `PRIN_1_1` URL and URI |
| Models.Slug | fca_mcp/models.py:323-326 | the slug keeps the length, turns `/` into `-` and lowers `A`-`Z` in every other position |
| Models.PolicyStatementUrl | fca_mcp/models.py:323-326 | the URL is the policy statements page followed by the slug |
| Models.ConsultationPaperUrl | fca_mcp/models.py:353-356 | the URL is the consultation papers page followed by the slug |
| Models.UriSafe | fca_mcp/models.py:329-332 | the URI part keeps the length and contains no `/` |
| Models.PolicyStatementUri | fca_mcp/models.py:329-332 | the URI is `policy_statement_` followed by the number with `/` turned into `_` |
| Models.ConsultationPaperUri | fca_mcp/models.py:359-362 | the URI is `consultation_paper_` followed by the number with `/` turned into `_` |
| Models.UriSafeInjective | fca_mcp/models.py:329-332 | among numbers with no `_`, different numbers give different URIs |
| Models.UriSafeWithSlash | fca_mcp/models.py:329-332 | `series/issue` maps to `series_issue` |
| Models.SlugWithSlash | fca_mcp/models.py:353-356 | `series/issue` maps to the lowered `series-issue` |
| Models.PolicyStatementUriCollision | fca_mcp/models.py:329-332 | `PS24/1` and `PS24_1` get the same URI |
| Models.RegisterUrisInjective | fca_mcp/models.py:442-594 | firm, individual, product and enforcement URIs determine their reference numbers |
| Models.DocumentUri | fca_mcp/models.py:18-27 | every document kind's URI starts with its own prefix |
| Models.DocumentUriSeparatesKinds | fca_mcp/models.py:18-27 | documents that share a URI are of the same kind |
| Models.ComputedFieldsSpec | fca_mcp/models.py:56-78 | the computed fields fail exactly for a contribution without a sitting date, and otherwise include `document_uri` |
| Models.DumpDocumentFails | fca_mcp/data_loaders.py:163 | dumping fails exactly for a contribution without a sitting date |
| Models.DumpDocumentSpec | fca_mcp/data_loaders.py:161-163 | a dumped document carries its `document_uri` |
| LoaderCore.CountParamsSpec | fca_mcp/data_loaders.py:123 | the count request asks for `take=1, skip=0` and keeps every other parameter |
| LoaderCore.GetTotalResults | fca_mcp/data_loaders.py:121-130 | the total is the count key of the response, a missing key is an error, and HTTP errors propagate |
| LoaderCore.ActionOf | fca_mcp/data_loaders.py:158-166 | each bulk action's id is the document's URI |
| LoaderCore.MapAllOk | fca_mcp/data_loaders.py:158-166 | a comprehension succeeds exactly when every element does, and element `i` is `f(xs[i])` |
| LoaderCore.PyRange | fca_mcp/data_loaders.py:252 | `range` raises `ValueError` exactly when the step is zero |
| LoaderCore.AsInt | fca_mcp/data_loaders.py:252 | a non-integer total makes `range` raise `TypeError` |
| LoaderCore.ActionsSpec | fca_mcp/data_loaders.py:158-166 | the action list exists exactly when every document dumps, and action `i` belongs to document `i` |
| LoaderCore.ActionsCarryUri | fca_mcp/data_loaders.py:161-163 | each action's `_id` equals the `document_uri` in its source |
| LoaderCore.IndexedSpec | fca_mcp/data_loaders.py:168-172 | after indexing, an id is present exactly when it was stored before or indexed now, the last action for an id wins, and untouched ids keep their documents |
| LoaderCore.IndexedIdempotent | fca_mcp/data_loaders.py:155-172 | indexing the same actions twice equals indexing them once |
| LoaderCore.ElasticDataLoader.StoreInElastic | fca_mcp/data_loaders.py:155-175 | a document that fails to dump, or a bulk request that raises, is re-raised and leaves the store unchanged; otherwise the store becomes the old store with the actions indexed |
| HansardLoader.MapItemSpec | fca_mcp/data_loaders.py:106-109 | adding an item keeps every earlier key and adds the item's `Id` |
| HansardLoader.SectionTreeMapSpec | fca_mcp/data_loaders.py:104-110 | both keys of every item are in the map, and every key is bound to one of the items that carries it |
| HansardLoader.SectionTreeMapKeys | fca_mcp/data_loaders.py:104-110 | both keys of every item are in the map, and each key's item carries it |
| HansardLoader.SectionTreeMapValues | fca_mcp/data_loaders.py:104-110 | every entry of the map is one of the items |
| HansardLoader.SectionTrees | fca_mcp/data_loaders.py:77-110 | a failed day request is re-raised, and a loaded map binds each key to an item that carries it |
| HansardLoader.SectionTreeMapLastWins | fca_mcp/data_loaders.py:106-109 | a key maps to the last item that carries it |
| HansardLoader.LoadSectionTrees | fca_mcp/data_loaders.py:77-110 | the loop builds exactly the section-tree map of the fetched trees |
| HansardLoader.ItemsOfSections | fca_mcp/data_loaders.py:95-102 | the nested loops collect every tree's items in order |
| HansardLoader.TreeMapOf | fca_mcp/data_loaders.py:104-110 | the map loop equals the map specification |
| HansardLoader.TreeItemsOf | fca_mcp/data_loaders.py:97-102 | the items loop of one tree equals its item list |
| HansardLoader.ChainFromStep | fca_mcp/data_loaders.py:264-268 | one step of the walk prepends the current parent and moves to its `ParentId` |
| HansardLoader.WalkParents | fca_mcp/data_loaders.py:260-277 | the while loop returns the parent chain, or an empty list when the walk fails: a missing key, an invalid entry or a cycle |
| HansardLoader.ChainLinked | fca_mcp/data_loaders.py:264-277 | each parent in the chain is the map entry of the previous one's `ParentId` |
| HansardLoader.ChainOrEmpty | fca_mcp/data_loaders.py:261-277 | no start gives no parents; over a keyed map a non-empty chain starts at the section with the given key, each parent id is the next section's id, and the last section has no parent |
| HansardLoader.DebateParents | fca_mcp/data_loaders.py:255-277 | a failed map load or a missing debate id gives no parents; otherwise a non-empty chain starts at the debate, links each section to its parent by id and ends at a section with no parent |
| HansardLoader.GetDebateParents | fca_mcp/data_loaders.py:255-277 | the method returns the validated chain, from the debate up to its outermost section |
| HansardLoader.HasText | fca_mcp/data_loaders.py:237 | the filter keeps exactly the contributions with a non-empty full text |
| HansardLoader.WithParents | fca_mcp/data_loaders.py:239-244 | attaching parents fails exactly without a sitting date, and otherwise changes only `debate_parents` |
| HansardLoader.PageContributionsValid | fca_mcp/data_loaders.py:229-246 | every contribution a page stores has non-empty text, a sitting date and its debate parents |
| HansardLoader.ValidContributionsHaveText | fca_mcp/data_loaders.py:237 | every kept contribution has non-empty text |
| HansardLoader.ValidContributionsSpec | fca_mcp/data_loaders.py:237 | the filter succeeds exactly when every text is present, and then keeps the non-empty ones in order |
| HansardLoader.PagesCoverResults | fca_mcp/data_loaders.py:251-253 | every result index below the total falls on some page |
| HansardLoader.PagesDisjoint | fca_mcp/data_loaders.py:251-253 | distinct pages cover disjoint result ranges |
| HansardLoader.AttachParents | fca_mcp/data_loaders.py:239-244 | the loop attaches to each contribution the parents of its section |
| HansardLoader.TypesStoreStops | fca_mcp/data_loaders.py:195-199 | an error while loading one contribution type ends the run with that error |
| HansardLoader.ElasticHansardLoader.ProcessPage | fca_mcp/data_loaders.py:227-248 | the store becomes the page specification applied to the old store |
| HansardLoader.ElasticHansardLoader.LoadContributionsByType | fca_mcp/data_loaders.py:201-253 | the store becomes the type specification: nothing for a zero total, and every page in order otherwise |
| HansardLoader.ElasticHansardLoader.LoadPages | fca_mcp/data_loaders.py:251-253 | the page loop equals the pages specification |
| HansardLoader.ElasticHansardLoader.LoadTypes | fca_mcp/data_loaders.py:195-199 | the types loop equals the types specification |
| HansardLoader.ElasticHansardLoader.LoadAllContributions | fca_mcp/data_loaders.py:189-199 | the section trees are loaded, then every contribution type is loaded |
| QuestionsLoader.EnrichQuestion | fca_mcp/data_loaders.py:297-323 | enrichment keeps the id and details, takes both texts from the full question, and leaves the question unchanged when the fetch fails |
| QuestionsLoader.SelectNew | fca_mcp/data_loaders.py:347-360 | the seen set only grows, no more questions are kept than the page holds, and none was seen before |
| QuestionsLoader.SelectNewSpec | fca_mcp/data_loaders.py:347-360 | the selection is the first question of each id not seen before, in page order and enriched when truncated; every page id becomes seen; the selection has exactly the unseen ids, once each |
| QuestionsLoader.SelectNewFirsts | fca_mcp/data_loaders.py:347-360 | the selection is the page's first-new questions, as stored, in page order |
| QuestionsLoader.SelectNewSeen | fca_mcp/data_loaders.py:350-353 | afterwards the seen set is the old set plus every id on the page |
| QuestionsLoader.SelectNewIds | fca_mcp/data_loaders.py:350-353 | the selected ids are exactly the page ids not seen before |
| QuestionsLoader.SelectNewFresh | fca_mcp/data_loaders.py:350-353 | no selected question was seen before, and no id is selected twice |
| QuestionsLoader.SelectNewStored | fca_mcp/data_loaders.py:355-360 | every selected question is a page question, enriched when truncated |
| QuestionsLoader.PageState | fca_mcp/data_loaders.py:338-362 | a page that fails to arrive changes nothing, and the seen set only grows |
| QuestionsLoader.PagesStateSeenGrows | fca_mcp/data_loaders.py:336-353 | the seen set only grows across pages |
| QuestionsLoader.ElasticParliamentaryQuestionLoader.SelectQuestions | fca_mcp/data_loaders.py:347-360 | the loop computes the selection specification |
| QuestionsLoader.ElasticParliamentaryQuestionLoader.ProcessPage | fca_mcp/data_loaders.py:338-362 | the store and seen set become the page specification, in which a page that fails to fetch or validate changes nothing |
| QuestionsLoader.ElasticParliamentaryQuestionLoader.LoadPass | fca_mcp/data_loaders.py:366-381 | a failing count raises and leaves the store unchanged; otherwise the store and seen set follow every page in order |
| QuestionsLoader.ElasticParliamentaryQuestionLoader.LoadPages | fca_mcp/data_loaders.py:378-381 | the page loop equals the pages specification |
| QuestionsLoader.ElasticParliamentaryQuestionLoader.LoadQuestionsForDateRange | fca_mcp/data_loaders.py:325-394 | the tabled pass runs, then the answered pass, sharing one seen set |
| FirmsLoader.AnyIn | fca_mcp/data_loaders.py:527-529 | true exactly when some keyword occurs in the message |
| FirmsLoader.Classify | fca_mcp/data_loaders.py:523-545 | data is returned only from a dict response, and is itself a dict |
| FirmsLoader.ApiCall | fca_mcp/data_loaders.py:516-552 | an HTTP error or a non-dict body gives `None`, and any returned value is a dict |
| FirmsLoader.ClassifySpec | fca_mcp/data_loaders.py:523-545 | a status without `FSR-API-` gives `None`; a success keyword keeps the data; failing that, a not-found keyword gives a stand-in whose `Data` is null; any other `FSR-API-` status keeps the data |
| FirmsLoader.NotFoundMessageKeepsData | fca_mcp/data_loaders.py:527-536 | a not-found message still returns the response's data |
| FirmsLoader.DataOf | fca_mcp/data_loaders.py:560 | `data and data.get("Data")` is the truthy `Data` entry of a dict |
| FirmsLoader.PreviousNamesMarked | fca_mcp/data_loaders.py:568-571 | every previous name carries the ` (Historical)` suffix |
| FirmsLoader.GroupNamesSpec | fca_mcp/data_loaders.py:561-571 | every name is truthy, and the group's names end with its previous names, each marked ` (Historical)` |
| FirmsLoader.NamesIn | fca_mcp/data_loaders.py:564-566 | the inner loop collects each entry's name |
| FirmsLoader.NamesUnderKey | fca_mcp/data_loaders.py:563-571 | the loop over one key equals its name list |
| FirmsLoader.NamesOfGroup | fca_mcp/data_loaders.py:561-571 | the loop over one group equals its name list |
| FirmsLoader.NamesOfGroups | fca_mcp/data_loaders.py:560-571 | the loop over all groups equals the name list |
| FirmsLoader.GetFirmNames | fca_mcp/data_loaders.py:554-573 | the method returns the firm-names specification |
| FirmsLoader.PpobIndex | fca_mcp/data_loaders.py:598-604 | the result is the first principal place of business, none when no address is one, and an error at the first non-dict before any match |
| FirmsLoader.AddressSelection | fca_mcp/data_loaders.py:593-620 | no addresses give a blank address; the first principal place of business wins; with none, the first address is used |
| FirmsLoader.PpobIndexFinds | fca_mcp/data_loaders.py:598-601 | a principal address preceded only by other dict addresses is found at its index |
| FirmsLoader.PpobIndexNone | fca_mcp/data_loaders.py:598-604 | dict addresses with no principal one give no index |
| FirmsLoader.SelectAddress | fca_mcp/data_loaders.py:593-605 | the search loop returns the index specification |
| FirmsLoader.GetFirmAddress | fca_mcp/data_loaders.py:575-620 | the method returns the address specification |
| FirmsLoader.PermissionLinesSpec | fca_mcp/data_loaders.py:628-641 | every activity name is a line, and every line is an activity name or a marked limitation that is not excluded |
| FirmsLoader.PermissionsWithoutDetails | fca_mcp/data_loaders.py:630-634 | an activity without details contributes only its name |
| FirmsLoader.LimitationsIn | fca_mcp/data_loaders.py:639-641 | the inner loop collects each limitation line |
| FirmsLoader.LimitationsOfGroup | fca_mcp/data_loaders.py:637-641 | the loop over one detail group equals its limitation lines |
| FirmsLoader.LimitationsOfDetails | fca_mcp/data_loaders.py:634-641 | the loop over all details equals the limitation lines |
| FirmsLoader.PermissionsOf | fca_mcp/data_loaders.py:630-641 | the loop over activities equals the permission lines |
| FirmsLoader.GetFirmPermissions | fca_mcp/data_loaders.py:622-643 | the method returns the permissions specification |
| FirmsLoader.RecordsSpec | fca_mcp/data_loaders.py:645-693 | building individuals or disciplinary records succeeds exactly when every entry is a dict, and record `i` comes from entry `i` |
| FirmsLoader.PeopleOf | fca_mcp/data_loaders.py:652-658 | the loop equals the individuals specification |
| FirmsLoader.ActionsOf | fca_mcp/data_loaders.py:685-691 | the loop equals the disciplinary specification |
| FirmsLoader.GetFirmIndividuals | fca_mcp/data_loaders.py:645-660 | the method returns the individuals specification |
| FirmsLoader.GetFirmDisciplinaryHistory | fca_mcp/data_loaders.py:678-693 | the method returns the disciplinary specification |
| FirmsLoader.RequirementLinesSpec | fca_mcp/data_loaders.py:669-674 | the lines are exactly `key: value` for each kept requirement |
| FirmsLoader.RequirementLinesOf | fca_mcp/data_loaders.py:671-674 | the inner loop equals the requirement lines |
| FirmsLoader.RequirementsOf | fca_mcp/data_loaders.py:668-674 | the outer loop equals the requirement lines |
| FirmsLoader.GetFirmRequirements | fca_mcp/data_loaders.py:662-676 | the method returns the requirements specification |
| FirmsLoader.AsStr | fca_mcp/data_loaders.py:716-739 | validating a `str` field accepts only strings |
| FirmsLoader.PersonNames | fca_mcp/data_loaders.py:733 | the key-individual list holds each person's name |
| FirmsLoader.HistoryLines | fca_mcp/data_loaders.py:735 | the disciplinary list holds each action's text |
| FirmsLoader.AsStrsSpec | fca_mcp/data_loaders.py:719 | a list validates as `list[str]` exactly when every element is a string |
| FirmsLoader.BuildFirm | fca_mcp/data_loaders.py:716-739 | a base record that is not a dict raises; a built firm carries the requested number and the permissions, requirements and disciplinary lines unchanged |
| FirmsLoader.BuildFirmSpec | fca_mcp/data_loaders.py:716-739 | the built firm takes its reference number, name and status from the summary, and its names, individuals, address, permissions, requirements and history from the lookups |
| FirmsLoader.EnhancedFirm | fca_mcp/data_loaders.py:695-739 | a failing name lookup is re-raised, and an enhanced firm carries the requested number |
| FirmsLoader.EnhancedFirmNeedsAll | fca_mcp/data_loaders.py:699-713 | an enhanced firm exists only when all six lookups succeed, and it carries their results |
| FirmsLoader.GetEnhancedFirmData | fca_mcp/data_loaders.py:695-741 | the method returns the enhanced-firm specification |
| FirmsLoader.SingleFirm | fca_mcp/data_loaders.py:827-841 | a failed detail call gives no firm, and a firm carries the requested number |
| FirmsLoader.SingleFirmSpec | fca_mcp/data_loaders.py:827-841 | a firm is produced only when its summary is fetched, and it is the enhanced firm of the first summary with its own reference number |
| FirmsLoader.ProcessSingleFirm | fca_mcp/data_loaders.py:827-841 | the method returns the single-firm specification |
| FirmsLoader.Frns | fca_mcp/data_loaders.py:802 | the list of known reference numbers follows the table's order |
| FirmsLoader.SearchSummaries | fca_mcp/data_loaders.py:770-782 | a search yields at most 20 summaries |
| FirmsLoader.AddSummaryGrows | fca_mcp/data_loaders.py:780-782 | adding a summary extends the table by at most one new, truthy reference number |
| FirmsLoader.ScanSummariesGrows | fca_mcp/data_loaders.py:779-782 | scanning a page only extends the table, by at most one entry per summary, and keeps reference numbers unique |
| FirmsLoader.ScanFailedStays | fca_mcp/data_loaders.py:767-793 | a failed search leaves the table unchanged |
| FirmsLoader.TermTableGrows | fca_mcp/data_loaders.py:767-793 | each search term extends the table by at most 20 entries and keeps reference numbers unique |
| FirmsLoader.SearchTableGrows | fca_mcp/data_loaders.py:767-793 | all terms together give at most 20 entries per term, with unique reference numbers |
| FirmsLoader.WithKnownSpec | fca_mcp/data_loaders.py:795-798 | adding the known firms extends the table, keeps numbers unique, and includes every known number |
| FirmsLoader.SelectedFrns | fca_mcp/data_loaders.py:802 | the selection is a prefix of the collected numbers, at most `limit` long |
| FirmsLoader.SelectedFrnsSpec | fca_mcp/data_loaders.py:755-802 | the table holds the known firm `615820` and distinct numbers within the search bound, and the selection is a prefix of at most `limit` of them |
| FirmsLoader.WithKnownGrowsBy | fca_mcp/data_loaders.py:795-798 | adding the known firms adds at most one entry per known number |
| FirmsLoader.ScanTerm | fca_mcp/data_loaders.py:779-782 | the page loop returns the table specification |
| FirmsLoader.CollectFirms | fca_mcp/data_loaders.py:755-798 | the search loop returns the table of searched and known firms |
| FirmsLoader.FirmsOf | fca_mcp/data_loaders.py:806-822 | at most one firm per number, each carrying one of the numbers |
| FirmsLoader.FirmsOfSpec | fca_mcp/data_loaders.py:817-822 | at most one firm per number, and each stored firm is the processed firm of a selected number that it carries |
| FirmsLoader.FirmActionsBuild | fca_mcp/data_loaders.py:825 | the firms always dump, and action `i` has id `firm_` plus firm `i`'s reference number |
| FirmsLoader.FirmsOfAppend | fca_mcp/data_loaders.py:809-822 | the firms of a concatenation are the concatenated firms |
| FirmsLoader.FirmsOfSplit | fca_mcp/data_loaders.py:806-810 | processing in batches equals processing the whole list |
| FirmsLoader.ProcessBatch | fca_mcp/data_loaders.py:812-822 | the batch loop returns the batch's firms |
| FirmsLoader.ElasticFCAAuthorisedFirmsLoader.ProcessFirms | fca_mcp/data_loaders.py:806-822 | the batches of three return the firms of the whole selection |
| FirmsLoader.ElasticFCAAuthorisedFirmsLoader.LoadAuthorisedFirms | fca_mcp/data_loaders.py:743-825 | every processed selected firm dumps; a bulk request that raises is re-raised and leaves the store unchanged, and otherwise the store becomes the old store with those firms indexed |
| Handlers.BuildDateRangeFilter | fca_mcp/mcp_server/handlers.py:7-17 | a filter exists exactly when a bound is given, with `gte` and `lte` set from the given bounds |
| Handlers.BuildHouseFilter | fca_mcp/mcp_server/handlers.py:20-24 | a term filter exists exactly when a house is given |
| Handlers.AddFilterIfExists | fca_mcp/mcp_server/handlers.py:27-30 | only a truthy filter is appended |
| Handlers.BuildSourceFields | fca_mcp/mcp_server/handlers.py:33-38 | includes always appear, and excludes appear exactly when non-empty |
| Handlers.BuildSemanticQuery | fca_mcp/mcp_server/handlers.py:41-43 | the query names its field, query text and boost |
| Handlers.CleanSemanticFields | fca_mcp/mcp_server/handlers.py:467-475 | the loop returns the cleaned dict |
| Handlers.CleanedFieldsLookup | fca_mcp/mcp_server/handlers.py:467-475 | each key maps to its `text` when the value is a dict with `text`, and to its own value otherwise |
| Handlers.CleanedFieldsKeys | fca_mcp/mcp_server/handlers.py:467-475 | cleaning keeps the keys and their order |
| Handlers.CleanedValueMatchesExtract | fca_mcp/mcp_server/handlers.py:460-475 | cleaning and `extract_semantic_text` agree on strings and on dicts with `text`, while `None` stays `None` when cleaned but becomes `""` when extracted |
| Handlers.TextHelpersDisagree | fca_mcp/mcp_server/handlers.py:379-382 | for a dict without `text`, `safe_get_text` gives `""` while `extract_semantic_text` gives the dict's `str` |
| Handlers.CleanedValueNotIdempotent | fca_mcp/mcp_server/handlers.py:471-472 | cleaning unwraps one level only, so a nested `text` survives |
| Handlers.SafeGetText | fca_mcp/mcp_server/handlers.py:379-382 | strings pass through and `None` becomes `""` |
| Handlers.ParseDate | fca_mcp/mcp_server/handlers.py:384-390 | a falsy or non-string date gives `None`; otherwise the reformatted date, or `None` when it does not parse |
| Handlers.ParseQuestionsHitSpec | fca_mcp/mcp_server/handlers.py:367-401 | parsing a hit succeeds exactly when the hit is a dict whose `_source` is a dict, and yields the fixed question keys |
| Handlers.ParseQuestionsHitWithoutSource | fca_mcp/mcp_server/handlers.py:377-401 | a hit without `_source` parses, with empty texts and no dates |
| Handlers.CollectHits | fca_mcp/mcp_server/handlers.py:238-257 | the loop collects the reshaped hits in order |
| Handlers.CollectedOk | fca_mcp/mcp_server/handlers.py:238-257 | collecting succeeds exactly when every hit reshapes, and each entry is its hit reshaped |
| Handlers.CollectedErr | fca_mcp/mcp_server/handlers.py:238-257 | a failed collection raises the error of the first failing hit |
| Handlers.RunSearch | fca_mcp/mcp_server/handlers.py:236-257 | a search returns the reshaped hits of the response |
| Handlers.DebateFiltersSpec | fca_mcp/mcp_server/handlers.py:84-92 | the two attribution filters come first, then the date range filter when a bound is given, and the house filter last when a house is given |
| Handlers.DebatesQuery | fca_mcp/mcp_server/handlers.py:94-131 | the body is a dict that asks for no hits (`size` 0) |
| Handlers.DebatesQueryFilters | fca_mcp/mcp_server/handlers.py:94-97 | the bool query always filters on the debate filters, and has a `must` match exactly when a query is given |
| Handlers.DebatesQueryAggregation | fca_mcp/mcp_server/handlers.py:100-131 | no hits are returned; debates are aggregated with bucket size equal to the result limit and at least two contributions each |
| Handlers.SearchDebates | fca_mcp/mcp_server/handlers.py:46-151 | without a query or date the call raises `ValueError`; otherwise it returns the buckets as debates |
| Handlers.ContributionFiltersSpec | fca_mcp/mcp_server/handlers.py:193-202 | one filter per given parameter, member first and house last, and none exactly when nothing is given |
| Handlers.ContributionsQuery | fca_mcp/mcp_server/handlers.py:204-234 | the body has a fifth entry, `min_score`, exactly when a query is given |
| Handlers.ContributionsQueryMatch | fca_mcp/mcp_server/handlers.py:204-234 | the filters are always applied, and a `must` match exists exactly when a query is given |
| Handlers.ContributionsQueryThreshold | fca_mcp/mcp_server/handlers.py:204-234 | the minimum score is set only with a query, and the size is the result limit |
| Handlers.SearchHansardContributions | fca_mcp/mcp_server/handlers.py:154-257 | with no parameter given the call raises `ValueError`; otherwise it returns the reshaped contributions |
| Handlers.OptTerm | fca_mcp/mcp_server/handlers.py:322-329 | a term filter exists exactly when the value is given |
| Handlers.QuestionsQuery | fca_mcp/mcp_server/handlers.py:291-364 | the body carries the minimum score and the bool query |
| Handlers.QuestionsQueryWithoutQuery | fca_mcp/mcp_server/handlers.py:314-362 | without a query, the bool query must-match the filters, whose first entry requires `dateTabled` |
| Handlers.QuestionsQueryWithQuery | fca_mcp/mcp_server/handlers.py:347-356 | with a query, the bool query has no `must`, should-match the question text (boost 1.0) and answer text (boost 0.8), and needs one match |
| Handlers.QuestionsQueryIgnoresFiltersWithQuery | fca_mcp/mcp_server/handlers.py:347-356 | with a query, the date and member filters have no effect |
| Handlers.SearchParliamentaryQuestions | fca_mcp/mcp_server/handlers.py:260-288 | the call searches with a minimum score of 0.5 and parses each hit |
| Handlers.SearchBodySpec | fca_mcp/mcp_server/handlers.py:432-450 | the body holds the must queries, the filters, the size and the source fields |
| Handlers.SemanticQueries | fca_mcp/mcp_server/handlers.py:435-438 | one semantic query per target field, in order |
| Handlers.HandbookFiltersSpec | fca_mcp/mcp_server/handlers.py:420-429 | the `is_current` term is present exactly when requested, and chapter and content type each add one filter when given |
| Handlers.SearchFcaHandbook | fca_mcp/mcp_server/handlers.py:408-457 | the call returns the cleaned sources of the handbook search |
| Handlers.PublicationFiltersSpec | fca_mcp/mcp_server/handlers.py:490-498 | policy statements get one filter per given area, number and date range, and consultation papers without a status get the same shape |
| Handlers.GuidanceFiltersSpec | fca_mcp/mcp_server/handlers.py:725-733 | guidance documents get one filter per given document type, topic area and date range, the document type first |
| Handlers.SearchPolicyStatements | fca_mcp/mcp_server/handlers.py:478-526 | the call returns the cleaned sources of the policy search |
| Handlers.ConsultationStatusFilterSpec | fca_mcp/mcp_server/handlers.py:550-556 | open papers close at or after now, closed ones before now, and no flag adds no filter |
| Handlers.SearchConsultationPapers | fca_mcp/mcp_server/handlers.py:529-586 | the call returns the cleaned sources of the consultation search |
| Handlers.FirmMustSpec | fca_mcp/mcp_server/handlers.py:609-623 | the query is `match_all` exactly when neither query nor name is given; otherwise two matches for a query and one for a name |
| Handlers.SearchAuthorisedFirms | fca_mcp/mcp_server/handlers.py:589-638 | the call returns the sources of the firm search |
| Handlers.GetFirmByFrn | fca_mcp/mcp_server/handlers.py:641-655 | no hits give `None`, and otherwise the first hit's source |
| Handlers.EnforcementZeroFineIgnored | fca_mcp/mcp_server/handlers.py:676-677 | a zero minimum fine adds no filter, and a positive one adds exactly one |
| Handlers.SearchEnforcementNotices | fca_mcp/mcp_server/handlers.py:658-710 | the call returns the cleaned sources of the enforcement search |
| Handlers.SearchGuidanceDocuments | fca_mcp/mcp_server/handlers.py:713-760 | the call returns the cleaned sources of the guidance search |
| Handlers.RegulatoryFiltersCount | fca_mcp/mcp_server/handlers.py:781-803 | one filter per given topic, type list and date range |
| Handlers.RegulatoryFiltersSpec | fca_mcp/mcp_server/handlers.py:805-809 | the filter is `match_all` exactly when no topic, type or date is given |
| Handlers.Tag | fca_mcp/mcp_server/handlers.py:820-823 | a tagged hit is a dict |
| Handlers.SortByDate | fca_mcp/mcp_server/handlers.py:829 | sorting permutes the results; a list of two or more raises `TypeError` exactly when some two of its dates cannot be compared (not both strings, not both numbers) |
| Handlers.SortByDateExamples | fca_mcp/mcp_server/handlers.py:829 | results dated 5 and 6 come out as 6 then 5, and a number date beside a string date raises `TypeError` |
| Handlers.TagHits | fca_mcp/mcp_server/handlers.py:818-823 | the loop tags every hit in order |
| Handlers.SearchIndices | fca_mcp/mcp_server/handlers.py:816-826 | the index loop gathers every index's tagged hits |
| Handlers.GetRegulatoryUpdates | fca_mcp/mcp_server/handlers.py:763-830 | the call fails exactly when sorting the gathered hits fails, and otherwise returns the first `limit` of them, newest first |
| Handlers.TaggedPrefixSpec | fca_mcp/mcp_server/handlers.py:820-823 | each tagged hit names its index and comes from one hit |
| Handlers.TagKeepsFields | fca_mcp/mcp_server/handlers.py:821-822 | tagging keeps every other source field |
| Handlers.IndexLabel | fca_mcp/mcp_server/handlers.py:822 | the label is never longer than the index name |
| Handlers.IndexLabelStripsPrefix | fca_mcp/mcp_server/handlers.py:822 | the label drops `fca_mcp_` from the index name |
| Handlers.TaggedPrefixAll | fca_mcp/mcp_server/handlers.py:818-826 | no hit is lost unless one fails to tag |
| Handlers.RegulatoryUpdatesOrdered | fca_mcp/mcp_server/handlers.py:829-830 | the updates are newest first, drawn from the results, and keep the order of equal dates |
| Handlers.SortByDateSpec | fca_mcp/mcp_server/handlers.py:829 | the sorted results descend by date, and equal dates keep their order |
| Handlers.SliceToPart | fca_mcp/mcp_server/handlers.py:830 | a prefix of a descending list descends and is drawn from it |

## Left out

- Concurrency: `asyncio.TaskGroup`, the semaphore and the concurrent batch tasks run in sequence. When several tasks fail together, the model reports the first error in program order.
- HTTP (`cached_limited_get`) is a function parameter. The cache, rate limiter, retries and timeouts are not modelled.
- `alru_cache` is not modelled. It changes only repeated lookups.
- `async_bulk` is a function parameter that either indexes every action or raises. A raising request leaves the index unchanged in the model. The documents a partly failed request did write, and the retries, are not modelled.
- LoaderCore.Action: carries `_id` and `_source` only. Every action of `store_in_elastic` is an `index` operation into the loader's own index, so `_op_type` and `_index` are implied by the loader whose store changes.
- PyBuiltins.AsciiLower: lowers `A`-`Z` only. Python's `str.lower` also lowers non-ASCII letters and can change the length (`İ`), so Models.Slug matches the source for ASCII numbers only.
- Progress bars and logging are not modelled.
- HansardLoader.WalkParents: the source loops forever on a `ParentId` cycle. The model reports `MemoryError` once a key repeats.
- Handlers.SortByDate: dates that are all strings or all `int`/`bool` are sorted. Python also sorts lists whose dates are all numbers including floats (or otherwise mutually comparable); the model raises `TypeError` for any float date in a list of two or more, because floats are kept as their text. Python's exact comparison sequence is not modelled.
- QuestionsLoader.EnrichQuestion: works on values. The in-place update of the shared question object and any aliasing are not modelled.
- Dict keys `1`, `True` and `1.0` are distinct in the model. Python treats them as equal keys.
- FirmsLoader.ElasticFCAAuthorisedFirmsLoader.ProcessFirms: steps through whole batches and does not model how the firms inside a batch are scheduled.
- Pydantic validation covers strict `str` and `list[str]` fields only. Every validation failure is a single `ValidationError`.
- The settings base URLs and index names are parameters.
- The individuals and products loaders, the sample loaders, `api.py`, the CLI, the settings, `lambda_handler` and `log_tool_call` are not part of this model.
- Utils.Flatten: the `pop("links")` on the caller's dict is modelled on a copy. The mutation visible to the caller is not modelled.
- Dates, SHA-256 and floating-point boosts and scores are uninterpreted values.

