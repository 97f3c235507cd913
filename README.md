# Deep research engine: a Dafny model

This project models the core of a small command-line "deep research" tool. The tool expands one research question into a bounded tree of search queries. For each query it runs a web search, then asks a language model to extract findings ("learnings") and follow-up questions. It recurses into the first follow-up question with half the breadth and one less depth, and it deduplicates the learnings and visited URLs when each call returns. A second part formats the final report around one more model call.

Files:

- `wrappers.dfy`: `Option` and `Result`, which stand in for Python's `None` and for exceptions.
- `builtins.dfy`: the Python built-ins the code relies on, with Python's semantics written out.
  - `Prefix` is the slice `s[:n]`, negative `n` included. `breadth` is never validated, so a negative count can reach a slice.
  - `Join` is `sep.join(parts)`.
  - `ListOfSet` is `list(set(xs))`. Python does not fix the order of a set, so the order comes in as a parameter. The contract speaks only of sets.
- `research.dfy`: `step2_research/research.py`.
  - `FirecrawlSearch` is the search filter, an imperative loop proved against the function `SearchOutcome`.
  - `GenerateSerpQueries` is the query planner.
  - `Contents` and `ProcessSerpResult` are the result synthesizer.
  - `DeepResearch` is the recursive expansion. It is a method with a `while` loop over the planned queries; the loop body is the method `ResearchQuery`, which makes the recursive call. Both are proved equal to specification functions (`Research`, `QueryOutcome`).
- `reporting.dfy`: `step3_reporting/reporting.py`, i.e. the learnings block, the sources section, the report result and `format_markdown_section`.

The pieces the code cannot see are the fields of `Research.Env`. These are the search service, the model's planning and synthesis answers, and the set iteration order. Each field is a total function of the request it is given. A field returns `None` or `SearchRaised` where the Python call raises and the code catches the exception. The report client is a parameter of `WriteFinalReport` in the same way.

Exceptions that escape are explicit `Err` outcomes:

- `Research.Failure.IndexError`: `processed["followUpQuestions"][0]` on an empty list, at `research.py:179`. Nothing catches it, so it ends the whole research run.
- `Reporting.ReportFailure.UnboundResponse`: the `except` handler of `write_final_report` reads `response`. When the client call itself raised, `response` was never bound.

At `depth > 1` the code takes `processed["followUpQuestions"][0]` with no guard (`research.py:179`). A failed synthesis returns no follow-ups, so at `depth > 1` it makes the whole call fail with `IndexError` (`SynthesisFailureRaises`). The model proves that this failure is impossible at `depth <= 1` (`DepthOneNeverRaises`). It also proves the failure impossible when the model always proposes a follow-up question (`FollowUpsPreventFailure`).

`Research` records a `Log` of each call: every synthesized learning and every search-result URL in its subtree, in execution order, plus the number of planner calls and the height of the call tree. The accounting lemmas relate the deduplicated result to this log.

## Model

| member | source | states |
|---|---|---|
| `Builtins.Prefix` | step2_research/research.py:81 | Python's `s[:n]`: a prefix of `s`; its length is `min(n, len(s))` for `n >= 0` and `max(0, len(s)+n)` for `n < 0` |
| `Builtins.ListOfSet` | step2_research/research.py:190-193 | `list(set(xs))`: no duplicates, the same element set as `xs`, and as many elements as there are distinct ones |
| `Builtins.ListOfSetAnyOrder` | step2_research/research.py:191-192 | every duplicate-free listing of the distinct elements is one the runtime's order may produce |
| `Builtins.Unique` | step2_research/research.py:191-192 | the fallback listing has no duplicates and the same element set |
| `Builtins.DistinctCard` | step2_research/research.py:191-192 | a duplicate-free list has as many elements as its set |
| `Builtins.JoinAppend` | step3_reporting/reporting.py:18-20 | `"\n".join` of one more part appends the separator and that part (just the part when there was none before) |
| `Builtins.JoinEmpty` | step3_reporting/reporting.py:18-20 | a join of non-empty parts is empty iff there are no parts |
| `Research.ToSearchResult` | step2_research/research.py:44 | `SearchResult(**item)` for one hit; `ToSearchResultSpec` states its property and `ValidateAllSpec` states it for the whole list |
| `Research.ToSearchResultSpec` | step2_research/research.py:44 | validation succeeds exactly when `url`, `markdown`, `description` and `title` are all present strings, and the result keeps the hit's URL and markdown |
| `Research.Truthy` | step2_research/research.py:43 | Python truthiness of a field value: absent, empty text and falsy values are false |
| `Research.HasMarkdown` | step2_research/research.py:43 | `"markdown" in item and item["markdown"]`: the field is present and truthy |
| `Research.KeptItems` | step2_research/research.py:42-43 | the hits with a present, truthy `markdown`, in response order; `KeptItemsMembers`, `KeptHaveMarkdown` and `KeptItemsAppend` state its properties |
| `Research.ValidateAll` | step2_research/research.py:44 | converting every kept hit, with one failed conversion failing the whole list as the single `try` does; `ValidateAllSpec` states its property |
| `Research.ValidateAllSpec` | step2_research/research.py:44 | building `SearchResult(**item)` for every kept hit succeeds iff every one validates, and then each result is the conversion of the hit at the same position |
| `Research.SearchOutcome` | step2_research/research.py:29-48 | what `firecrawl_search` returns for one service response; `SearchOutcomeSpec` states its property and `FirecrawlSearch` is proved equal to it |
| `Research.SearchOutcomeSpec` | step2_research/research.py:41-48 | `[]` when the call raises or some kept hit does not validate; otherwise exactly one result per kept hit, in order; every result has non-empty markdown |
| `Research.KeptHaveMarkdown` | step2_research/research.py:43 | every kept hit has a truthy `markdown` |
| `Research.KeptItemsMembers` | step2_research/research.py:42-43 | a hit is kept iff it is in the response and its `markdown` is present and truthy |
| `Research.KeptItemsAppend` | step2_research/research.py:42-44 | the filter keeps source order: it distributes over concatenation |
| `Research.FirecrawlSearch` | step2_research/research.py:29-48 | the loop returns exactly `SearchOutcome` of the service's response to `(query, timeout, limit)` |
| `Research.GenerateSerpQueries` | step2_research/research.py:70-84 | `[]` when the call or parse fails; otherwise a prefix of the parsed queries, of length `min(num_queries, len)` for `num_queries >= 0` and `max(0, len + num_queries)` for a negative count, as `[:num_queries]` gives |
| `Research.Contents` | step2_research/research.py:95 | `[item.markdown[:25000] for item in search_result if item.markdown]`; `ContentsSpec` states its property |
| `Research.ContentsSpec` | step2_research/research.py:95 | each content is non-empty, at most 25000 characters, and a prefix of the non-empty markdown of some result; every non-empty markdown contributes its first 25000 characters |
| `Research.ContentsSound` | step2_research/research.py:95 | every content is non-empty, at most 25000 characters, and a prefix of the non-empty markdown of some result; there are no more contents than results |
| `Research.ContentsComplete` | step2_research/research.py:95 | every non-empty markdown contributes its first 25000 characters |
| `Research.ContentsInOrder` | step2_research/research.py:95 | when every result has non-empty markdown, one content per result, in order: the `k`-th content is the first 25000 characters of the `k`-th markdown |
| `Research.ProcessSerpResult` | step2_research/research.py:109-127 | both lists empty on failure; otherwise the learnings and follow-ups are prefixes of the parsed lists, of lengths `min(5, len)` and `min(3, len)` as passed |
| `Research.UrlsOf` | step2_research/research.py:160 | `[result.url for result in results]`, one URL per result in order |
| `Research.CopyOrEmpty` | step2_research/research.py:139-140 | `x.copy() if x else []`: a missing or empty seed gives `[]`, any other seed itself; `NoneSeedIsEmptySeed` states the consequence |
| `Research.Collapse` | step2_research/research.py:190-193 | the returned `ResearchResult` of `list(set(...))` of both lists; `ListOfSet` states its property |
| `Research.ChildBreadth` | step2_research/research.py:180 | `max(1, breadth // 2)`: at least 1, the floor of half for `breadth >= 2`, 1 below that, never above a positive `breadth` |
| `Research.QueryStep` | step2_research/research.py:159-169 | one query's search, URL list and synthesis; `FirecrawlSearch` and `ProcessSerpResult` state its parts, and `Level` and `QueryOutcome` build on it |
| `Research.Level` | step2_research/research.py:155-188 | the loop from one planned query on, with its accumulators and the log of what it produced; the accounting and shape lemmas state its properties |
| `Research.Research` | step2_research/research.py:139-193 | on success, both returned lists have no duplicate strings |
| `Research.DeepResearch` | step2_research/research.py:129-193 | the imperative loop and recursion return exactly what `Research` describes, the `IndexError` outcome included |
| `Research.QueryOutcome` | step2_research/research.py:159-188 | one pass of the loop body as a function; `ResearchQuery` is proved equal to it and `LevelFinishStep` ties it to `Level` |
| `Research.ResearchQuery` | step2_research/research.py:155-188 | one pass of the loop body (search, synthesize, extend both lists, and for `depth > 1` the nested call on the first follow-up, whose result replaces the lists) gives exactly `QueryOutcome`, the `IndexError` on no follow-ups included |
| `Research.LevelFinishStep` | step2_research/research.py:155-193 | the loop from index `i`, ending in deduplication, is one pass followed by the loop from `i + 1`; a failing pass ends it |
| `Research.ResearchAccounts` | step2_research/research.py:139-193 | the returned learnings (URLs) are, as a set, exactly the seed plus every learning synthesized (URL found) in this call and its subtree |
| `Research.LevelAccounts` | step2_research/research.py:155-188 | the loop's final accumulators are, as sets, its starting accumulators plus everything logged from this index on |
| `Research.DescendAccounts` | step2_research/research.py:176-188 | adopting the nested call's result loses nothing and adds only what the subtree produced |
| `Research.ThreeStageAccount` | step2_research/research.py:184-188 | the set bookkeeping of extend, then replace by the child result, then continue the loop |
| `Research.ResearchKeepsSeed` | step2_research/research.py:139-140 | every seed learning and seed URL is in the result |
| `Research.ResearchShape` | step2_research/research.py:176-181 | with `depth <= 1` the planner runs once and no nested call is made; otherwise the call tree has at most `depth` levels |
| `Research.LevelShape` | step2_research/research.py:176-186 | the loop makes nested calls only when `depth > 1`, each of height at most `depth - 1` |
| `Research.DescendShape` | step2_research/research.py:176-188 | a loop that descends at its current pass has call-tree height at most `depth - 1`, the nested call's bound included |
| `Research.DepthOneNeverRaises` | step2_research/research.py:176-179 | with `depth <= 1` the call always succeeds |
| `Research.LevelAtDepthOneOk` | step2_research/research.py:155-176 | the loop at `depth <= 1` always succeeds |
| `Research.FollowUpsPreventFailure` | step2_research/research.py:176-181 | if the model always answers with a follow-up question, the call always succeeds |
| `Research.FollowUpsPreventLevelFailure` | step2_research/research.py:155-188 | the same for the loop from any index |
| `Research.SynthesisFailureRaises` | step2_research/research.py:176-179 | with `depth > 1`, a failed synthesis for the first planned query makes the call fail with `IndexError` |
| `Research.NoneSeedIsEmptySeed` | step2_research/research.py:139-140 | a missing seed and an empty seed give the same outcome |
| `Reporting.DigitChar` | step3_reporting/reporting.py:19 | a digit character with the given value |
| `Reporting.Decimal` | step3_reporting/reporting.py:19 | the numeral is non-empty, all digits, with no leading zero for positive numbers |
| `Reporting.DecimalRoundTrip` | step3_reporting/reporting.py:19 | reading the numeral back gives the number |
| `Builtins.Join` | step3_reporting/reporting.py:18-20 | `sep.join(parts)`; `JoinAppend` and `JoinEmpty` state its properties |
| `Reporting.LearningEntry` | step3_reporting/reporting.py:19 | `f"### 학습 내용 {i+1}\n{learning}"` for one learning |
| `Reporting.LearningEntries` | step3_reporting/reporting.py:18-20 | the comprehension over `enumerate(learnings)`: the `k`-th entry is the `k`-th learning numbered `k + 1`; `LearningsBlockAppend` states its consequence |
| `Reporting.LearningsBlock` | step3_reporting/reporting.py:18-20 | the newline join of the numbered entries, before the cut; `LearningsBlockEmpty` and `LearningsBlockAppend` state its properties |
| `Reporting.LearningsFormatted` | step3_reporting/reporting.py:18-21 | `[:150000]` of the block: a prefix of the untruncated block of length exactly `min(150000, len(block))`, so the whole block when that is short enough |
| `Reporting.LearningsBlockEmpty` | step3_reporting/reporting.py:18-20 | the learnings block is empty iff there are no learnings |
| `Reporting.LearningsBlockAppend` | step3_reporting/reporting.py:18-20 | one more learning appends `"\n"` (unless first) and `"### 학습 내용 {n+1}\n{learning}"`, so entries are numbered consecutively from 1 |
| `Reporting.SourceLink` | step3_reporting/reporting.py:64 | `f"- [{url}]({url})"` for one URL |
| `Reporting.SourceLinks` | step3_reporting/reporting.py:64 | the link comprehension: one link per URL, in the URLs' order; `SourcesSectionAppend` states its consequence |
| `Reporting.SourcesSection` | step3_reporting/reporting.py:63-65 | the heading followed by the newline join of the links; `SourcesSectionEmpty` and `SourcesSectionAppend` state its properties |
| `Reporting.SourcesSectionEmpty` | step3_reporting/reporting.py:63-65 | with no URLs the sources section is its heading `"\n\n## 참고 문헌\n"` |
| `Reporting.SourcesSectionAppend` | step3_reporting/reporting.py:63-65 | one more URL appends `"\n"` (unless first) and `"- [url](url)"`, so the links follow the input order |
| `Reporting.WriteFinalReport` | step3_reporting/reporting.py:46-72 | client raised: `UnboundResponse` escapes; parse failed: the fixed fallback text; success: the report body followed immediately by the sources section |
| `Reporting.FormatMarkdownSection` | step3_reporting/reporting.py:75-76 | the text is `"\n\n## "`, the title, `"\n\n"`, the content, each readable back at its position |

## Left out

- The Firecrawl client and the `FIRECRAWL_API_KEY` lookup, and the Ollama `chat` calls, are external services. They are fields of `Env` (for the report, a parameter) and are functions of the request. So two identical requests in one run get the same answer, which a real model at non-zero temperature need not do.
- Prompt wording, the pydantic schemas and JSON validation are left out. Parsing is modelled only as "returns the parsed lists or fails". The `"<문서>"` wrapping of the contents into one string (`research.py:96`) is prompt text: the model's synthesis oracle receives the list of contents.
- Validation of `SearchResult(**item)` is modelled as "every field present and a string"; pydantic's other coercions are not modelled.
- `print` diagnostics are console output with no contract.
- Python lists become Dafny sequences, which are values. So the copies at `research.py:139-140` and the fact that the caller's lists are never changed hold by construction; list aliasing is not modelled.
- The order of `list(set(...))` is a parameter of the environment. Nothing about the order of the returned lists is claimed.
- The search service's own promise to return at most `limit` hits is not part of this code; `timeout` and `limit` are passed on unchanged.
- `main.py` is interactive input, orchestration and writing `output/output.md`, so it is not part of this model. Because it does not enforce `breadth, depth >= 1`, the model accepts any integers.
- `step1_feedback/feedback.py` is a single model call and a slice, so it is not part of this model.
- Exceptions other than the two named above (interrupts, running out of memory) are not modelled.
