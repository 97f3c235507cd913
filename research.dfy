/**
  The research step (step2_research/research.py): the search filter, the query
  planner, the result synthesizer, and the recursive breadth/depth-bounded
  expansion `deep_research` that threads learnings and visited URLs through
  the tree of queries and deduplicates them on return.

  The search service, the language model and the runtime's set iteration
  order are not visible to this code; they are the fields of an `Env`, total
  functions of the request they are given.
 */
module Research {
  import opened Wrappers
  import opened Builtins

  /** One field of one search hit as the JSON carries it: missing, a string, or some other value. */
  datatype Json = Absent | Text(s: string) | Other(truthy: bool)

  /** One raw search hit. */
  datatype RawItem = RawItem(url: Json, markdown: Json, description: Json, title: Json)

  /** What the search call gives back: it raised, or it returned a response whose "data" key may be missing. */
  datatype SearchResponse = SearchRaised | SearchReturned(data: Option<seq<RawItem>>)

  datatype SearchResult = SearchResult(url: string, markdown: string, description: string, title: string)

  datatype SerpQuery = SerpQuery(query: string, researchGoal: string)

  /** The model's parsed answer to a synthesis request. */
  datatype SerpResultResponse = SerpResultResponse(learnings: seq<string>, followUpQuestions: seq<string>)

  /** The dictionary `process_serp_result` returns. */
  datatype Processed = Processed(learnings: seq<string>, followUpQuestions: seq<string>)

  datatype ResearchResult = ResearchResult(learnings: seq<string>, visitedUrls: seq<string>)

  /** The one exception `deep_research` lets escape: indexing an empty follow-up list. */
  datatype Failure = IndexError

  /**
    The collaborators. `search(query, timeout, limit)`; `plan(model, topic,
    priorLearnings, count)` is None when the client call or the JSON
    validation raises; `synthesize(model, query, contents, numLearnings,
    numFollowUps)` likewise; `setOrder` proposes the iteration order of a set.
   */
  datatype Env = Env(
    search: (string, int, int) -> SearchResponse,
    plan: (string, string, seq<string>, int) -> Option<seq<SerpQuery>>,
    synthesize: (string, string, seq<string>, int, int) -> Option<SerpResultResponse>,
    setOrder: seq<string> -> seq<string>)

  // Defaults of firecrawl_search and process_serp_result, and the per-document cap.
  const SearchTimeout: int := 15000
  const SearchLimit: int := 5
  const NumLearnings: int := 5
  const NumFollowUpQuestions: int := 3
  const MaxContentChars: int := 25000

  function Min(a: int, b: int): int { if a <= b then a else b }

  // ---------------------------------------------------------------------------
  // firecrawl_search
  // ---------------------------------------------------------------------------

  /** Python truthiness of a field value. */
  predicate Truthy(j: Json) {
    match j
    case Absent => false
    case Text(s) => s != ""
    case Other(t) => t
  }

  /** `"markdown" in item and item["markdown"]` */
  predicate HasMarkdown(item: RawItem) {
    Truthy(item.markdown)
  }

  /** `SearchResult(**item)`: None when validation raises, i.e. some field is missing or not a string. */
  function ToSearchResult(item: RawItem): Option<SearchResult> {
    match (item.url, item.markdown, item.description, item.title)
    case (Text(u), Text(m), Text(d), Text(t)) => Some(SearchResult(u, m, d, t))
    case _ => None
  }

  /** Validation succeeds exactly when all four fields are strings, and keeps the URL and the markdown. */
  lemma ToSearchResultSpec(item: RawItem)
    ensures ToSearchResult(item).Some? <==>
      item.url.Text? && item.markdown.Text? && item.description.Text? && item.title.Text?
    ensures ToSearchResult(item).Some? ==>
      ToSearchResult(item).value.url == item.url.s && ToSearchResult(item).value.markdown == item.markdown.s
  {
  }

  /** The hits the loop tries to keep, in source order. */
  function KeptItems(items: seq<RawItem>): seq<RawItem>
    decreases |items|
  {
    if items == [] then []
    else
      var last := items[|items| - 1];
      KeptItems(items[..|items| - 1]) + (if HasMarkdown(last) then [last] else [])
  }

  /** Converts every hit, or fails if any one of them fails. */
  function ValidateAll(items: seq<RawItem>): Option<seq<SearchResult>>
    decreases |items|
  {
    if items == [] then Some([])
    else
      match (ValidateAll(items[..|items| - 1]), ToSearchResult(items[|items| - 1]))
      case (Some(vs), Some(v)) => Some(vs + [v])
      case _ => None
  }

  /** Validation succeeds iff every hit converts, and then each result is the conversion of its hit. */
  lemma {:induction false} ValidateAllSpec(items: seq<RawItem>)
    ensures var r := ValidateAll(items);
      (r.Some? <==> forall k :: 0 <= k < |items| ==> ToSearchResult(items[k]).Some?) &&
      (r.Some? ==>
        |r.value| == |items| &&
        forall k :: 0 <= k < |items| ==> ToSearchResult(items[k]) == Some(r.value[k]))
    decreases |items|
  {
    if items != [] {
      var init := items[..|items| - 1];
      ValidateAllSpec(init);
      assert forall k :: 0 <= k < |init| ==> items[k] == init[k];
    }
  }

  /** The value `firecrawl_search` returns for a response of the search service. */
  function SearchOutcome(response: SearchResponse): seq<SearchResult> {
    match response
    case SearchRaised => []
    case SearchReturned(data) => ValidateAll(KeptItems(data.GetOr([]))).GetOr([])
  }

  /**
    The search filter: nothing when the call raises or some hit with markdown
    does not validate; otherwise one result per hit with markdown, in source
    order, each with non-empty markdown.
   */
  lemma SearchOutcomeSpec(response: SearchResponse)
    ensures var r := SearchOutcome(response);
      (response.SearchRaised? ==> r == []) &&
      (response.SearchReturned? ==>
        var kept := KeptItems(response.data.GetOr([]));
        if forall k :: 0 <= k < |kept| ==> ToSearchResult(kept[k]).Some? then
          |r| == |kept| && forall k :: 0 <= k < |kept| ==> ToSearchResult(kept[k]) == Some(r[k])
        else r == []) &&
      (forall k :: 0 <= k < |r| ==> r[k].markdown != "")
  {
    if response.SearchReturned? {
      var kept := KeptItems(response.data.GetOr([]));
      KeptHaveMarkdown(response.data.GetOr([]));
      ValidateAllSpec(kept);
    }
  }

  lemma {:induction false} KeptHaveMarkdown(items: seq<RawItem>)
    ensures forall k :: 0 <= k < |KeptItems(items)| ==> HasMarkdown(KeptItems(items)[k])
    decreases |items|
  {
    if items != [] {
      KeptHaveMarkdown(items[..|items| - 1]);
    }
  }

  /** The hits kept are exactly those with a truthy markdown. */
  lemma {:induction false} KeptItemsMembers(items: seq<RawItem>, x: RawItem)
    ensures x in KeptItems(items) <==> x in items && HasMarkdown(x)
    decreases |items|
  {
    if items != [] {
      var init := items[..|items| - 1];
      KeptItemsMembers(init, x);
      assert items == init + [items[|items| - 1]];
    }
  }

  /** Filtering keeps source order: it distributes over concatenation. */
  lemma {:induction false} KeptItemsAppend(a: seq<RawItem>, b: seq<RawItem>)
    ensures KeptItems(a + b) == KeptItems(a) + KeptItems(b)
    decreases |b|
  {
    if b == [] {
      assert a + b == a;
    } else {
      var init := b[..|b| - 1];
      KeptItemsAppend(a, init);
      assert (a + b)[..|a + b| - 1] == a + init;
    }
  }

  /**
    firecrawl_search: one call to the search service, then the loop that keeps
    the hits with markdown; any exception (from the call or from building a
    SearchResult) makes the whole result empty.
   */
  method FirecrawlSearch(env: Env, query: string, timeout: int, limit: int) returns (results: seq<SearchResult>)
    ensures results == SearchOutcome(env.search(query, timeout, limit))
  {
    var response := env.search(query, timeout, limit);
    if response.SearchRaised? {
      return [];
    }
    var items := response.data.GetOr([]);
    var validResults: seq<SearchResult> := [];
    var i := 0;
    while i < |items|
      invariant 0 <= i <= |items|
      invariant ValidateAll(KeptItems(items[..i])) == Some(validResults)
    {
      var item := items[i];
      ghost var prev := KeptItems(items[..i]);
      assert items[..i + 1][..i] == items[..i];
      assert KeptItems(items[..i + 1]) == prev + (if HasMarkdown(item) then [item] else []);
      if HasMarkdown(item) {
        var converted := ToSearchResult(item);
        if converted.None? {
          var kept := KeptItems(items[..i + 1]);
          assert kept[|kept| - 1] == item;
          KeptItemsAppend(items[..i + 1], items[i + 1..]);
          assert items[..i + 1] + items[i + 1..] == items;
          assert KeptItems(items)[|kept| - 1] == item;
          ValidateAllSpec(KeptItems(items));
          return [];
        }
        ghost var ext := prev + [item];
        assert ext[..|ext| - 1] == prev;
        assert ValidateAll(ext) == Some(validResults + [converted.value]);
        validResults := validResults + [converted.value];
      } else {
        assert KeptItems(items[..i + 1]) == prev;
      }
      i := i + 1;
    }
    assert items[..i] == items;
    results := validResults;
  }

  // ---------------------------------------------------------------------------
  // generate_serp_queries
  // ---------------------------------------------------------------------------

  /**
    generate_serp_queries: at most `numQueries` of the planned queries, from
    the front of the parsed list, and none when the call or the parse fails.
    A missing or empty `learnings` reaches the model the same way.
   */
  function GenerateSerpQueries(env: Env, query: string, model: string, numQueries: int,
                               learnings: Option<seq<string>>): (r: seq<SerpQuery>)
    ensures env.plan(model, query, learnings.GetOr([]), numQueries).None? ==> r == []
    ensures env.plan(model, query, learnings.GetOr([]), numQueries).Some? ==>
      var parsed := env.plan(model, query, learnings.GetOr([]), numQueries).value;
      IsPrefix(r, parsed) && (numQueries >= 0 ==> |r| == Min(numQueries, |parsed|)) &&
      (numQueries < 0 ==> |r| == if -numQueries <= |parsed| then |parsed| + numQueries else 0)
  {
    match env.plan(model, query, learnings.GetOr([]), numQueries)
    case None => []
    case Some(parsed) => Prefix(parsed, numQueries)
  }

  // ---------------------------------------------------------------------------
  // process_serp_result
  // ---------------------------------------------------------------------------

  /** The document texts sent to the model: each non-empty markdown cut to its first 25000 characters. */
  function Contents(results: seq<SearchResult>): seq<string>
    decreases |results|
  {
    if results == [] then []
    else
      var last := results[|results| - 1];
      Contents(results[..|results| - 1]) + (if last.markdown != "" then [Prefix(last.markdown, MaxContentChars)] else [])
  }

  /**
    Each content is non-empty, at most 25000 characters and a prefix of some
    non-empty markdown; every non-empty markdown contributes its first 25000
    characters; nothing else is added.
   */
  lemma ContentsSpec(results: seq<SearchResult>)
    ensures var cs := Contents(results);
      |cs| <= |results| &&
      (forall k :: 0 <= k < |cs| ==>
        cs[k] != "" && |cs[k]| <= MaxContentChars &&
        exists j :: 0 <= j < |results| && results[j].markdown != "" && IsPrefix(cs[k], results[j].markdown)) &&
      (forall j :: 0 <= j < |results| && results[j].markdown != "" ==>
        Prefix(results[j].markdown, MaxContentChars) in cs)
  {
    ContentsSound(results);
    ContentsComplete(results);
  }

  /** Every content comes from the non-empty markdown of some result. */
  lemma {:induction false} ContentsSound(results: seq<SearchResult>)
    ensures var cs := Contents(results);
      |cs| <= |results| &&
      forall k :: 0 <= k < |cs| ==>
        cs[k] != "" && |cs[k]| <= MaxContentChars &&
        exists j :: 0 <= j < |results| && results[j].markdown != "" && IsPrefix(cs[k], results[j].markdown)
    decreases |results|
  {
    if results != [] {
      var init := results[..|results| - 1];
      var last := results[|results| - 1];
      ContentsSound(init);
      var cs := Contents(init);
      var all := Contents(results);
      assert all == cs + (if last.markdown != "" then [Prefix(last.markdown, MaxContentChars)] else []);
      forall k | 0 <= k < |all|
        ensures all[k] != "" && |all[k]| <= MaxContentChars &&
          exists j :: 0 <= j < |results| && results[j].markdown != "" && IsPrefix(all[k], results[j].markdown)
      {
        if k < |cs| {
          assert all[k] == cs[k];
          var j :| 0 <= j < |init| && init[j].markdown != "" && IsPrefix(cs[k], init[j].markdown);
          assert results[j] == init[j];
        } else {
          assert all[k] == Prefix(last.markdown, MaxContentChars);
          assert IsPrefix(all[k], results[|results| - 1].markdown);
        }
      }
    }
  }

  /** Every non-empty markdown contributes its first 25000 characters. */
  lemma {:induction false} ContentsComplete(results: seq<SearchResult>)
    ensures forall j :: 0 <= j < |results| && results[j].markdown != "" ==>
      Prefix(results[j].markdown, MaxContentChars) in Contents(results)
    decreases |results|
  {
    if results != [] {
      var init := results[..|results| - 1];
      var last := results[|results| - 1];
      ContentsComplete(init);
      var cs := Contents(init);
      var all := Contents(results);
      assert all == cs + (if last.markdown != "" then [Prefix(last.markdown, MaxContentChars)] else []);
      forall j | 0 <= j < |results| && results[j].markdown != ""
        ensures Prefix(results[j].markdown, MaxContentChars) in all
      {
        if j < |init| {
          assert results[j] == init[j];
          assert Prefix(init[j].markdown, MaxContentChars) in cs;
        }
      }
    }
  }

  /**
    When every result has non-empty markdown, as every result of the search
    filter does, there is exactly one content per result, in the results' order.
   */
  lemma {:induction false} ContentsInOrder(results: seq<SearchResult>)
    requires forall j :: 0 <= j < |results| ==> results[j].markdown != ""
    ensures |Contents(results)| == |results|
    ensures forall j :: 0 <= j < |results| ==> Contents(results)[j] == Prefix(results[j].markdown, MaxContentChars)
    decreases |results|
  {
    if results != [] {
      var init := results[..|results| - 1];
      assert forall j :: 0 <= j < |init| ==> init[j] == results[j];
      ContentsInOrder(init);
      assert Contents(results) == Contents(init) + [Prefix(results[|results| - 1].markdown, MaxContentChars)];
    }
  }

  /**
    process_serp_result: at most `numLearnings` learnings and at most
    `numFollowUps` follow-up questions, each a prefix of what the model
    answered; both empty when the call or the parse fails.
   */
  function ProcessSerpResult(env: Env, query: string, results: seq<SearchResult>, model: string,
                             numLearnings: int, numFollowUps: int): (p: Processed)
    ensures env.synthesize(model, query, Contents(results), numLearnings, numFollowUps).None? ==>
      p == Processed([], [])
    ensures env.synthesize(model, query, Contents(results), numLearnings, numFollowUps).Some? ==>
      var parsed := env.synthesize(model, query, Contents(results), numLearnings, numFollowUps).value;
      IsPrefix(p.learnings, parsed.learnings) &&
      IsPrefix(p.followUpQuestions, parsed.followUpQuestions) &&
      (numLearnings >= 0 ==> |p.learnings| == Min(numLearnings, |parsed.learnings|)) &&
      (numFollowUps >= 0 ==> |p.followUpQuestions| == Min(numFollowUps, |parsed.followUpQuestions|))
  {
    match env.synthesize(model, query, Contents(results), numLearnings, numFollowUps)
    case None => Processed([], [])
    case Some(parsed) =>
      Processed(Prefix(parsed.learnings, numLearnings), Prefix(parsed.followUpQuestions, numFollowUps))
  }

  // ---------------------------------------------------------------------------
  // deep_research
  // ---------------------------------------------------------------------------

  /** `[result.url for result in results]` */
  function UrlsOf(results: seq<SearchResult>): seq<string> {
    seq(|results|, k requires 0 <= k < |results| => results[k].url)
  }

  /** `xs.copy() if xs else []`: a missing seed and an empty one both start empty. */
  function CopyOrEmpty(xs: Option<seq<string>>): seq<string> {
    match xs
    case None => []
    case Some(s) => s
  }

  /** `max(1, breadth // 2)`; Dafny's `/` by a positive divisor floors, as Python's `//` does. */
  function ChildBreadth(breadth: int): (b: int)
    ensures b >= 1
    ensures breadth >= 2 ==> 2 * b <= breadth < 2 * b + 2
    ensures breadth < 2 ==> b == 1
    ensures breadth >= 1 ==> b <= breadth
  {
    if breadth / 2 > 1 then breadth / 2 else 1
  }

  /**
    A record of what one call and its subtree did: every synthesized learning
    and every search-result URL in execution order, the number of planner
    calls, and the height of the call tree.
   */
  datatype Log = Log(learned: seq<string>, found: seq<string>, plans: nat, height: nat)

  function Combine(a: Log, b: Log): Log {
    Log(a.learned + b.learned, a.found + b.found, a.plans + b.plans,
        if a.height >= b.height then a.height else b.height)
  }

  /** The accumulators after the loop over planned queries, and the log of the nested calls it made. */
  datatype Walk = Walk(learnings: seq<string>, urls: seq<string>, log: Log)

  /** What `deep_research` returns, with its log. */
  datatype Run = Run(result: ResearchResult, log: Log)

  /** `ResearchResult(learnings=list(set(...)), visited_urls=list(set(...)))` */
  function Collapse(env: Env, learnings: seq<string>, urls: seq<string>): ResearchResult {
    ResearchResult(ListOfSet(env.setOrder, learnings), ListOfSet(env.setOrder, urls))
  }

  /** One planned query's search and synthesis: the URLs found and the processed answer. */
  datatype Step = Step(urls: seq<string>, processed: Processed)

  ghost function QueryStep(env: Env, model: string, q: string): Step {
    var results := SearchOutcome(env.search(q, SearchTimeout, SearchLimit));
    Step(UrlsOf(results), ProcessSerpResult(env, q, results, model, NumLearnings, NumFollowUpQuestions))
  }

  /** The loop of deep_research over `queries`, from index `i` on, with the accumulators so far. */
  ghost function Level(env: Env, model: string, queries: seq<SerpQuery>, i: nat, breadth: int, depth: int,
                       learnings: seq<string>, urls: seq<string>): Result<Walk, Failure>
    requires i <= |queries|
    decreases depth, 0, |queries| - i
  {
    if i == |queries| then Ok(Walk(learnings, urls, Log([], [], 0, 0)))
    else
      var s := QueryStep(env, model, queries[i].query);
      var l := learnings + s.processed.learnings;
      var u := urls + s.urls;
      var step := Log(s.processed.learnings, s.urls, 0, 0);
      if depth > 1 then
        if s.processed.followUpQuestions == [] then Err(IndexError)
        else
          match Research(env, s.processed.followUpQuestions[0], ChildBreadth(breadth), depth - 1, model, Some(l), Some(u))
          case Err(e) => Err(e)
          case Ok(sub) =>
            match Level(env, model, queries, i + 1, breadth, depth, sub.result.learnings, sub.result.visitedUrls)
            case Err(e) => Err(e)
            case Ok(w) => Ok(Walk(w.learnings, w.urls, Combine(step, Combine(sub.log, w.log))))
      else
        match Level(env, model, queries, i + 1, breadth, depth, l, u)
        case Err(e) => Err(e)
        case Ok(w) => Ok(Walk(w.learnings, w.urls, Combine(step, w.log)))
  }

  /**
    deep_research, as a function: copy the seeds, plan `breadth` queries, run
    the loop, deduplicate both lists. The only way it fails is the unguarded
    `followUpQuestions[0]`.
   */
  ghost function Research(env: Env, query: string, breadth: int, depth: int, model: string,
                          learnings: Option<seq<string>>, visitedUrls: Option<seq<string>>): (r: Result<Run, Failure>)
    ensures r.Ok? ==> NoDups(r.value.result.learnings) && NoDups(r.value.result.visitedUrls)
    decreases depth, 1, 0
  {
    var seedL := CopyOrEmpty(learnings);
    var seedU := CopyOrEmpty(visitedUrls);
    var queries := GenerateSerpQueries(env, query, model, breadth, Some(seedL));
    match Level(env, model, queries, 0, breadth, depth, seedL, seedU)
    case Err(e) => Err(e)
    case Ok(w) =>
      Ok(Run(Collapse(env, w.learnings, w.urls),
             Log(w.log.learned, w.log.found, w.log.plans + 1, w.log.height + 1)))
  }

  /** The returned value of the loop from index `i` on, once deduplicated. */
  ghost function Finish(env: Env, w: Result<Walk, Failure>): Result<ResearchResult, Failure> {
    match w
    case Err(e) => Err(e)
    case Ok(w) => Ok(Collapse(env, w.learnings, w.urls))
  }

  ghost function ResultOf(r: Result<Run, Failure>): Result<ResearchResult, Failure> {
    match r
    case Err(e) => Err(e)
    case Ok(run) => Ok(run.result)
  }

  /**
    One pass of the loop body for the planned query `q`, given the
    accumulators: search, synthesize, extend both lists, and when `depth > 1`
    descend into the first follow-up question and adopt the child's result.
   */
  ghost function QueryOutcome(env: Env, model: string, q: string, breadth: int, depth: int,
                              learnings: seq<string>, urls: seq<string>): Result<(seq<string>, seq<string>), Failure>
    decreases depth, 0, 0
  {
    var s := QueryStep(env, model, q);
    var l := learnings + s.processed.learnings;
    var u := urls + s.urls;
    if depth <= 1 then Ok((l, u))
    else if s.processed.followUpQuestions == [] then Err(IndexError)
    else
      match ResultOf(Research(env, s.processed.followUpQuestions[0], ChildBreadth(breadth), depth - 1, model, Some(l), Some(u)))
      case Err(e) => Err(e)
      case Ok(sub) => Ok((sub.learnings, sub.visitedUrls))
  }

  /** The loop from index `i`, seen through its deduplicated result, is one pass followed by the rest. */
  lemma LevelFinishStep(env: Env, model: string, queries: seq<SerpQuery>, i: nat,
                        breadth: int, depth: int, learnings: seq<string>, urls: seq<string>)
    requires i < |queries|
    ensures Finish(env, Level(env, model, queries, i, breadth, depth, learnings, urls))
      == match QueryOutcome(env, model, queries[i].query, breadth, depth, learnings, urls)
         case Err(e) => Err(e)
         case Ok(next) => Finish(env, Level(env, model, queries, i + 1, breadth, depth, next.0, next.1))
  {
  }

  /**
    deep_research: copy the seeds, plan, run the loop over the planned
    queries, deduplicate. The working lists are local values that each pass
    replaces; the result is exactly what `Research` describes.
   */
  method DeepResearch(env: Env, query: string, breadth: int, depth: int, model: string,
                      learnings: Option<seq<string>>, visitedUrls: Option<seq<string>>)
    returns (r: Result<ResearchResult, Failure>)
    ensures r == ResultOf(Research(env, query, breadth, depth, model, learnings, visitedUrls))
    decreases depth, 1
  {
    var currentLearnings := CopyOrEmpty(learnings);
    var currentUrls := CopyOrEmpty(visitedUrls);
    ghost var seedL, seedU := currentLearnings, currentUrls;

    var serpQueries := GenerateSerpQueries(env, query, model, breadth, Some(currentLearnings));

    var i := 0;
    while i < |serpQueries|
      invariant 0 <= i <= |serpQueries|
      invariant Finish(env, Level(env, model, serpQueries, 0, breadth, depth, seedL, seedU))
             == Finish(env, Level(env, model, serpQueries, i, breadth, depth, currentLearnings, currentUrls))
    {
      LevelFinishStep(env, model, serpQueries, i, breadth, depth, currentLearnings, currentUrls);
      var next := ResearchQuery(env, model, serpQueries[i].query, breadth, depth, currentLearnings, currentUrls);
      if next.Err? {
        return Err(next.error);
      }
      currentLearnings, currentUrls := next.value.0, next.value.1;
      i := i + 1;
    }
    r := Ok(Collapse(env, currentLearnings, currentUrls));
  }

  /**
    The body of deep_research's loop for one planned query. The `+=` on both
    working lists, then, when `depth > 1`, the unguarded
    `followUpQuestions[0]` and the nested call whose result replaces them.
   */
  method ResearchQuery(env: Env, model: string, q: string, breadth: int, depth: int,
                       learnings: seq<string>, urls: seq<string>)
    returns (r: Result<(seq<string>, seq<string>), Failure>)
    ensures r == QueryOutcome(env, model, q, breadth, depth, learnings, urls)
    decreases depth, 0
  {
    var results := FirecrawlSearch(env, q, SearchTimeout, SearchLimit);
    var newUrls := UrlsOf(results);
    var processed := ProcessSerpResult(env, q, results, model, NumLearnings, NumFollowUpQuestions);
    assert QueryStep(env, model, q) == Step(newUrls, processed);

    var currentLearnings := learnings + processed.learnings;
    var currentUrls := urls + newUrls;

    if depth > 1 {
      if processed.followUpQuestions == [] {
        return Err(IndexError);
      }
      var sub := DeepResearch(env, processed.followUpQuestions[0], ChildBreadth(breadth), depth - 1, model,
                              Some(currentLearnings), Some(currentUrls));
      if sub.Err? {
        return Err(sub.error);
      }
      currentLearnings := sub.value.learnings;
      currentUrls := sub.value.visitedUrls;
    }
    r := Ok((currentLearnings, currentUrls));
  }

  // ---------------------------------------------------------------------------
  // Properties of deep_research
  // ---------------------------------------------------------------------------

  /**
    Exact accounting: what a call returns is, as a set, its seed plus every
    learning synthesized and every URL found in it and in its subtree.
   */
  lemma {:induction false} ResearchAccounts(env: Env, query: string, breadth: int, depth: int, model: string,
                                            learnings: Option<seq<string>>, visitedUrls: Option<seq<string>>)
    requires Research(env, query, breadth, depth, model, learnings, visitedUrls).Ok?
    ensures var run := Research(env, query, breadth, depth, model, learnings, visitedUrls).value;
      Elems(run.result.learnings) == Elems(CopyOrEmpty(learnings)) + Elems(run.log.learned) &&
      Elems(run.result.visitedUrls) == Elems(CopyOrEmpty(visitedUrls)) + Elems(run.log.found)
    decreases depth, 1, 0
  {
    var seedL := CopyOrEmpty(learnings);
    var seedU := CopyOrEmpty(visitedUrls);
    var queries := GenerateSerpQueries(env, query, model, breadth, Some(seedL));
    LevelAccounts(env, model, queries, 0, breadth, depth, seedL, seedU);
  }

  lemma {:induction false} LevelAccounts(env: Env, model: string, queries: seq<SerpQuery>, i: nat,
                                         breadth: int, depth: int, learnings: seq<string>, urls: seq<string>)
    requires i <= |queries|
    requires Level(env, model, queries, i, breadth, depth, learnings, urls).Ok?
    ensures var w := Level(env, model, queries, i, breadth, depth, learnings, urls).value;
      Elems(w.learnings) == Elems(learnings) + Elems(w.log.learned) &&
      Elems(w.urls) == Elems(urls) + Elems(w.log.found)
    decreases depth, 0, |queries| - i
  {
    if i < |queries| {
      if depth > 1 {
        DescendAccounts(env, model, queries, i, breadth, depth, learnings, urls);
      } else {
        var s := QueryStep(env, model, queries[i].query);
        var l := learnings + s.processed.learnings;
        var u := urls + s.urls;
        var rest := Level(env, model, queries, i + 1, breadth, depth, l, u).value;
        assert Level(env, model, queries, i, breadth, depth, learnings, urls).value
            == Walk(rest.learnings, rest.urls, Combine(Log(s.processed.learnings, s.urls, 0, 0), rest.log));
        LevelAccounts(env, model, queries, i + 1, breadth, depth, l, u);
        ElemsConcat(learnings, s.processed.learnings);
        ElemsConcat(urls, s.urls);
        ElemsConcat(s.processed.learnings, rest.log.learned);
        ElemsConcat(s.urls, rest.log.found);
      }
    }
  }

  /** One iteration that descends into the first follow-up question. */
  lemma {:induction false} DescendAccounts(env: Env, model: string, queries: seq<SerpQuery>, i: nat,
                                           breadth: int, depth: int, learnings: seq<string>, urls: seq<string>)
    requires i < |queries| && depth > 1
    requires Level(env, model, queries, i, breadth, depth, learnings, urls).Ok?
    ensures var w := Level(env, model, queries, i, breadth, depth, learnings, urls).value;
      Elems(w.learnings) == Elems(learnings) + Elems(w.log.learned) &&
      Elems(w.urls) == Elems(urls) + Elems(w.log.found)
    decreases depth, 0, |queries| - i, 0
  {
    var s := QueryStep(env, model, queries[i].query);
    var l := learnings + s.processed.learnings;
    var u := urls + s.urls;
    var topic := s.processed.followUpQuestions[0];
    var sub := Research(env, topic, ChildBreadth(breadth), depth - 1, model, Some(l), Some(u)).value;
    var rest := Level(env, model, queries, i + 1, breadth, depth, sub.result.learnings, sub.result.visitedUrls).value;
    assert Level(env, model, queries, i, breadth, depth, learnings, urls).value
        == Walk(rest.learnings, rest.urls, Combine(Log(s.processed.learnings, s.urls, 0, 0), Combine(sub.log, rest.log)));
    ResearchAccounts(env, topic, ChildBreadth(breadth), depth - 1, model, Some(l), Some(u));
    LevelAccounts(env, model, queries, i + 1, breadth, depth, sub.result.learnings, sub.result.visitedUrls);
    ThreeStageAccount(learnings, s.processed.learnings, sub.result.learnings, sub.log.learned, rest.learnings, rest.log.learned);
    ThreeStageAccount(urls, s.urls, sub.result.visitedUrls, sub.log.found, rest.urls, rest.log.found);
  }

  /** Set bookkeeping for one descending iteration: append, child call, rest of the loop. */
  lemma ThreeStageAccount(acc: seq<string>, added: seq<string>, child: seq<string>, childLog: seq<string>,
                          final: seq<string>, restLog: seq<string>)
    requires Elems(child) == Elems(acc + added) + Elems(childLog)
    requires Elems(final) == Elems(child) + Elems(restLog)
    ensures Elems(final) == Elems(acc) + Elems(added + (childLog + restLog))
  {
    ElemsConcat(acc, added);
    ElemsConcat(added, childLog + restLog);
    ElemsConcat(childLog, restLog);
  }

  /** Every seed learning and seed URL is in the result. */
  lemma ResearchKeepsSeed(env: Env, query: string, breadth: int, depth: int, model: string,
                          learnings: Option<seq<string>>, visitedUrls: Option<seq<string>>)
    requires Research(env, query, breadth, depth, model, learnings, visitedUrls).Ok?
    ensures var res := Research(env, query, breadth, depth, model, learnings, visitedUrls).value.result;
      Elems(CopyOrEmpty(learnings)) <= Elems(res.learnings) &&
      Elems(CopyOrEmpty(visitedUrls)) <= Elems(res.visitedUrls)
  {
    ResearchAccounts(env, query, breadth, depth, model, learnings, visitedUrls);
  }

  /**
    The recursion is bounded by `depth`: with `depth <= 1` the planner runs
    once and no nested call is made; otherwise the call tree has at most
    `depth` levels.
   */
  lemma {:induction false} ResearchShape(env: Env, query: string, breadth: int, depth: int, model: string,
                                         learnings: Option<seq<string>>, visitedUrls: Option<seq<string>>)
    requires Research(env, query, breadth, depth, model, learnings, visitedUrls).Ok?
    ensures var log := Research(env, query, breadth, depth, model, learnings, visitedUrls).value.log;
      (depth <= 1 ==> log.plans == 1 && log.height == 1) &&
      (depth >= 1 ==> log.height <= depth)
    decreases depth, 1, 0
  {
    var seedL := CopyOrEmpty(learnings);
    var queries := GenerateSerpQueries(env, query, model, breadth, Some(seedL));
    LevelShape(env, model, queries, 0, breadth, depth, seedL, CopyOrEmpty(visitedUrls));
  }

  lemma {:induction false} LevelShape(env: Env, model: string, queries: seq<SerpQuery>, i: nat,
                                      breadth: int, depth: int, learnings: seq<string>, urls: seq<string>)
    requires i <= |queries|
    requires Level(env, model, queries, i, breadth, depth, learnings, urls).Ok?
    ensures var log := Level(env, model, queries, i, breadth, depth, learnings, urls).value.log;
      (depth <= 1 ==> log.plans == 0 && log.height == 0) &&
      (depth > 1 ==> log.height <= depth - 1)
    decreases depth, 0, |queries| - i
  {
    if i < |queries| {
      if depth > 1 {
        DescendShape(env, model, queries, i, breadth, depth, learnings, urls);
      } else {
        var s := QueryStep(env, model, queries[i].query);
        var l := learnings + s.processed.learnings;
        var u := urls + s.urls;
        var rest := Level(env, model, queries, i + 1, breadth, depth, l, u).value;
        assert Level(env, model, queries, i, breadth, depth, learnings, urls).value.log
            == Combine(Log(s.processed.learnings, s.urls, 0, 0), rest.log);
        LevelShape(env, model, queries, i + 1, breadth, depth, l, u);
      }
    }
  }

  /** One iteration that descends: the child's tree is at most `depth - 1` high. */
  lemma {:induction false} DescendShape(env: Env, model: string, queries: seq<SerpQuery>, i: nat,
                                        breadth: int, depth: int, learnings: seq<string>, urls: seq<string>)
    requires i < |queries| && depth > 1
    requires Level(env, model, queries, i, breadth, depth, learnings, urls).Ok?
    ensures Level(env, model, queries, i, breadth, depth, learnings, urls).value.log.height <= depth - 1
    decreases depth, 0, |queries| - i, 0
  {
    var s := QueryStep(env, model, queries[i].query);
    var l := learnings + s.processed.learnings;
    var u := urls + s.urls;
    var topic := s.processed.followUpQuestions[0];
    var sub := Research(env, topic, ChildBreadth(breadth), depth - 1, model, Some(l), Some(u)).value;
    var rest := Level(env, model, queries, i + 1, breadth, depth, sub.result.learnings, sub.result.visitedUrls).value;
    assert Level(env, model, queries, i, breadth, depth, learnings, urls).value.log
        == Combine(Log(s.processed.learnings, s.urls, 0, 0), Combine(sub.log, rest.log));
    ResearchShape(env, topic, ChildBreadth(breadth), depth - 1, model, Some(l), Some(u));
    LevelShape(env, model, queries, i + 1, breadth, depth, sub.result.learnings, sub.result.visitedUrls);
  }

  /** With `depth <= 1` nothing is indexed, so the call cannot fail. */
  lemma {:induction false} DepthOneNeverRaises(env: Env, query: string, breadth: int, depth: int, model: string,
                                               learnings: Option<seq<string>>, visitedUrls: Option<seq<string>>)
    requires depth <= 1
    ensures Research(env, query, breadth, depth, model, learnings, visitedUrls).Ok?
  {
    var seedL := CopyOrEmpty(learnings);
    var queries := GenerateSerpQueries(env, query, model, breadth, Some(seedL));
    LevelAtDepthOneOk(env, model, queries, 0, breadth, depth, seedL, CopyOrEmpty(visitedUrls));
  }

  lemma {:induction false} LevelAtDepthOneOk(env: Env, model: string, queries: seq<SerpQuery>, i: nat,
                                             breadth: int, depth: int, learnings: seq<string>, urls: seq<string>)
    requires i <= |queries| && depth <= 1
    ensures Level(env, model, queries, i, breadth, depth, learnings, urls).Ok?
    decreases |queries| - i
  {
    if i < |queries| {
      var s := QueryStep(env, model, queries[i].query);
      LevelAtDepthOneOk(env, model, queries, i + 1, breadth, depth,
                        learnings + s.processed.learnings, urls + s.urls);
    }
  }

  /** A model that always answers with at least one follow-up question never makes the call fail. */
  ghost predicate AlwaysFollowsUp(env: Env) {
    forall m, q, c, nl, nf :: env.synthesize(m, q, c, nl, nf).Some? &&
      env.synthesize(m, q, c, nl, nf).value.followUpQuestions != []
  }

  lemma {:induction false} FollowUpsPreventFailure(env: Env, query: string, breadth: int, depth: int, model: string,
                                                   learnings: Option<seq<string>>, visitedUrls: Option<seq<string>>)
    requires AlwaysFollowsUp(env)
    ensures Research(env, query, breadth, depth, model, learnings, visitedUrls).Ok?
    decreases depth, 1, 0
  {
    var seedL := CopyOrEmpty(learnings);
    var queries := GenerateSerpQueries(env, query, model, breadth, Some(seedL));
    FollowUpsPreventLevelFailure(env, model, queries, 0, breadth, depth, seedL, CopyOrEmpty(visitedUrls));
  }

  lemma {:induction false} FollowUpsPreventLevelFailure(env: Env, model: string, queries: seq<SerpQuery>, i: nat,
                                                        breadth: int, depth: int, learnings: seq<string>, urls: seq<string>)
    requires AlwaysFollowsUp(env)
    requires i <= |queries|
    ensures Level(env, model, queries, i, breadth, depth, learnings, urls).Ok?
    decreases depth, 0, |queries| - i
  {
    if i < |queries| {
      var s := QueryStep(env, model, queries[i].query);
      var processed := s.processed;
      var l := learnings + processed.learnings;
      var u := urls + s.urls;
      var q := queries[i].query;
      assert env.synthesize(model, q, Contents(SearchOutcome(env.search(q, SearchTimeout, SearchLimit))),
                            NumLearnings, NumFollowUpQuestions).Some?;
      if depth > 1 {
        assert processed.followUpQuestions != [];
        FollowUpsPreventFailure(env, processed.followUpQuestions[0], ChildBreadth(breadth), depth - 1, model, Some(l), Some(u));
        var sub := Research(env, processed.followUpQuestions[0], ChildBreadth(breadth), depth - 1, model, Some(l), Some(u)).value;
        FollowUpsPreventLevelFailure(env, model, queries, i + 1, breadth, depth, sub.result.learnings, sub.result.visitedUrls);
      } else {
        FollowUpsPreventLevelFailure(env, model, queries, i + 1, breadth, depth, l, u);
      }
    }
  }

  /**
    The unguarded `followUpQuestions[0]`: with `depth > 1`, a failed synthesis
    for the first planned query (which yields no follow-ups) makes the whole
    call fail with IndexError.
   */
  lemma SynthesisFailureRaises(env: Env, query: string, breadth: int, depth: int, model: string,
                               learnings: Option<seq<string>>, visitedUrls: Option<seq<string>>)
    requires depth > 1
    requires var queries := GenerateSerpQueries(env, query, model, breadth, Some(CopyOrEmpty(learnings)));
      queries != [] &&
      env.synthesize(model, queries[0].query,
                     Contents(SearchOutcome(env.search(queries[0].query, SearchTimeout, SearchLimit))),
                     NumLearnings, NumFollowUpQuestions).None?
    ensures Research(env, query, breadth, depth, model, learnings, visitedUrls) == Err(IndexError)
  {
  }

  /** A missing seed and an empty one behave identically. */
  lemma NoneSeedIsEmptySeed(env: Env, query: string, breadth: int, depth: int, model: string)
    ensures Research(env, query, breadth, depth, model, None, None)
         == Research(env, query, breadth, depth, model, Some([]), Some([]))
  {
  }
}
