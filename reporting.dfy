/**
  The report step (step3_reporting/reporting.py): the string assembly around
  the one call to the language model. The numbered learnings block that goes
  into the prompt, the sources section appended to the model's report, the
  fallback text, and the markdown section helper.
 */
module Reporting {
  import opened Wrappers
  import opened Builtins

  const MaxLearningsChars: int := 150000
  const LearningHeading: string := "### 학습 내용 "
  const SourcesHeading: string := "\n\n## 참고 문헌\n"
  const FallbackReport: string := "# 보고서 생성 실패\n\n문제가 지속되면 모델을 변경해 보세요."

  // ---------------------------------------------------------------------------
  // Decimal numerals, as f"{i+1}" writes them
  // ---------------------------------------------------------------------------

  predicate IsDigit(c: char) {
    '0' <= c <= '9'
  }

  function DigitChar(d: nat): (c: char)
    requires d < 10
    ensures IsDigit(c) && c as int - '0' as int == d
  {
    ('0' as int + d) as char
  }

  /** The decimal numeral of `n`, without leading zeros. */
  function Decimal(n: nat): (s: string)
    ensures s != [] && forall k :: 0 <= k < |s| ==> IsDigit(s[k])
    ensures n > 0 ==> s[0] != '0'
  {
    if n < 10 then [DigitChar(n)]
    else Decimal(n / 10) + [DigitChar(n % 10)]
  }

  /** The value of a string of decimal digits. */
  function ParseDecimal(s: string): nat
    requires forall k :: 0 <= k < |s| ==> IsDigit(s[k])
    decreases |s|
  {
    if s == [] then 0
    else
      var d := s[|s| - 1];
      assert IsDigit(d);
      ParseDecimal(s[..|s| - 1]) * 10 + (d as int - '0' as int)
  }

  /** Reading the numeral back gives the number, so distinct entries carry distinct numbers. */
  lemma {:induction false} DecimalRoundTrip(n: nat)
    ensures ParseDecimal(Decimal(n)) == n
  {
    if n >= 10 {
      DecimalRoundTrip(n / 10);
      var s := Decimal(n);
      assert s[..|s| - 1] == Decimal(n / 10);
    }
  }

  // ---------------------------------------------------------------------------
  // learnings_formatted
  // ---------------------------------------------------------------------------

  /** `f"### 학습 내용 {n}\n{learning}"` */
  function LearningEntry(n: nat, learning: string): string {
    LearningHeading + Decimal(n) + "\n" + learning
  }

  /** The entries for `enumerate(learnings)`, numbered from 1. */
  function LearningEntries(learnings: seq<string>): seq<string> {
    seq(|learnings|, k requires 0 <= k < |learnings| => LearningEntry(k + 1, learnings[k]))
  }

  /** The learnings block before the cut. */
  function LearningsBlock(learnings: seq<string>): string {
    Join("\n", LearningEntries(learnings))
  }

  /** `learnings_formatted`: the block cut to its first 150000 characters. */
  function LearningsFormatted(learnings: seq<string>): (r: string)
    ensures |r| <= MaxLearningsChars
    ensures IsPrefix(r, LearningsBlock(learnings))
    ensures |LearningsBlock(learnings)| <= MaxLearningsChars ==> r == LearningsBlock(learnings)
    ensures |r| == if |LearningsBlock(learnings)| <= MaxLearningsChars then |LearningsBlock(learnings)| else MaxLearningsChars
  {
    Prefix(LearningsBlock(learnings), MaxLearningsChars)
  }

  /** The block is empty exactly when there are no learnings. */
  lemma LearningsBlockEmpty(learnings: seq<string>)
    ensures LearningsBlock(learnings) == "" <==> learnings == []
  {
    var es := LearningEntries(learnings);
    forall k | 0 <= k < |es| ensures es[k] != "" {
      assert |es[k]| >= |LearningHeading|;
    }
    JoinEmpty("\n", es);
  }

  /**
    One more learning adds one more entry at the end, numbered one past the
    learnings before it, after a newline unless it is the first.
   */
  lemma LearningsBlockAppend(learnings: seq<string>, learning: string)
    ensures LearningsBlock(learnings + [learning])
         == LearningsBlock(learnings) + (if learnings == [] then "" else "\n") + LearningEntry(|learnings| + 1, learning)
  {
    var es := LearningEntries(learnings);
    assert LearningEntries(learnings + [learning]) == es + [LearningEntry(|learnings| + 1, learning)];
    JoinAppend("\n", es, LearningEntry(|learnings| + 1, learning));
  }

  // ---------------------------------------------------------------------------
  // sources_section
  // ---------------------------------------------------------------------------

  /** `f"- [{url}]({url})"` */
  function SourceLink(url: string): string {
    "- [" + url + "](" + url + ")"
  }

  function SourceLinks(urls: seq<string>): seq<string> {
    seq(|urls|, k requires 0 <= k < |urls| => SourceLink(urls[k]))
  }

  /** `sources_section` */
  function SourcesSection(urls: seq<string>): string {
    SourcesHeading + Join("\n", SourceLinks(urls))
  }

  /** With no URLs the section is just its heading. */
  lemma SourcesSectionEmpty()
    ensures SourcesSection([]) == SourcesHeading
  {
  }

  /** One more URL adds one more link line at the end: the links keep the input order. */
  lemma SourcesSectionAppend(urls: seq<string>, url: string)
    ensures SourcesSection(urls + [url])
         == SourcesSection(urls) + (if urls == [] then "" else "\n") + SourceLink(url)
  {
    assert SourceLinks(urls + [url]) == SourceLinks(urls) + [SourceLink(url)];
    JoinAppend("\n", SourceLinks(urls), SourceLink(url));
  }

  // ---------------------------------------------------------------------------
  // write_final_report
  // ---------------------------------------------------------------------------

  /**
    The model call: it raised before `response` was bound, or it returned a
    response whose parse either failed (None) or gave the report text.
   */
  datatype ReportCall = ClientRaised | Responded(report: Option<string>)

  /** The exception that escapes: the handler reads `response`, which the failed call never bound. */
  datatype ReportFailure = UnboundResponse

  /**
    write_final_report. `client(model, prompt, learningsFormatted)` stands for
    the call with the fixed system message and the prompt built around the
    learnings block.
   */
  function WriteFinalReport(client: (string, string, string) -> ReportCall, prompt: string,
                            learnings: seq<string>, visitedUrls: seq<string>, model: string)
    : (r: Result<string, ReportFailure>)
    ensures client(model, prompt, LearningsFormatted(learnings)).ClientRaised? ==> r == Err(UnboundResponse)
    ensures client(model, prompt, LearningsFormatted(learnings)) == Responded(None) ==> r == Ok(FallbackReport)
    ensures client(model, prompt, LearningsFormatted(learnings)).Responded? &&
            client(model, prompt, LearningsFormatted(learnings)).report.Some? ==>
      var body := client(model, prompt, LearningsFormatted(learnings)).report.value;
      r.Ok? && |r.value| == |body| + |SourcesSection(visitedUrls)| &&
      r.value[..|body|] == body && r.value[|body|..] == SourcesSection(visitedUrls)
  {
    match client(model, prompt, LearningsFormatted(learnings))
    case ClientRaised => Err(UnboundResponse)
    case Responded(None) => Ok(FallbackReport)
    case Responded(Some(reportBody)) => Ok(reportBody + SourcesSection(visitedUrls))
  }

  // ---------------------------------------------------------------------------
  // format_markdown_section
  // ---------------------------------------------------------------------------

  /** A level-two markdown section: its title and its content can be read back from the text. */
  function FormatMarkdownSection(title: string, content: string): (r: string)
    ensures |r| == 7 + |title| + |content|
    ensures r[..5] == "\n\n## " && r[5..5 + |title|] == title
    ensures r[5 + |title|..7 + |title|] == "\n\n" && r[7 + |title|..] == content
  {
    "\n\n## " + title + "\n\n" + content
  }
}
