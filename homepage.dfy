/** Steps 2 and 3: scraping each company's homepage, then analysing it.
    Both stages come in a vendor and a prospect version that differ only in
    their wording and keys, so each is written once over a `Side`. */
module Homepage {
  import opened Values
  import opened Results

  datatype Side = Vendor | Prospect

  function Word(side: Side): string {
    if side == Vendor then "vendor" else "prospect"
  }

  function Capitalised(side: Side): string {
    if side == Vendor then "Vendor" else "Prospect"
  }

  function DomainKey(side: Side): string {
    if side == Vendor then "vendor_domain" else "prospect_domain"
  }

  function MarkdownKey(side: Side): string {
    if side == Vendor then "vendor_homepage_markdown" else "prospect_homepage_markdown"
  }

  function HtmlKey(side: Side): string {
    if side == Vendor then "vendor_homepage_html" else "prospect_homepage_html"
  }

  function MetadataKey(side: Side): string {
    if side == Vendor then "vendor_homepage_metadata" else "prospect_homepage_metadata"
  }

  function AnalysisKey(side: Side): string {
    if side == Vendor then "vendor_homepage_analysis" else "prospect_homepage_analysis"
  }

  // ---------------------------------------------------------------- step 2

  function ValidationFailed(side: Side, detail: string): string {
    "Step 1 " + Word(side) + " validation failed: " + detail
  }

  /** The detail for a validation result that is not a dict: the vendor
      version also quotes the first 100 characters of the value. */
  function NotADict(side: Side, v: Value): string {
    if side == Vendor then "expected dict, got " + TypeName(v) + ": " + Take(Render(v), 100)
    else "expected dict, got " + TypeName(v)
  }

  const ScrapeErrorPrefix := "Error scraping "

  function ScrapeFailurePrefix(side: Side): string {
    ScrapeErrorPrefix + Word(side) + " homepage: "
  }

  /** A step 1 result the scraper goes on with: a non-empty dict without
      "error" whose domain entry is truthy. */
  predicate Accepted(side: Side, validation: Option<Value>) {
    Present(validation) && validation.value.VDict? && "error" !in validation.value.d.vals
    && DomainKey(side) in validation.value.d.vals && Truthy(validation.value.d.vals[DomainKey(side)])
  }

  /** `vendor_data.get("vendor_domain")` of an accepted result. */
  function DomainOf(side: Side, validation: Option<Value>): Value
    requires Accepted(side, validation)
  {
    validation.value.d.vals[DomainKey(side)]
  }

  function HomepageKeys(side: Side): (r: seq<string>)
    ensures r == [DomainKey(side), MarkdownKey(side), HtmlKey(side), MetadataKey(side)] && Distinct(r)
  {
    if side == Vendor then ["vendor_domain", "vendor_homepage_markdown", "vendor_homepage_html", "vendor_homepage_metadata"]
    else ["prospect_domain", "prospect_homepage_markdown", "prospect_homepage_html", "prospect_homepage_metadata"]
  }

  /** The success record built from the domain and the scraper's reply. */
  function HomepageRecord(side: Side, domain: Value, markdown: Value, html: Value, metadata: Value): (r: Value)
    ensures r.VDict? && WellFormed(r.d)
    ensures r.d.keys == [DomainKey(side), MarkdownKey(side), HtmlKey(side), MetadataKey(side)]
    ensures Get(r, DomainKey(side)) == Ok(domain) && Get(r, MarkdownKey(side)) == Ok(markdown)
    ensures Get(r, HtmlKey(side)) == Ok(html) && Get(r, MetadataKey(side)) == Ok(metadata)
  {
    var ks := HomepageKeys(side);
    var r := VDict(DictOf(ks, [domain, markdown, html, metadata]));
    assert ks[0] == DomainKey(side) && ks[1] == MarkdownKey(side) && ks[2] == HtmlKey(side) && ks[3] == MetadataKey(side);
    r
  }

  /** The body of the stage's `try`. */
  function ScrapeAttempt(side: Side, validation: Option<Value>, scrape: Value -> Try<Value>): Try<StepOutput> {
    if !Present(validation) then Ok(ErrorResponse(ValidationFailed(side, "no data returned")))
    else if !validation.value.VDict? then Ok(ErrorResponse(ValidationFailed(side, NotADict(side, validation.value))))
    else if "error" in validation.value.d.vals then
      Ok(ErrorResponse(ValidationFailed(side, Render(validation.value.d.vals["error"]))))
    else if !Accepted(side, validation) then
      Ok(ErrorResponse(ValidationFailed(side, "no " + DomainKey(side) + " in data")))
    else
      var domain := DomainOf(side, validation);
      var result :- scrape(domain);
      var succeeded :- GetOr(result, "success", VNone);
      if !Truthy(succeeded) then
        var err := GetOr(result, "error", VStr("Unknown error")).value;
        Ok(ErrorResponse("Failed to scrape " + Word(side) + " homepage: " + Render(err)))
      else
        var markdown :- GetOr(result, "markdown", VStr(""));
        var chars :- Len(markdown);
        var html :- GetOr(result, "html", VStr(""));
        var metadata :- GetOr(result, "metadata", EmptyDict);
        Ok(SuccessResponse(HomepageRecord(side, domain, markdown, html, metadata)))
  }

  /** The reply of a scrape that succeeded and whose markdown has a length. */
  predicate ScrapeSucceeded(reply: Try<Value>) {
    reply.Ok? && reply.value.VDict? && Truthy(GetOr(reply.value, "success", VNone).value)
    && Len(GetOr(reply.value, "markdown", VStr("")).value).Ok?
  }

  /** `scrape_vendor_homepage` / `scrape_prospect_homepage`. Every exception
      is caught, so the stage always completes. */
  function ScrapeHomepage(side: Side, validation: Option<Value>, scrape: Value -> Try<Value>): (r: StepOutput)
    ensures !Present(validation) ==> r == ErrorResponse(ValidationFailed(side, "no data returned"))
    ensures Present(validation) && !validation.value.VDict? ==>
              r == ErrorResponse(ValidationFailed(side, NotADict(side, validation.value)))
    ensures Present(validation) && validation.value.VDict? && "error" in validation.value.d.vals ==>
              r == ErrorResponse(ValidationFailed(side, Render(validation.value.d.vals["error"])))
    ensures Present(validation) && validation.value.VDict? && "error" !in validation.value.d.vals && !Accepted(side, validation) ==>
              r == ErrorResponse(ValidationFailed(side, "no " + DomainKey(side) + " in data"))
    ensures Accepted(side, validation) && scrape(DomainOf(side, validation)).Throw? ==>
              r == ErrorResponse(ScrapeFailurePrefix(side))
    ensures Accepted(side, validation) && scrape(DomainOf(side, validation)).Ok? ==>
              var reply := scrape(DomainOf(side, validation)).value;
              reply.VDict? && !Truthy(GetOr(reply, "success", VNone).value) ==>
                r == ErrorResponse("Failed to scrape " + Word(side) + " homepage: " + Render(GetOr(reply, "error", VStr("Unknown error")).value))
    ensures r.success <==> Accepted(side, validation) && ScrapeSucceeded(scrape(DomainOf(side, validation)))
    ensures r.success ==>
              var reply := scrape(DomainOf(side, validation)).value;
              r.content == HomepageRecord(side, DomainOf(side, validation), GetOr(reply, "markdown", VStr("")).value,
                                          GetOr(reply, "html", VStr("")).value, GetOr(reply, "metadata", EmptyDict).value)
  {
    Guarded(ScrapeAttempt(side, validation, scrape), ScrapeFailurePrefix(side))
  }

  /** On success the record echoes the accepted domain and defaults a
      missing html to "" and missing metadata to {}. */
  lemma ScrapeDefaults(side: Side, validation: Option<Value>, scrape: Value -> Try<Value>)
    requires ScrapeHomepage(side, validation, scrape).success
    ensures var r := ScrapeHomepage(side, validation, scrape);
            var reply := scrape(DomainOf(side, validation)).value;
            Get(r.content, DomainKey(side)) == Ok(DomainOf(side, validation))
            && ("html" !in reply.d.vals ==> Get(r.content, HtmlKey(side)) == Ok(VStr("")))
            && ("metadata" !in reply.d.vals ==> Get(r.content, MetadataKey(side)) == Ok(EmptyDict))
  {
  }

  // ---------------------------------------------------------------- step 3

  function ScrapingFailed(side: Side, detail: string): string {
    "Step 2 " + Word(side) + " scraping failed: " + detail
  }

  function TooShort(side: Side): string {
    Capitalised(side) + " homepage content is too short or empty"
  }

  const MinMarkdownLength := 100
  const AnalysisPrompt := "Analyze this homepage:\n\n"
  const AnalysisFailurePrefix := "AI analysis failed ("

  /** The `try` of step 3: one analyst call on the markdown. */
  function Analysis(side: Side, markdown: Value, analyst: string -> Try<Value>): Try<StepOutput> {
    var reply :- analyst(AnalysisPrompt + Render(markdown));
    Ok(SuccessResponse(Single(AnalysisKey(side), reply)))
  }

  /** What the guard reports for a missing, empty or failed scrape result
      once it has decided to stop: `data.get('error', 'no data returned')`. */
  function ScrapeErrorDetail(v: Value): Try<string> {
    var err :- GetOr(v, "error", VStr("no data returned"));
    Ok(Render(err))
  }

  /** Step 3 as written: `None` reaches `.get` outside any `try`. */
  function AnalyzeAttemptAsWritten(side: Side, scraped: Option<Value>, analyst: string -> Try<Value>): Try<StepOutput> {
    if scraped.None? then Throw
    else AnalyzeValue(side, scraped.value, analyst)
  }

  /** Step 3 once a result is there (possibly falsy). */
  function AnalyzeValue(side: Side, v: Value, analyst: string -> Try<Value>): Try<StepOutput> {
    var hasError :- if Truthy(v) then Contains(v, "error") else Ok(false);
    if !Truthy(v) || hasError then
      var detail :- ScrapeErrorDetail(v);
      Ok(ErrorResponse(ScrapingFailed(side, detail)))
    else
      var markdown :- GetOr(v, MarkdownKey(side), VStr(""));
      if !Truthy(markdown) then Ok(ErrorResponse(TooShort(side)))
      else
        var n :- Len(markdown);
        if n < MinMarkdownLength then Ok(ErrorResponse(TooShort(side)))
        else Ok(Guarded(Analysis(side, markdown, analyst), AnalysisFailurePrefix))
  }

  /** `analyze_vendor_homepage` / `analyze_prospect_homepage` as written. */
  function AnalyzeHomepageAsWritten(side: Side, scraped: Option<Value>, analyst: string -> Try<Value>): (r: Outcome)
    ensures scraped.None? ==> r == Crashed
    ensures scraped.Some? ==> r == Settle(AnalyzeValue(side, scraped.value, analyst))
  {
    Settle(AnalyzeAttemptAsWritten(side, scraped, analyst))
  }

  /** The absent result the guard is written for crashes the stage instead
      of producing its "no data returned" error. */
  lemma AbsentScrapeCrashes(side: Side, analyst: string -> Try<Value>)
    ensures AnalyzeHomepageAsWritten(side, None, analyst) == Crashed
    ensures AnalyzeHomepage(side, None, analyst) == Completed(ErrorResponse(ScrapingFailed(side, "no data returned")))
  {
  }

  /** A falsy result that is not a dict (such as the `None` a crashed
      member leaves) also reaches `.get` outside any `try`. */
  lemma FalsyScrapeCrashes(side: Side, v: Value, analyst: string -> Try<Value>)
    requires !Truthy(v) && !v.VDict?
    ensures AnalyzeHomepageAsWritten(side, Some(v), analyst) == Crashed
    ensures AnalyzeHomepage(side, Some(v), analyst) == Completed(ErrorResponse(ScrapingFailed(side, "no data returned")))
  {
  }

  /** Step 3 with every missing or falsy result reported as the guard's
      message says. */
  function AnalyzeHomepage(side: Side, scraped: Option<Value>, analyst: string -> Try<Value>): (r: Outcome)
    ensures scraped.None? || (!Truthy(scraped.value) && (!scraped.value.VDict? || "error" !in scraped.value.d.vals)) ==>
              r == Completed(ErrorResponse(ScrapingFailed(side, "no data returned")))
    ensures scraped.Some? && scraped.value.VDict? && "error" in scraped.value.d.vals ==>
              r == Completed(ErrorResponse(ScrapingFailed(side, Render(scraped.value.d.vals["error"]))))
    ensures scraped.Some? && Truthy(scraped.value) && scraped.value.VDict? && "error" !in scraped.value.d.vals
            && MarkdownKey(side) in scraped.value.d.vals && scraped.value.d.vals[MarkdownKey(side)].VStr?
            && |scraped.value.d.vals[MarkdownKey(side)].s| < MinMarkdownLength ==>
              r == Completed(ErrorResponse(TooShort(side)))
    ensures r.Completed? && r.output.success ==>
              scraped.Some? && scraped.value.VDict? && "error" !in scraped.value.d.vals
              && MarkdownKey(side) in scraped.value.d.vals
              && var markdown := scraped.value.d.vals[MarkdownKey(side)];
                 Len(markdown).Ok? && Len(markdown).value >= MinMarkdownLength
                 && analyst(AnalysisPrompt + Render(markdown)).Ok?
                 && r.output.content == Single(AnalysisKey(side), analyst(AnalysisPrompt + Render(markdown)).value)
  {
    if scraped.None? || (!Truthy(scraped.value) && !scraped.value.VDict?) then
      Completed(ErrorResponse(ScrapingFailed(side, "no data returned")))
    else Settle(AnalyzeValue(side, scraped.value, analyst))
  }

  /** A result whose markdown is long enough reaches the analyst, and an
      exception there becomes an error response. */
  lemma AnalystFailureReported(side: Side, v: Value, analyst: string -> Try<Value>)
    requires v.VDict? && Truthy(v) && "error" !in v.d.vals
    requires MarkdownKey(side) in v.d.vals && v.d.vals[MarkdownKey(side)].VStr?
    requires |v.d.vals[MarkdownKey(side)].s| >= MinMarkdownLength
    requires analyst(AnalysisPrompt + v.d.vals[MarkdownKey(side)].s).Throw?
    ensures AnalyzeHomepage(side, Some(v), analyst) == Completed(ErrorResponse(AnalysisFailurePrefix))
  {
  }
}
