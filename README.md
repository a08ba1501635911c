# Playbook AI pipeline core, modelled in Dafny

Playbook AI turns two company domains into an account-based sales playbook. The
*vendor* is the company selling and the *prospect* is the target account. The
pipeline is a workflow of eleven units. Each unit is either a single stage or a
parallel group of stages:

- domain validation;
- homepage scraping and homepage analysis;
- URL prioritization and batch scraping;
- eight vendor-element extractors;
- two prospect analysts and the buyer-persona analyst;
- the playbook summary, three component specialists and the final assembly.

Each stage reads earlier results by name and returns a step output (a content
value and a success flag). Once the run ends, the driver projects the recorded
results into the research files, the playbook file and the run metadata.

This project models that core as Dafny values and functions:

- **`Values`** is JSON-like Python data. It covers None, bool, int, str, list
  and insertion-ordered dict, with `Try` for an exception in flight.
- **`Schema`, `VendorSchema`, `ProspectSchema` and `PlaybookSchema`** are the
  pydantic record models. Each record has a validator, a dump, and a proof that
  validation reads back what was dumped.
- **`Workflows`** holds the main pipeline and the three phase workflows as data.
  It also records which earlier stage results each stage reads.
- **`Execution`** runs a workflow. Units run in order and the members of a group
  run side by side. An exception raised outside the `try` of a single-stage unit
  stops the run; a group member that raises leaves a failed record.
- **`Results`** is the lookup of a step result by name, or by group and member.
  It also holds the error response and the `try`/`except` wrapper shared by the
  stages.
- **`Homepage`, `Prioritize`, `BatchScrape`, `VendorExtraction`,
  `ProspectAnalysis`, `PersonaMatching` and `PlaybookGeneration`** are the stage
  functions of steps 2 to 8. Every AI agent and every web scraper is a function
  parameter from its input to its reply, and that reply may be an exception.
- **`Artifacts`** is the projection of a finished run into the saved files.

Where the source is a loop, the model has a method with that loop, proved equal
to a reference function. This covers the persona resolver, the per-persona
loops of the specialists, the split of scraped pages, and the assembly of the
playbook file.

## Model

| member | source | states |
|---|---|---|
| Workflows.PhasesArePrefixes | workflow.py:36-173 | each phase workflow is the start of the next, and the three-phase workflow is the first eight units of the main pipeline |
| Workflows.PipelineNamesDistinct | main.py:63-140 | the unit names of the main pipeline are pairwise distinct, member names inside each unit are distinct, and the vendor extraction group has eight members |
| Workflows.UnitNamesDistinct | main.py:63-140 | two different units of the main pipeline never share a name |
| Workflows.StagesDistinct | main.py:71-135 | no unit lists the same stage twice |
| Workflows.NameInjective | main.py:63-140 | no two stage functions are registered under the same step name |
| Workflows.Position | main.py:63-140 | every stage has a unit of the main pipeline that runs it |
| Workflows.MemberIndex | main.py:100-135 | a stage's place among the members of its unit, which is where it sits in that unit's list |
| Workflows.RunsOnce | main.py:63-140 | a stage listed in unit `i` is placed at `i`, so it runs in exactly one unit |
| Workflows.UnitPositions | main.py:63-140 | every member of unit `i` is placed at `i` |
| Workflows.RunsAtPosition | main.py:63-140 | the unit at a stage's position runs that stage |
| Workflows.ReadsEarlier | steps/step7_prospect_analysis.py:108-117 | every result a stage reads comes from a unit strictly before its own |
| Workflows.ReadPositions | steps/step8_playbook_generation.py:59-92 | each entry of a stage's read list has a smaller position than the stage |
| Workflows.PipelineWellWired | workflow.py:119-173 | in the main pipeline and each phase workflow, every stage reads only results of earlier units |
| Workflows.WiredPrefix | workflow.py:36-115 | cutting a well-wired workflow short keeps it well wired |
| Workflows.SingleUnits | main.py:92-138 | every single-stage unit runs prioritization, batch scrape, buyer personas, summary or assembly |
| Execution.Inputs | steps/step6_vendor_extraction.py:24 | a stage's lookups: one per stage it reads, each finding that stage's result among the earlier records |
| Execution.ExecReadsOnly | steps/step7_prospect_analysis.py:106-120 | a stage's outcome depends on the earlier records only through the results it looks up |
| Execution.MemberRecord | main.py:100-110 | a group member leaves a record under its own name; a member that raised leaves a failed record instead of stopping the run |
| Execution.Members | main.py:115-119 | each member of a group runs on the same earlier records and leaves one record, in member order |
| Execution.RunUnit | main.py:92-95 | a unit raises exactly when it is a single stage whose function raised; otherwise it leaves one record carrying its name, its step type, and its members' records when it is a group |
| Execution.Run | main.py:211-218 | the records of a run are consistent with the units; a finished run has one record per unit; a halted run stopped at the first unit that raised |
| Execution.ConsistentUnique | main.py:63-140 | two record lists consistent with the same units and of the same length are equal |
| Execution.ConsistentPrefix | main.py:63-140 | every prefix of a consistent record list is consistent: each record depends only on the records before it |
| Execution.ConsistentLast | main.py:63-140 | two consistent record lists that agree before their last record are equal: that record is what the same unit left given the same earlier records |
| Execution.RunPrefix | workflow.py:36-173 | running the first `k` units yields the start of running them all, and it halts the same way |
| Execution.PhasesRunAsPrefixes | workflow.py:36-173 | each phase workflow's run is the start of the main pipeline's run, and a halt in the first phase is a halt of the whole pipeline |
| Execution.RecordNames | main.py:63-140 | the `j`th record of a main-pipeline run carries the `j`th unit's name |
| Execution.PrefixNamesDistinct | main.py:63-140 | the names in the records so far are pairwise distinct |
| Execution.AddressedTop | main.py:229-234 | a single-stage unit's result is found by that stage's name |
| Execution.MemberNames | main.py:236-244 | a group's record lists its members' records, each under its member name, each name once |
| Execution.AddressedMember | main.py:236-244 | a group member's result is found by the group's name and the member's name |
| Execution.Addressed | main.py:229-244 | once its unit has run, looking a stage up finds exactly what that stage left |
| Execution.StageSeesItsInputs | steps/step8_playbook_generation.py:59-92 | every lookup a stage makes finds the result left by an earlier unit |
| Execution.SameLookups | steps/step8_playbook_generation.py:185-192 | two runs whose producing stages left the same results give a stage the same lookups |
| Execution.OnlyDependenciesMatter | steps/step8_playbook_generation.py:381-389 | in two runs, a stage whose inputs were produced alike has the same outcome, whatever else differs |
| Execution.HaltingUnit | main.py:92-138 | a run that halts stopped at a single-stage unit whose stage raised |
| Execution.NeverRaises | steps/step7_prospect_analysis.py:106-192 | the buyer-persona, summary and assembly stages always leave a record, whatever they are given |
| Execution.PersonasRecorded | steps/step7_prospect_analysis.py:106-192 | the buyer-persona stage catches every exception, so it never stops the run |
| Execution.SummaryRecorded | steps/step8_playbook_generation.py:57-174 | the summary stage catches every exception, so it never stops the run |
| Execution.AssemblyRecorded | steps/step8_playbook_generation.py:379-440 | the assembly stage catches every exception, so it never stops the run |
| Execution.OnlyPrioritizationOrBatchScrapeHalts | steps/step4_url_prioritization.py:27-43 | a run of the main pipeline can halt only at URL prioritization or batch scraping, whose checks sit outside their `try` |
| Results.ErrorResponse | steps/step2_homepage_scraping.py:26 | an error response is a failed output whose content holds the message under "error" |
| Results.Single | steps/step6_vendor_extraction.py:33 | a one-key content dict holds its value and is truthy |
| Results.Guarded | steps/step6_vendor_extraction.py:22-58 | a stage's `try`/`except`: the body's output, or an error response with the stage's message prefix when the body raised |
| Results.Settle | steps/step3_initial_analysis.py:35-47 | a stage outcome completes exactly when the body did not raise |
| Results.LabelledPages | steps/step7_prospect_analysis.py:24-27 | one "URL: …" block per scraped page, in page order |
| Results.GetStepContentByName | main.py:229-234 | the content of the first record with that name, and None exactly when no record has it |
| Results.SubstepContent | main.py:241-243 | the content of the first member record with that name, and None exactly when none has it |
| Results.FirstGroupHolding | main.py:238-240 | the first record that is a parallel group of that name holding that member |
| Results.GetParallelSubstepContent | main.py:236-244 | None exactly when no group of that name holds that member; otherwise the member's content in the first group that does |
| Results.LookupDistinct | main.py:229-234 | among records with distinct names, looking up a record's name finds that record's content |
| Homepage.HomepageKeys | steps/step2_homepage_scraping.py:49-54 | the homepage record's four keys, distinct, in record order |
| Homepage.HomepageRecord | steps/step2_homepage_scraping.py:49-54 | the record holds the domain, markdown, html and metadata under the side's keys |
| Homepage.ScrapeHomepage | steps/step2_homepage_scraping.py:12-103 | each validation failure (none, not a dict, an error, no domain) and each scrape failure gives its own error; success exactly when the domain is accepted and the scrape succeeded, the record then built from the scrape reply |
| Homepage.ScrapeDefaults | steps/step2_homepage_scraping.py:46-53 | a successful record echoes the accepted domain, and defaults missing html to "" and missing metadata to {} |
| Homepage.AnalyzeHomepageAsWritten | steps/step3_initial_analysis.py:23-26 | the analysis as written: with a missing scrape result the stage raises, so its member record is a failed one |
| Homepage.AbsentScrapeCrashes | steps/step3_initial_analysis.py:25-26 | with no scrape result, the as-written analysis crashes while the corrected one reports "no data returned" |
| Homepage.FalsyScrapeCrashes | steps/step3_initial_analysis.py:25-26 | with a falsy result that is not a dict (None, "", [], 0, False), the as-written analysis crashes while the corrected one reports "no data returned" |
| Homepage.AnalyzeHomepage | steps/step3_initial_analysis.py:12-85 | a missing or falsy scrape result gives "no data returned", a result with an error gives that error, and too-short markdown gives its error; on success the markdown reached the analyst and the output is the analyst's reply |
| Homepage.AnalystFailureReported | steps/step3_initial_analysis.py:35-47 | an exception from the analyst becomes the "AI analysis failed" error response |
| Prioritize.Shown | steps/step4_url_prioritization.py:48-53 | the agent is shown only the first `max` URLs of a list |
| Prioritize.Urls | steps/step4_url_prioritization.py:71-72 | the selected URL list has one entry per item: that item's url |
| Prioritize.SelectionRecord | steps/step4_url_prioritization.py:77-82 | the selection record holds the two URL lists and the two detail lists under their keys |
| Prioritize.Selection | steps/step4_url_prioritization.py:58-82 | an agent exception propagates; a reply without both lists is "unexpected structure"; on success both lists are projected to their urls |
| Prioritize.Ask | steps/step4_url_prioritization.py:47-82 | the agent's prompt shows the counts and the first `max` URLs of each side; a success projects both selections |
| Prioritize.PrioritizeUrls | steps/step4_url_prioritization.py:13-85 | missing, non-dict or failed vendor and prospect validations and empty URL lists each give their error, checked before the `try`; a success holds both selections |
| Prioritize.OnlyFirstMaxShown | steps/step4_url_prioritization.py:50-53 | two vendor URL lists of the same length that agree on their first `max` entries give the same outcome |
| BatchScrape.SplitFits | steps/step5_batch_scraping.py:42-43 | over budget, the proportional vendor share is at most the vendor count and the budget, and the prospect share at most the prospect count |
| BatchScrape.Capped | steps/step5_batch_scraping.py:37-46 | within budget the lists are kept; over budget each list is cut to its proportional prefix |
| BatchScrape.Partition | steps/step5_batch_scraping.py:62-73 | a page goes to vendor content exactly when it is a vendor URL with markdown, to prospect content exactly when it is only a prospect URL with markdown, carrying its markdown |
| BatchScrape.PartitionDisjoint | steps/step5_batch_scraping.py:70-73 | no page lands in both vendor and prospect content |
| BatchScrape.PartitionInOrder | steps/step5_batch_scraping.py:65-73 | each content map lists its URLs in the order the scraper returned the pages |
| BatchScrape.StoreInOrder | steps/step5_batch_scraping.py:70-73 | storing a page not seen before appends it to the end of its map and leaves the other map in order |
| BatchScrape.PartitionPages | steps/step5_batch_scraping.py:65-73 | the source's loop over the scraped pages computes the partition |
| BatchScrape.PartitionSnoc | steps/step5_batch_scraping.py:65-73 | the split of one more page is one more iteration of the loop: a non-dict page raises, otherwise the page is stored by the loop's rule |
| BatchScrape.PrefixThrowStays | steps/step5_batch_scraping.py:65-66 | a page that raises in the loop makes the whole split raise |
| BatchScrape.OutputKeys | steps/step5_batch_scraping.py:84-96 | the output's six keys, distinct |
| BatchScrape.BatchRecord | steps/step5_batch_scraping.py:84-96 | the record holds both contents, their URL lists, the total and the stats |
| BatchScrape.StatsRecord | steps/step5_batch_scraping.py:90-95 | the stats hold the page counts and character counts |
| BatchScrape.Scrape | steps/step5_batch_scraping.py:51-99 | a raising batch call, a missing "success" key, or "results" that is not a dict raises; an unsuccessful call gives "Batch scraping failed: " with the reply's error or "Unknown error"; a success splits the batch reply's pages and reports the count of all scraped results |
| BatchScrape.BatchFailureReported | steps/step5_batch_scraping.py:51-57 | when the batch call raises or reports no success, the stage completes with the "Batch scraping failed" error response |
| BatchScrape.StatsAgree | steps/step5_batch_scraping.py:78-94 | the stats' page counts are the sizes of the two contents |
| BatchScrape.BatchScrapeSelectedPages | steps/step5_batch_scraping.py:13-99 | an invalid step 4 result gives its error; non-list selections raise before the `try`; otherwise the capped lists are scraped |
| BatchScrape.BatchScrapeSelectedPagesMethod | steps/step5_batch_scraping.py:13-99 | the imperative stage computes the same outcome as the function |
| BatchScrape.ScrapeMethod | steps/step5_batch_scraping.py:51-99 | the imperative `try` block (batch call, page loop, character totals) computes Scrape |
| VendorExtraction.EmptyExtraction | steps/step6_vendor_extraction.py:31-33 | the empty success holds `[]` under the extractor's key |
| VendorExtraction.Records | steps/step6_vendor_extraction.py:49-55 | a falsy reply or one without the attribute is an agent failure; a success dumps the reply's records under the key |
| VendorExtraction.Extract | steps/step6_vendor_extraction.py:20-330 | all eight extractors: no batch result is an error; no vendor pages is an empty success without calling the agent; a success holds the agent's records for the pages |
| VendorExtraction.EmptyPagesSkipAgent | steps/step6_vendor_extraction.py:31-33 | with no vendor pages, the outcome is the same whatever the agent would answer |
| VendorExtraction.OneEntryPerRecord | steps/step6_vendor_extraction.py:44-55 | with pages and a well-formed reply, the output is exactly the reply's records under the key |
| VendorExtraction.ExtractorKeysDistinct | main.py:100-109 | the eight extractors write distinct keys and run as distinct stages |
| VendorExtraction.OutputKeys | steps/step6_vendor_extraction.py:33 | every extractor output is a one-key dict: its key, or "error" |
| ProspectAnalysis.AnalyzeCompanyProfile | steps/step7_prospect_analysis.py:9-49 | no batch result, no prospect pages and an empty agent reply each give their error; a success holds the agent's company profile |
| ProspectAnalysis.Listed | steps/step7_prospect_analysis.py:86-89 | a non-empty reply list is dumped record by record under its key |
| ProspectAnalysis.AnalyzePainPoints | steps/step7_prospect_analysis.py:52-92 | the same error cases, with an empty pain-point list an error; a success holds the dumped pain points |
| ProspectAnalysis.VendorIntelKeys | steps/step7_prospect_analysis.py:123-130 | the six keys of the vendor package, distinct |
| ProspectAnalysis.ProspectIntelKeys | steps/step7_prospect_analysis.py:132-135 | the two keys of the prospect package |
| ProspectAnalysis.VendorIntelligence | steps/step7_prospect_analysis.py:123-130 | the vendor package has its six keys, and each absent result defaults to `[]` |
| ProspectAnalysis.ProspectIntelligence | steps/step7_prospect_analysis.py:132-135 | the prospect package defaults an absent company to {} and absent pain points to `[]` |
| ProspectAnalysis.PersonaReply | steps/step7_prospect_analysis.py:176-189 | a falsy reply is an agent failure; a success lists every returned persona, each with a title and a priority |
| ProspectAnalysis.IdentifyBuyerPersonas | steps/step7_prospect_analysis.py:95-192 | without the company result or the value propositions it is "missing data"; a success came from the agent's reply to the two packages |
| ProspectAnalysis.AbsentElementsDefault | steps/step7_prospect_analysis.py:124-127 | absent offerings and use cases reach the agent as `[]` |
| ProspectAnalysis.EmptyProspectContentIsAnError | steps/step7_prospect_analysis.py:20-21 | on a batch result without pages, step 6 succeeds empty while the company analyst reports an error |
| PersonaMatching.TitleOf | steps/step8_playbook_generation.py:37 | reading a candidate's title needs a string under "persona_title" |
| PersonaMatching.Scan | steps/step8_playbook_generation.py:30-41 | the scan raises exactly when some candidate has no string title; otherwise it keeps the first candidate of greatest positive similarity, or none |
| PersonaMatching.ScanSnoc | steps/step8_playbook_generation.py:33-41 | the scan of one more candidate is one more loop iteration |
| PersonaMatching.FindMatchingPersona | steps/step8_playbook_generation.py:18-47 | no candidates gives None without reading the query; otherwise it succeeds exactly when the query is a string and every candidate has a title |
| PersonaMatching.MatchIsFirstBest | steps/step8_playbook_generation.py:39-45 | a returned persona reaches the threshold, is at least as similar as every candidate, and is strictly more similar than every earlier one |
| PersonaMatching.FoundIff | steps/step8_playbook_generation.py:39-47 | a persona is found exactly when some candidate's similarity is both positive and at least the threshold |
| PersonaMatching.NoPositiveSimilarityNoMatch | steps/step8_playbook_generation.py:30-45 | with no positive similarity nothing is returned, even at a threshold of zero or below |
| PersonaMatching.ScanCaseInsensitive | steps/step8_playbook_generation.py:35-37 | queries equal once lower-cased scan alike |
| PersonaMatching.SameLowerSameMatch | steps/step8_playbook_generation.py:35-37 | queries equal once lower-cased resolve alike |
| PersonaMatching.CaseInsensitive | steps/step8_playbook_generation.py:35-37 | upper- or lower-casing the query does not change the match |
| PersonaMatching.FindMatchingPersonaLoop | steps/step8_playbook_generation.py:18-47 | the source's loop computes the resolver's result |
| PlaybookGeneration.VendorIntelKeys | steps/step8_playbook_generation.py:72-81 | the eight keys of the summary's vendor package, distinct: step 7's six vendor keys, then proof_points and customers |
| PlaybookGeneration.VendorIntelSourceKeys | steps/step8_playbook_generation.py:73-80 | the key each entry is read from: its own key for the first seven, and "reference_customers" for the customers entry |
| PlaybookGeneration.VendorIntel | steps/step8_playbook_generation.py:72-81 | the vendor package has its eight keys; it can be built exactly when every present result can be read |
| PlaybookGeneration.ProspectIntelKeys | steps/step8_playbook_generation.py:94-98 | the three keys of the prospect package: step 7's two prospect keys, then target_buyer_personas |
| PlaybookGeneration.ProspectIntel | steps/step8_playbook_generation.py:94-98 | the prospect package has its three keys; it can be built exactly when the company and pain-point results can be read |
| PlaybookGeneration.TitleList | steps/step8_playbook_generation.py:109 | one title per target persona, each read from "persona_title" |
| PlaybookGeneration.SummaryKeys | steps/step8_playbook_generation.py:159-167 | the six keys of the summary output, distinct |
| PlaybookGeneration.SummaryRecord | steps/step8_playbook_generation.py:159-167 | the summary needs the reply's summary, quick wins and metrics, and carries both packages |
| PlaybookGeneration.SummaryReply | steps/step8_playbook_generation.py:155-169 | a successful summary read the reply's priority personas |
| PlaybookGeneration.SummaryWith | steps/step8_playbook_generation.py:105-169 | reading the names and building the reply gives a successful output |
| PlaybookGeneration.SummaryAttempt | steps/step8_playbook_generation.py:58-169 | no offerings and no buyer personas are errors; a success carries the vendor and prospect packages built from the inputs |
| PlaybookGeneration.GeneratePlaybookSummary | steps/step8_playbook_generation.py:50-174 | the same, with exceptions caught into the summary's error response |
| PlaybookGeneration.SummaryReadsReferenceCustomers | steps/step8_playbook_generation.py:80 | the customers entry is the customer stage's "reference_customers" list, `[]` when absent |
| PlaybookGeneration.UnmatchedTitle | steps/step8_playbook_generation.py:203-205 | an unresolved title contributes nothing |
| PlaybookGeneration.MatchedTitle | steps/step8_playbook_generation.py:201-233 | a resolved title contributes the writer's items for that persona |
| PlaybookGeneration.CollectAppend | steps/step8_playbook_generation.py:199-233 | the loop over two lists of titles is the loop over the first, then the second |
| PlaybookGeneration.CollectNothing | steps/step8_playbook_generation.py:199-205 | a loop whose every title contributes nothing produces nothing |
| PlaybookGeneration.GeneratedAppend | steps/step8_playbook_generation.py:270-305 | the specialist loop splits over concatenated titles, and one title yields that title's items |
| PlaybookGeneration.UnmatchedYieldNothing | steps/step8_playbook_generation.py:270-276 | when no title resolves, the specialist produces an empty list |
| PlaybookGeneration.PersonaItemsStep | steps/step8_playbook_generation.py:200-233 | one iteration of the loop body computes that title's items |
| PlaybookGeneration.GenerateLoop | steps/step8_playbook_generation.py:197-236 | the source's loop computes the specialist's items |
| PlaybookGeneration.Plan | steps/step8_playbook_generation.py:190-195 | only the first three priority personas are served |
| PlaybookGeneration.Produce | steps/step8_playbook_generation.py:197-243 | a success holds the loop's items under the component's key |
| PlaybookGeneration.GenerateComponent | steps/step8_playbook_generation.py:177-319 | no summary is an error, and for emails so is an empty priority list; a success holds the loop's items over the first three titles |
| PlaybookGeneration.EmptyPriorityList | steps/step8_playbook_generation.py:187-188 | with an empty priority list, talk tracks succeed empty while emails report a missing summary |
| PlaybookGeneration.CardsFrom | steps/step8_playbook_generation.py:358-367 | a success lists the reply's battle cards |
| PlaybookGeneration.GenerateBattleCards | steps/step8_playbook_generation.py:322-372 | no summary is an error; a success holds every card the builder returned for the two packages |
| PlaybookGeneration.PlaybookKeys | steps/step8_playbook_generation.py:400-415 | the ten keys of the assembled playbook, distinct |
| PlaybookGeneration.PlaybookRecord | steps/step8_playbook_generation.py:400-415 | each key of the assembled playbook holds its value |
| PlaybookGeneration.AssembledVendorName | steps/step8_playbook_generation.py:396 | no offerings gives "Vendor"; otherwise the first offering's name |
| PlaybookGeneration.ComponentLists | steps/step8_playbook_generation.py:412-414 | each component list is its stage's list, `[]` when the stage gave nothing |
| PlaybookGeneration.AssembleFinalPlaybook | steps/step8_playbook_generation.py:375-440 | no component is an error, and so is a missing summary; a success is the playbook assembled from the summary and the components |
| PlaybookGeneration.AssembledPlaybook | steps/step8_playbook_generation.py:400-415 | an assembled playbook is dated today, absent components are `[]`, and the priority personas are the summary's |
| PlaybookGeneration.AssembledNameDefaults | steps/step8_playbook_generation.py:396-397 | with no offerings and no company name the names are "Vendor" and "Prospect" |
| Artifacts.Field | main.py:295 | a dict's entry or default, and another default for a non-dict |
| Artifacts.GatherFindsStageResults | main.py:264-283 | after a full run, each gathered result is what its stage left, or {} when that was falsy (`or {}`) |
| Artifacts.EvidenceKeys | main.py:294-298 | the three keys of the customer evidence file |
| Artifacts.CustomerEvidenceAsWritten | main.py:294-298 | as written: the customers entry is read from "customers" |
| Artifacts.CustomersNeverCopied | main.py:297 | as written, the customers entry is always `[]` for what the customer stage writes |
| Artifacts.CustomerEvidence | main.py:294-298 | the evidence file copies the case studies, proof points and reference customers |
| Artifacts.CustomersCopied | main.py:297 | corrected, the customers entry is the customer stage's list |
| Artifacts.PositioningKeys | main.py:303-306 | the two keys of the positioning file |
| Artifacts.Positioning | main.py:303-306 | the positioning file copies the differentiators and value propositions |
| Artifacts.AnalysisKeys | main.py:321-325 | the three keys of the prospect analysis file |
| Artifacts.ProspectFile | main.py:321-325 | the analysis copies the company profile (or the whole result), pain points and buyer personas |
| Artifacts.ResearchPaths | main.py:256-257 | the research files are written to the run directory at exactly the paths the manifest lists (lines 377-391) |
| Artifacts.ResearchFiles | main.py:288-325 | six files at the manifest paths: offerings, personas and use cases as gathered, and the merged customer evidence, positioning and prospect analysis |
| Artifacts.ResearchDefaults | main.py:294-325 | each non-dict result gives `[]` or {}; a company result without "company_profile" is copied whole |
| Artifacts.Fields | main.py:334-350 | the twelve playbook file fields, distinct |
| Artifacts.FieldNames | main.py:334-350 | the first six fields come from the summary and the last six from the final playbook |
| Artifacts.PlaybookFile | main.py:329-353 | building the playbook raises exactly when the final result's "sales_playbook" is not a dict |
| Artifacts.PlaybookKeys | main.py:331-350 | the playbook holds the summary fields when the summary is a dict and the sales fields when the final result is, in order |
| Artifacts.WithSummaryKeys | main.py:334-340 | the summary fields, added to an empty playbook, in order |
| Artifacts.WithSalesKeys | main.py:343-350 | the sales fields follow the summary fields |
| Artifacts.PlaybookSummaryFields | main.py:335-340 | each summary field is the summary's entry or its default |
| Artifacts.PlaybookSalesFields | main.py:344-350 | each sales field is the sales playbook's entry or its default |
| Artifacts.GeneratedDateDefault | main.py:347 | without a generated date, the date is the first eight characters of the run timestamp |
| Artifacts.BuildPlaybook | main.py:331-350 | the step-by-step assignments build the playbook file |
| Artifacts.OutputKeys | main.py:369-376 | the six keys of the metadata outputs |
| Artifacts.Outputs | main.py:369-376 | the outputs can be built exactly when every counted list has a length |
| Artifacts.CountsAreLengths | main.py:372-375 | a count is the list's length, and 0 for a missing key |
| Artifacts.MetadataCounts | main.py:373-375 | the three component counts are read from the sales playbook's lists |
| Artifacts.PersonaCount | main.py:372 | the persona count is read from the summary's priority personas |
| Artifacts.MetadataKeys | main.py:357-392 | the ten metadata keys, distinct |
| Artifacts.FileManifest | main.py:377-391 | the manifest has keys playbook and research; playbook is "playbook.json", and research lists the vendor and prospect paths that make up `Manifest()`, the paths ResearchPaths writes to |
| Artifacts.Metadata | main.py:357-392 | the metadata can be built exactly when its outputs can; it holds them, status "completed" and the timestamp as run id |
| Schema.Str | models/vendor_elements.py:8 | a required str field is read exactly when present as a string |
| Schema.OptStr | models/vendor_elements.py:11 | an optional str field is None when absent or null |
| Schema.StrList | models/vendor_elements.py:10 | a str list field is read when every item is a string, and defaults to `[]` when allowed |
| Schema.StrDict | models/playbook.py:71-74 | a str-to-str dict field defaults to {} and needs every entry to be a string |
| Schema.Int | models/prospect_intelligence.py:38 | a bounded int field is read exactly when present, an int, and within its bounds |
| Schema.IntOr | models/playbook.py:35-36 | an int field with a default |
| Schema.Items | models/vendor_elements.py:13 | a source list defaults to `[]` |
| Schema.Choice | models/vendor_elements.py:30 | a literal field is read exactly when its string is one of the allowed names |
| Schema.Record | models/prospect_intelligence.py:44 | a required nested record is read exactly when present and valid |
| Schema.List | models/vendor_elements.py:98-108 | a record list is read when every item validates, and defaults to `[]` when allowed |
| Schema.Each | models/vendor_elements.py:98-108 | a list validates exactly when every item does, giving one record per item |
| Schema.EachDumps | models/vendor_elements.py:98-108 | a dumped list reads back when every item round-trips |
| VendorSchema.ParseProofKind | models/vendor_elements.py:30 | the proof point kind is accepted exactly for its four names |
| VendorSchema.ParseRelationship | models/vendor_elements.py:53 | the customer relationship is accepted exactly for its three names |
| VendorSchema.ParseDifferentiatorCategory | models/vendor_elements.py:87 | the differentiator category is accepted exactly for its four names |
| VendorSchema.ParseOffering | models/vendor_elements.py:6-13 | a valid offering has its required fields, and absent optional fields read as their defaults |
| VendorSchema.OfferingRoundTrip | models/vendor_elements.py:6-13 | a dumped offering validates back to itself |
| VendorSchema.CaseStudyRoundTrip | models/vendor_elements.py:16-25 | a dumped case study validates back to itself |
| VendorSchema.ProofPointRoundTrip | models/vendor_elements.py:28-35 | a dumped proof point validates back to itself |
| VendorSchema.ValuePropositionRoundTrip | models/vendor_elements.py:38-44 | a dumped value proposition validates back to itself |
| VendorSchema.ReferenceCustomerRoundTrip | models/vendor_elements.py:47-56 | a dumped reference customer validates back to itself |
| VendorSchema.UseCaseRoundTrip | models/vendor_elements.py:59-67 | a dumped use case validates back to itself |
| VendorSchema.TargetPersonaRoundTrip | models/vendor_elements.py:70-82 | a dumped vendor persona validates back to itself |
| VendorSchema.DifferentiatorRoundTrip | models/vendor_elements.py:85-93 | a dumped differentiator validates back to itself |
| VendorSchema.ParseVendorElements | models/vendor_elements.py:96-108 | every element list of the package defaults to `[]` |
| VendorSchema.VendorElementsRoundTrip | models/vendor_elements.py:96-108 | a dumped vendor element package validates back to itself |
| ProspectSchema.ParsePainCategory | models/prospect_intelligence.py:19 | the pain category is accepted exactly for its five names |
| ProspectSchema.ParseConfidence | models/prospect_intelligence.py:24 | the confidence is accepted exactly for its three names |
| ProspectSchema.ParseCompanyProfile | models/prospect_intelligence.py:6-13 | a valid company profile has its required fields |
| ProspectSchema.CompanyProfileRoundTrip | models/prospect_intelligence.py:6-13 | a dumped company profile validates back to itself |
| ProspectSchema.PainPointRoundTrip | models/prospect_intelligence.py:16-27 | a dumped pain point validates back to itself |
| ProspectSchema.ParseTargetBuyerPersona | models/prospect_intelligence.py:30-39 | a valid buyer persona has its required fields and a priority score from 1 to 10 |
| ProspectSchema.TargetBuyerPersonaRoundTrip | models/prospect_intelligence.py:30-39 | a dumped buyer persona with a score from 1 to 10 validates back to itself |
| ProspectSchema.ProspectIntelligenceRoundTrip | models/prospect_intelligence.py:42-46 | a dumped prospect intelligence package validates back to itself |
| PlaybookSchema.ParseScriptType | models/playbook.py:61 | the script type is accepted exactly for its four names |
| PlaybookSchema.ParseObjectionCategory | models/playbook.py:105 | the objection category is accepted exactly for its five names |
| PlaybookSchema.ParseCardType | models/playbook.py:153 | the battle card type is accepted exactly for its three names |
| PlaybookSchema.ParseEmailTouch | models/playbook.py:15-28 | a valid email touch has a touch number from 1 to 4 and a day of at least 1 |
| PlaybookSchema.EmailTouchRoundTrip | models/playbook.py:15-28 | a dumped email touch within its bounds validates back to itself |
| PlaybookSchema.EmailSequenceRoundTrip | models/playbook.py:31-42 | a dumped email sequence validates back to itself |
| PlaybookSchema.DiscoveryQuestionRoundTrip | models/playbook.py:49-56 | a dumped discovery question validates back to itself |
| PlaybookSchema.CallScriptRoundTrip | models/playbook.py:59-79 | a dumped call script validates back to itself |
| PlaybookSchema.TalkTrackRoundTrip | models/playbook.py:82-95 | a dumped talk track validates back to itself |
| PlaybookSchema.ObjectionResponseRoundTrip | models/playbook.py:102-115 | a dumped objection response validates back to itself |
| PlaybookSchema.CompetitivePositioningRoundTrip | models/playbook.py:118-147 | a dumped competitive positioning validates back to itself |
| PlaybookSchema.BattleCardRoundTrip | models/playbook.py:150-175 | a dumped battle card validates back to itself |
| PlaybookSchema.SalesPlaybookRoundTrip | models/playbook.py:182-228 | a dumped sales playbook validates back to itself |

## Left out

- The agent framework's runtime is not part of this model. That covers the
  `Workflow`, `Parallel` and `Step` classes, streaming, and the terminal display.
  A run is modelled as sequential units whose group members each see the
  records from before the group. A member that raises leaves a failed record.
  A single stage that raises stops the run.
- Concurrency inside a parallel group is left out. Members cannot see each
  other's results, so their order does not matter to the model.
- Step 1 (domain validation) is context, not core. Its results are a parameter
  of the run, given one value per side.
- The helpers in `utils/workflow_helpers.py` are not part of this model.
  - `create_error_response` is taken to give the failed output
    `{"error": message}`.
  - `get_parallel_step_content` is taken to be `get_parallel_substep_content`
    over the run's records.
  - `validate_previous_step_data` is a parameter that gives a verdict on the
    prioritization record.
- The Firecrawl scraper, the batch scraper and every AI agent are function
  parameters. Their replies, and any exceptions they raise, are inputs.
- Prompt text is modelled only as far as what it is built from. JSON
  indentation inside prompts, `print` output and the `traceback` output are left
  out.
- Exception messages are left out. An exception caught by a stage becomes the
  error response with that stage's fixed message prefix, without `str(e)` or the
  exception's type name.
- The clock, `os.makedirs` and the file writes are left out. The run timestamp,
  the start and end times, the duration and today's date are parameters. The
  saved files are modelled as the values written to them.
- Command-line parsing and `WorkflowInput` normalization are not part of this
  model. The domains are parameters.
- Configuration constants, such as the URL budget and the URL counts shown to
  the agent, are parameters.
- `difflib.SequenceMatcher.ratio` is a function parameter that returns a real.
  Its floating-point arithmetic and its matching-blocks algorithm are not
  modelled.
- Case folding covers ASCII letters only.
- Pydantic's lax coercions are left out: strings to ints, and numbers to
  strings. A field is accepted only with its declared JSON type.
- The fields of `Source` records are not validated, because
  `models/common.py` is not part of this model.
- Extra keys on records are ignored, as pydantic does by default.
- Python duck typing beyond dicts and lists is left out. Where the source
  iterates, slices or takes the length of a value, that value must be a list, a
  dict or a string. Any other value raises. `vendor_urls + prospect_urls` in
  step 5 is modelled only for two lists: Python would join two strings into
  one string, and the model raises there instead.
- BatchScrape.VendorLimit: the share `int(max * len(vendor) / len(all))` is
  modelled as exact floor division. Python divides in floating point first,
  and for very large counts the rounded quotient can differ from the floor.
- Schema.StrDict, Schema.IntOr: only the JSON shapes the models declare are
  modelled. Pydantic coercion of other shapes is left out.
- Execution.Apply runs step 3 as corrected (Homepage.AnalyzeHomepage), and
  Artifacts.ResearchFiles writes the customer evidence as corrected
  (Artifacts.CustomerEvidence). The as-written versions are modelled beside them,
  each with a lemma showing the difference; see "## Findings". Under the
  as-written step 3, a missing or falsy scrape result would leave a failed
  member record. It would not stop the run, because step 3 is a parallel group
  member.
- The persona resolver is always called with its default threshold of 0.7.
  Only the similarity measure is a parameter of the run.
- PersonaMatching.FindMatchingPersona: similarity is an abstract function, so
  the model does not prove that an exact title match has similarity 1.0.
- `serve.py`, `test_phase3.py` and the agent definitions are context and are not
  modelled.

## Findings

| source | as written | input that shows it | evidently intended | confidence | as-written member | corrected member |
|---|---|---|---|---|---|---|
| steps/step3_initial_analysis.py:25-26 | when step 2 left no result, `vendor_homepage_data.get(...)` is called on None, so an AttributeError escapes outside the `try`: the stage raises and its member record is a failed one | a run whose vendor homepage scrape record is missing, or holds a falsy non-dict such as the None left by a crashed scrape member | report "Step 2 vendor scraping failed: no data returned" as an error response | not executed | Homepage.AnalyzeHomepageAsWritten, Homepage.AbsentScrapeCrashes, Homepage.FalsyScrapeCrashes | Homepage.AnalyzeHomepage |
| main.py:297 | the customer evidence file reads `customers.get("customers", [])`, but the customer extractor writes its list under "reference_customers" | any run in which `extract_customers` succeeded with a non-empty list | copy the "reference_customers" list, as step 8's summary does at steps/step8_playbook_generation.py:80 | not executed | Artifacts.CustomerEvidenceAsWritten, Artifacts.CustomersNeverCopied | Artifacts.CustomerEvidence, Artifacts.CustomersCopied |
