/** Step 4: choosing which pages of each site to scrape. The stage checks
    both step 1 results, shows an agent at most `max` URLs of each site and
    projects the agent's selection to plain URL lists. */
module Prioritize {
  import opened Values
  import opened Results

  const NoUrls := "No URLs found from Step 1 validation"
  const UnexpectedStructure := "Agent returned unexpected response structure"
  const EmptySelection := "Agent returned empty URL lists"
  const FailurePrefix := "URL prioritization failed ("

  const SelectedKeys := ["vendor_selected_urls", "prospect_selected_urls", "vendor_url_details", "prospect_url_details"]

  /** The agent's prompt: each site's URL count and the URLs shown, one per line. */
  function UrlPrompt(vendorCount: nat, vendorShown: seq<string>, prospectCount: nat, prospectShown: seq<string>): string {
    "\nVENDOR URLs (" + NatToString(vendorCount) + " total):\n" + Join(vendorShown, "\n")
    + "\n\nPROSPECT URLs (" + NatToString(prospectCount) + " total):\n" + Join(prospectShown, "\n")
    + "\n\nSelect the top 10-15 most valuable URLs from each company for sales intelligence gathering.\n"
  }

  /** `urls[:max]` as the strings the prompt joins. */
  function Shown(urls: Value, max: nat): (r: Try<seq<string>>)
    ensures urls.VList? ==> r == Strings(Take(urls.items, max))
  {
    var head :- Slice(urls, max);
    var items :- Iter(head);
    Strings(items)
  }

  /** A step 1 result the stage accepts: a non-empty dict without "error". */
  predicate Usable(data: Option<Value>) {
    Present(data) && data.value.VDict? && "error" !in data.value.d.vals
  }

  /** The guard's message for an unusable step 1 result of company `who`. */
  function Rejection(who: string, data: Option<Value>): string
    requires !Usable(data)
  {
    if !Present(data) || !data.value.VDict? then who + " validation failed: no data"
    else who + " validation failed: " + Render(data.value.d.vals["error"])
  }

  /** `[item.url for item in items]` */
  function Urls(items: seq<Value>): (r: Try<seq<Value>>)
    ensures r.Ok? <==> forall i :: 0 <= i < |items| ==> Get(items[i], "url").Ok?
    ensures r.Ok? ==> |r.value| == |items| && forall i :: 0 <= i < |items| ==> r.value[i] == Get(items[i], "url").value
  {
    if items == [] then Ok([])
    else
      var rest := Urls(items[1..]);
      assert forall i :: 1 <= i < |items| ==> items[i] == items[1..][i - 1];
      match Get(items[0], "url")
      case Throw => Throw
      case Ok(u) => if rest.Throw? then Throw else Ok([u] + rest.value)
  }

  /** The stage output of a selection whose two lists are both usable. */
  function SelectionRecord(vendorUrls: seq<Value>, prospectUrls: seq<Value>, vendorDetails: seq<Value>, prospectDetails: seq<Value>): (r: Value)
    ensures r.VDict? && r.d.keys == SelectedKeys
    ensures Get(r, "vendor_selected_urls") == Ok(VList(vendorUrls)) && Get(r, "prospect_selected_urls") == Ok(VList(prospectUrls))
    ensures Get(r, "vendor_url_details") == Ok(VList(vendorDetails)) && Get(r, "prospect_url_details") == Ok(VList(prospectDetails))
  {
    var r := VDict(DictOf(SelectedKeys, [VList(vendorUrls), VList(prospectUrls), VList(vendorDetails), VList(prospectDetails)]));
    assert SelectedKeys[0] == "vendor_selected_urls" && SelectedKeys[1] == "prospect_selected_urls";
    assert SelectedKeys[2] == "vendor_url_details" && SelectedKeys[3] == "prospect_url_details";
    r
  }

  /** The list under `selKey` is, in order, the `url` field of each entry
      of the list under `detailsKey`. */
  ghost predicate Projects(content: Value, selKey: string, detailsKey: string) {
    content.VDict? && selKey in content.d.vals && detailsKey in content.d.vals
    && var selected := content.d.vals[selKey];
       var details := content.d.vals[detailsKey];
       selected.VList? && details.VList? && |selected.items| == |details.items|
       && forall i :: 0 <= i < |details.items| ==> Get(details.items[i], "url") == Ok(selected.items[i])
  }

  /** Both projections of a successful stage output. */
  ghost predicate ProjectsBoth(content: Value) {
    Projects(content, "vendor_selected_urls", "vendor_url_details")
    && Projects(content, "prospect_selected_urls", "prospect_url_details")
  }

  /** The `try` of step 4: one agent call and the projection of its reply. */
  function Selection(reply: Try<Value>): (r: Try<StepOutput>)
    ensures reply.Throw? ==> r.Throw?
    ensures reply.Ok? && !(HasAttr(reply.value, "vendor_selected_urls") && HasAttr(reply.value, "prospect_selected_urls")) ==>
              r == Ok(ErrorResponse(UnexpectedStructure))
    ensures reply.Ok? && HasAttr(reply.value, "vendor_selected_urls") && HasAttr(reply.value, "prospect_selected_urls")
            && !(Truthy(reply.value.d.vals["vendor_selected_urls"]) && Truthy(reply.value.d.vals["prospect_selected_urls"])) ==>
              r == Ok(ErrorResponse(EmptySelection))
    ensures r.Ok? && r.value.success ==>
              reply.Ok? && var sel := reply.value;
              HasAttr(sel, "vendor_selected_urls") && HasAttr(sel, "prospect_selected_urls")
              && Truthy(sel.d.vals["vendor_selected_urls"]) && Truthy(sel.d.vals["prospect_selected_urls"])
              && r.value.content.VDict? && r.value.content.d.keys == SelectedKeys
              && ProjectsBoth(r.value.content)
              && Iter(sel.d.vals["vendor_selected_urls"]) == Ok(r.value.content.d.vals["vendor_url_details"].items)
              && Iter(sel.d.vals["prospect_selected_urls"]) == Ok(r.value.content.d.vals["prospect_url_details"].items)
  {
    var result :- reply;
    if !HasAttr(result, "vendor_selected_urls") || !HasAttr(result, "prospect_selected_urls") then
      Ok(ErrorResponse(UnexpectedStructure))
    else
      var vendorSel := result.d.vals["vendor_selected_urls"];
      var prospectSel := result.d.vals["prospect_selected_urls"];
      if !Truthy(vendorSel) || !Truthy(prospectSel) then Ok(ErrorResponse(EmptySelection))
      else
        var vendorItems :- Iter(vendorSel);
        var vendorUrls :- Urls(vendorItems);
        var prospectItems :- Iter(prospectSel);
        var prospectUrls :- Urls(prospectItems);
        var vendorDetails :- ModelDumps(vendorSel);
        var prospectDetails :- ModelDumps(prospectSel);
        Ok(SuccessResponse(SelectionRecord(vendorUrls, prospectUrls, vendorDetails, prospectDetails)))
  }

  /** Counting, truncating and joining both URL lists, then the `try`. */
  function Ask(vendorUrls: Value, prospectUrls: Value, max: nat, agent: string -> Try<Value>): (r: Try<StepOutput>)
    ensures r.Ok? && r.value.success ==> ProjectsBoth(r.value.content)
    ensures vendorUrls.VList? && prospectUrls.VList?
            && Strings(Take(vendorUrls.items, max)).Ok? && Strings(Take(prospectUrls.items, max)).Ok? ==>
              r == Ok(Guarded(Selection(agent(UrlPrompt(|vendorUrls.items|, Strings(Take(vendorUrls.items, max)).value,
                                                        |prospectUrls.items|, Strings(Take(prospectUrls.items, max)).value))),
                              FailurePrefix))
  {
    var vendorCount :- Len(vendorUrls);
    var prospectCount :- Len(prospectUrls);
    var vendorShown :- Shown(vendorUrls, max);
    var prospectShown :- Shown(prospectUrls, max);
    Ok(Guarded(Selection(agent(UrlPrompt(vendorCount, vendorShown, prospectCount, prospectShown))), FailurePrefix))
  }

  /** The code of `prioritize_urls` before its `try`. */
  function PrioritizeAttempt(vendorData: Option<Value>, prospectData: Option<Value>, max: nat, agent: string -> Try<Value>): Try<StepOutput> {
    if !Usable(vendorData) then Ok(ErrorResponse(Rejection("Vendor", vendorData)))
    else if !Usable(prospectData) then Ok(ErrorResponse(Rejection("Prospect", prospectData)))
    else
      var vendorUrls := GetOr(vendorData.value, "vendor_urls", EmptyList).value;
      var prospectUrls := GetOr(prospectData.value, "prospect_urls", EmptyList).value;
      if !Truthy(vendorUrls) || !Truthy(prospectUrls) then Ok(ErrorResponse(NoUrls))
      else Ask(vendorUrls, prospectUrls, max, agent)
  }

  /** `prioritize_urls`, with `MAX_URLS_FOR_PRIORITIZATION` as `max`. */
  function PrioritizeUrls(vendorData: Option<Value>, prospectData: Option<Value>, max: nat, agent: string -> Try<Value>): (r: Outcome)
    ensures !Usable(vendorData) ==> r == Completed(ErrorResponse(Rejection("Vendor", vendorData)))
    ensures Usable(vendorData) && !Usable(prospectData) ==> r == Completed(ErrorResponse(Rejection("Prospect", prospectData)))
    ensures Usable(vendorData) && Usable(prospectData)
            && !(Truthy(GetOr(vendorData.value, "vendor_urls", EmptyList).value) && Truthy(GetOr(prospectData.value, "prospect_urls", EmptyList).value)) ==>
              r == Completed(ErrorResponse(NoUrls))
    ensures r.Completed? && r.output.success ==>
              Usable(vendorData) && Usable(prospectData)
              && ProjectsBoth(r.output.content)
  {
    Settle(PrioritizeAttempt(vendorData, prospectData, max, agent))
  }

  /** URLs beyond the first `max` of each list never reach the agent: two
      step 1 results for the vendor that agree on the count and on the first
      `max` URLs give the same stage result. */
  lemma OnlyFirstMaxShown(v1: Option<Value>, v2: Option<Value>, prospectData: Option<Value>, max: nat, agent: string -> Try<Value>)
    requires Usable(v1) && Usable(v2)
    requires "vendor_urls" in v1.value.d.vals && "vendor_urls" in v2.value.d.vals
    requires v1.value.d.vals["vendor_urls"].VList? && v2.value.d.vals["vendor_urls"].VList?
    requires v1.value.d.vals["vendor_urls"].items != [] && v2.value.d.vals["vendor_urls"].items != []
    requires |v1.value.d.vals["vendor_urls"].items| == |v2.value.d.vals["vendor_urls"].items|
    requires Take(v1.value.d.vals["vendor_urls"].items, max) == Take(v2.value.d.vals["vendor_urls"].items, max)
    ensures PrioritizeUrls(v1, prospectData, max, agent) == PrioritizeUrls(v2, prospectData, max, agent)
  {
  }
}
