/** Step 5: batch scraping the selected pages. The stage caps the number of
    URLs at `max` by a proportional split, hands them to the batch scraper,
    and sorts the pages it gets back into vendor and prospect content. */
module BatchScrape {
  import opened Values
  import opened Results

  /** What `validate_previous_step_data` decides about the step 4 result. */
  datatype Validation = Valid(data: Value) | Invalid(message: string)

  const FailurePrefix := "Batch scraping failed: "

  // ------------------------------------------------------------ the URL cap

  /** `int(max * len(vendor_urls) / len(all_urls))` read as floor division. */
  function VendorLimit(max: nat, vendorCount: nat, prospectCount: nat): nat
    requires vendorCount + prospectCount > 0
  {
    max * vendorCount / (vendorCount + prospectCount)
  }

  lemma MulLeft(a: nat, b: nat, c: nat)
    requires a <= b
    ensures a * c <= b * c
  {
  }

  /** Multiplication by a positive number keeps strict order backwards. */
  lemma MulCancel(a: nat, b: nat, c: nat)
    requires c > 0 && a * c < b * c
    ensures a < b
  {
  }

  /** Floor division brackets its dividend. */
  lemma DivBracket(x: nat, t: nat)
    requires t > 0
    ensures (x / t) * t <= x < (x / t) * t + t
  {
  }

  /** A multiple of `t` at most `x` is at most `(x / t) * t`. */
  lemma {:induction false} DivLower(a: nat, x: nat, t: nat)
    requires t > 0 && a * t <= x
    ensures a <= x / t
  {
    DivBracket(x, t);
    assert a * t < (x / t + 1) * t;
    MulCancel(a, x / t + 1, t);
  }

  /** A multiple of `t` at least `x` bounds the quotient from above. */
  lemma {:induction false} DivUpper(b: nat, x: nat, t: nat)
    requires t > 0 && x <= b * t
    ensures x / t <= b
  {
    DivBracket(x, t);
    assert (x / t) * t < (b + 1) * t;
    MulCancel(x / t, b + 1, t);
  }

  /** When the lists exceed the budget, the vendor's share fits its list,
      the prospect's remainder fits the prospect list, and the two use it up. */
  lemma {:induction false} SplitFits(max: nat, v: nat, p: nat)
    requires v + p > max
    ensures VendorLimit(max, v, p) <= v && VendorLimit(max, v, p) <= max
    ensures max - VendorLimit(max, v, p) <= p
  {
    var t := v + p;
    MulLeft(max, t, v);
    assert max * v <= v * t;
    DivUpper(v, max * v, t);
    MulLeft(v, t, max);
    assert max * v <= max * t;
    DivUpper(max, max * v, t);
    if max > p {
      var a: nat := max - p;
      assert a * t == max * v + p * (max - v - p);
      assert p * (max - v - p) <= 0 by {
        MulLeft(0, p, v + p - max);
      }
      DivLower(a, max * v, t);
    }
  }

  /** The two URL lists after the cap: unchanged within the budget,
      otherwise the proportional prefixes. */
  function Capped(vendor: seq<Value>, prospect: seq<Value>, max: nat): (r: (seq<Value>, seq<Value>))
    ensures |vendor| + |prospect| <= max ==> r == (vendor, prospect)
    ensures r.0 <= vendor && r.1 <= prospect
    ensures |vendor| + |prospect| > max ==>
              |r.0| == VendorLimit(max, |vendor|, |prospect|) && |r.0| + |r.1| == max
  {
    if |vendor| + |prospect| <= max then (vendor, prospect)
    else
      var limit := VendorLimit(max, |vendor|, |prospect|);
      SplitFits(max, |vendor|, |prospect|);
      (Take(vendor, limit), Take(prospect, max - limit))
  }

  // ------------------------------------------------------------ the pages

  predicate Readable(pages: ODict<Value>, url: string) {
    Entry(pages, url).VDict?
  }

  /** `data.get("markdown", "")` of a page. */
  function Markdown(pages: ODict<Value>, url: string): Value
    requires Readable(pages, url)
  {
    GetOr(Entry(pages, url), "markdown", VStr("")).value
  }

  /** A page the loop stores: readable, with non-empty markdown. */
  predicate Kept(pages: ODict<Value>, url: string) {
    Readable(pages, url) && Truthy(Markdown(pages, url))
  }

  datatype Split = Split(vendor: ODict<Value>, prospect: ODict<Value>)

  /** The content maps after the loop has seen the pages `urls` in order:
      a page with empty markdown is skipped, a URL in the vendor list goes
      to the vendor map (even when the prospect list has it too), one only
      in the prospect list to the prospect map, and any other is dropped.
      A page that is not a dict raises. */
  function Partition(urls: seq<string>, pages: ODict<Value>, vendor: seq<Value>, prospect: seq<Value>): (r: Try<Split>)
    ensures r.Ok? <==> forall i :: 0 <= i < |urls| ==> Readable(pages, urls[i])
    ensures r.Ok? ==> WellFormed(r.value.vendor) && WellFormed(r.value.prospect)
    ensures r.Ok? ==> forall k :: k in r.value.vendor.vals <==> k in urls && Kept(pages, k) && VStr(k) in vendor
    ensures r.Ok? ==> forall k :: k in r.value.prospect.vals <==>
                                    k in urls && Kept(pages, k) && VStr(k) !in vendor && VStr(k) in prospect
    ensures r.Ok? ==> forall k :: k in r.value.vendor.vals ==> Kept(pages, k) && r.value.vendor.vals[k] == Markdown(pages, k)
    ensures r.Ok? ==> forall k :: k in r.value.prospect.vals ==> Kept(pages, k) && r.value.prospect.vals[k] == Markdown(pages, k)
  {
    if urls == [] then Ok(Split(Empty(), Empty()))
    else
      var init := Partition(urls[..|urls| - 1], pages, vendor, prospect);
      var url := urls[|urls| - 1];
      assert forall k :: k in urls <==> k in urls[..|urls| - 1] || k == url;
      if init.Throw? || !Readable(pages, url) then Throw
      else if !Kept(pages, url) then init
      else if VStr(url) in vendor then Ok(Split(Put(init.value.vendor, url, Markdown(pages, url)), init.value.prospect))
      else if VStr(url) in prospect then Ok(Split(init.value.vendor, Put(init.value.prospect, url, Markdown(pages, url))))
      else init
  }

  /** The two content maps never share a URL, and every stored page is non-empty. */
  lemma PartitionDisjoint(urls: seq<string>, pages: ODict<Value>, vendor: seq<Value>, prospect: seq<Value>)
    requires Partition(urls, pages, vendor, prospect).Ok?
    ensures var s := Partition(urls, pages, vendor, prospect).value;
            (forall k :: k in s.vendor.vals ==> k !in s.prospect.vals)
            && (forall k :: k in s.vendor.vals ==> Truthy(s.vendor.vals[k]))
            && (forall k :: k in s.prospect.vals ==> Truthy(s.prospect.vals[k]))
  {
  }

  /** `xs` lists some of the elements of `ys`, in the order of `ys`. */
  predicate InOrder(xs: seq<string>, ys: seq<string>)
    decreases |ys|
  {
    if ys == [] then xs == []
    else if xs != [] && xs[|xs| - 1] == ys[|ys| - 1] then InOrder(xs[..|xs| - 1], ys[..|ys| - 1])
    else InOrder(xs, ys[..|ys| - 1])
  }

  lemma InOrderSkip(xs: seq<string>, ys: seq<string>, y: string)
    requires InOrder(xs, ys) && y !in xs
    ensures InOrder(xs, ys + [y])
  {
    assert (ys + [y])[..|ys|] == ys;
  }

  lemma InOrderTake(xs: seq<string>, ys: seq<string>, y: string)
    requires InOrder(xs, ys)
    ensures InOrder(xs + [y], ys + [y])
  {
    assert (ys + [y])[..|ys|] == ys;
    assert (xs + [y])[..|xs|] == xs;
  }

  /** Each content map lists its URLs in the order the scraper returned
      the pages (the keys of a Python dict are distinct). */
  lemma {:induction false} PartitionInOrder(urls: seq<string>, pages: ODict<Value>, vendor: seq<Value>, prospect: seq<Value>)
    requires Distinct(urls)
    ensures var r := Partition(urls, pages, vendor, prospect);
            r.Ok? ==> InOrder(r.value.vendor.keys, urls) && InOrder(r.value.prospect.keys, urls)
  {
    if urls != [] {
      var n := |urls| - 1;
      assert urls[..n + 1] == urls;
      PartitionSnoc(urls, n, pages, vendor, prospect);
      PartitionInOrder(urls[..n], pages, vendor, prospect);
      var init := Partition(urls[..n], pages, vendor, prospect);
      if init.Ok? && Readable(pages, urls[n]) {
        assert urls == urls[..n] + [urls[n]];
        assert urls[n] !in urls[..n];
        StoreInOrder(init.value, urls[..n], urls[n], pages, vendor, prospect);
      }
    }
  }

  /** Storing a new page keeps both maps in page order. */
  lemma StoreInOrder(s: Split, ys: seq<string>, url: string, pages: ODict<Value>, vendor: seq<Value>, prospect: seq<Value>)
    requires Readable(pages, url) && WellFormed(s.vendor) && WellFormed(s.prospect)
    requires InOrder(s.vendor.keys, ys) && InOrder(s.prospect.keys, ys)
    requires url !in s.vendor.vals && url !in s.prospect.vals
    ensures InOrder(Store(s, url, pages, vendor, prospect).vendor.keys, ys + [url])
    ensures InOrder(Store(s, url, pages, vendor, prospect).prospect.keys, ys + [url])
  {
    if Kept(pages, url) && VStr(url) in vendor {
      InOrderTake(s.vendor.keys, ys, url);
      InOrderSkip(s.prospect.keys, ys, url);
    } else if Kept(pages, url) && VStr(url) in prospect {
      InOrderSkip(s.vendor.keys, ys, url);
      InOrderTake(s.prospect.keys, ys, url);
    } else {
      InOrderSkip(s.vendor.keys, ys, url);
      InOrderSkip(s.prospect.keys, ys, url);
    }
  }

  /** What the loop does with one readable page. */
  function Store(s: Split, url: string, pages: ODict<Value>, vendor: seq<Value>, prospect: seq<Value>): Split
    requires Readable(pages, url)
  {
    if !Kept(pages, url) then s
    else if VStr(url) in vendor then Split(Put(s.vendor, url, Markdown(pages, url)), s.prospect)
    else if VStr(url) in prospect then Split(s.vendor, Put(s.prospect, url, Markdown(pages, url)))
    else s
  }

  /** The split of one more page is one more loop iteration. */
  lemma PartitionSnoc(urls: seq<string>, i: nat, pages: ODict<Value>, vendor: seq<Value>, prospect: seq<Value>)
    requires i < |urls|
    ensures Partition(urls[..i + 1], pages, vendor, prospect) ==
              var init := Partition(urls[..i], pages, vendor, prospect);
              if init.Throw? || !Readable(pages, urls[i]) then Throw else Ok(Store(init.value, urls[i], pages, vendor, prospect))
  {
    assert urls[..i + 1][..i] == urls[..i];
  }

  /** The loop of `batch_scrape_selected_pages` over the scraper's pages,
      filling the two content dicts in place. */
  method PartitionPages(pages: ODict<Value>, vendor: seq<Value>, prospect: seq<Value>) returns (r: Try<Split>)
    ensures r == Partition(pages.keys, pages, vendor, prospect)
  {
    var vendorContent := Empty();
    var prospectContent := Empty();
    var i := 0;
    while i < |pages.keys|
      invariant 0 <= i <= |pages.keys|
      invariant Partition(pages.keys[..i], pages, vendor, prospect) == Ok(Split(vendorContent, prospectContent))
    {
      var url := pages.keys[i];
      PartitionSnoc(pages.keys, i, pages, vendor, prospect);
      var data := Entry(pages, url);
      if !data.VDict? {
        PrefixThrowStays(pages.keys, i + 1, pages, vendor, prospect);
        return Throw;
      }
      var markdown := GetOr(data, "markdown", VStr("")).value;
      if Truthy(markdown) {
        if VStr(url) in vendor {
          vendorContent := Put(vendorContent, url, markdown);
        } else if VStr(url) in prospect {
          prospectContent := Put(prospectContent, url, markdown);
        }
      }
      i := i + 1;
    }
    assert pages.keys[..i] == pages.keys;
    r := Ok(Split(vendorContent, prospectContent));
  }

  /** Once a page raises, the whole loop raises. */
  lemma {:induction false} PrefixThrowStays(urls: seq<string>, n: nat, pages: ODict<Value>, vendor: seq<Value>, prospect: seq<Value>)
    requires n <= |urls|
    requires Partition(urls[..n], pages, vendor, prospect).Throw?
    ensures Partition(urls, pages, vendor, prospect).Throw?
  {
    var i :| 0 <= i < |urls[..n]| && !Readable(pages, urls[..n][i]);
    assert urls[..n][i] == urls[i];
  }

  // ------------------------------------------------------------ the stage

  /** `sum(len(content) for content in d.values())` */
  function SumLen(keys: seq<string>, d: ODict<Value>): Try<nat> {
    if keys == [] then Ok(0)
    else
      var init :- SumLen(keys[..|keys| - 1], d);
      var last :- Len(Entry(d, keys[|keys| - 1]));
      Ok(init + last)
  }

  const StatsKeys := ["vendor_pages", "prospect_pages", "vendor_chars", "prospect_chars"]
  function OutputKeys(): (r: seq<string>)
    ensures Distinct(r) && |r| == 6
  {
    ["vendor_content", "prospect_content", "vendor_urls_scraped", "prospect_urls_scraped", "total_scraped", "stats"]
  }

  /** The success record of the stage. */
  function BatchRecord(split: Split, total: nat, vendorChars: nat, prospectChars: nat): (r: Value)
    ensures r.VDict? && r.d.keys == OutputKeys()
    ensures Get(r, "vendor_content") == Ok(VDict(split.vendor)) && Get(r, "prospect_content") == Ok(VDict(split.prospect))
    ensures Get(r, "vendor_urls_scraped") == Ok(VList(StrValues(split.vendor.keys)))
    ensures Get(r, "prospect_urls_scraped") == Ok(VList(StrValues(split.prospect.keys)))
    ensures Get(r, "total_scraped") == Ok(VInt(total))
    ensures Get(r, "stats") == Ok(StatsRecord(|split.vendor.keys|, |split.prospect.keys|, vendorChars, prospectChars))
  {
    var vs := [VDict(split.vendor), VDict(split.prospect), VList(StrValues(split.vendor.keys)), VList(StrValues(split.prospect.keys)),
               VInt(total), StatsRecord(|split.vendor.keys|, |split.prospect.keys|, vendorChars, prospectChars)];
    var ks := OutputKeys();
    assert ks[0] == "vendor_content" && ks[1] == "prospect_content" && ks[2] == "vendor_urls_scraped";
    assert ks[3] == "prospect_urls_scraped" && ks[4] == "total_scraped" && ks[5] == "stats";
    var r := VDict(DictOf(ks, vs));
    r
  }

  function StatsRecord(vendorPages: nat, prospectPages: nat, vendorChars: nat, prospectChars: nat): (r: Value)
    ensures r.VDict? && r.d.keys == StatsKeys
    ensures Get(r, "vendor_pages") == Ok(VInt(vendorPages)) && Get(r, "prospect_pages") == Ok(VInt(prospectPages))
    ensures Get(r, "vendor_chars") == Ok(VInt(vendorChars)) && Get(r, "prospect_chars") == Ok(VInt(prospectChars))
  {
    var r := VDict(DictOf(StatsKeys, [VInt(vendorPages), VInt(prospectPages), VInt(vendorChars), VInt(prospectChars)]));
    assert StatsKeys[0] == "vendor_pages" && StatsKeys[1] == "prospect_pages";
    assert StatsKeys[2] == "vendor_chars" && StatsKeys[3] == "prospect_chars";
    r
  }

  /** The `try` of the stage: one batch call and the split of its pages. */
  function Scrape(vendor: seq<Value>, prospect: seq<Value>, batch: seq<Value> -> Try<Value>): (r: Try<StepOutput>)
    ensures batch(vendor + prospect).Throw? ==> r.Throw?
    ensures batch(vendor + prospect).Ok? && Get(batch(vendor + prospect).value, "success").Throw? ==> r.Throw?
    ensures batch(vendor + prospect).Ok? && Get(batch(vendor + prospect).value, "success").Ok?
            && !Truthy(Get(batch(vendor + prospect).value, "success").value) ==>
              r == Ok(ErrorResponse(FailurePrefix + Render(GetOr(batch(vendor + prospect).value, "error", VStr("Unknown error")).value)))
    ensures batch(vendor + prospect).Ok? && Get(batch(vendor + prospect).value, "success").Ok?
            && Truthy(Get(batch(vendor + prospect).value, "success").value)
            && !(Get(batch(vendor + prospect).value, "results").Ok? && Get(batch(vendor + prospect).value, "results").value.VDict?) ==>
              r.Throw?
    ensures r.Ok? && !r.value.success ==>
              r == Ok(ErrorResponse(FailurePrefix + Render(GetOr(batch(vendor + prospect).value, "error", VStr("Unknown error")).value)))
    ensures r.Ok? && r.value.success ==>
              batch(vendor + prospect).Ok? && var reply := batch(vendor + prospect).value;
              Get(reply, "results").Ok? && Get(reply, "results").value.VDict?
              && var pages := Get(reply, "results").value.d;
                 Partition(pages.keys, pages, vendor, prospect).Ok?
                 && var split := Partition(pages.keys, pages, vendor, prospect).value;
                    SumLen(split.vendor.keys, split.vendor).Ok? && SumLen(split.prospect.keys, split.prospect).Ok?
                    && r.value.content == BatchRecord(split, |pages.keys|, SumLen(split.vendor.keys, split.vendor).value,
                                                      SumLen(split.prospect.keys, split.prospect).value)
  {
    var reply :- batch(vendor + prospect);
    var succeeded :- Get(reply, "success");
    if !Truthy(succeeded) then
      var err := GetOr(reply, "error", VStr("Unknown error")).value;
      Ok(ErrorResponse(FailurePrefix + Render(err)))
    else
      var results :- Get(reply, "results");
      if !results.VDict? then Throw
      else
        var split :- Partition(results.d.keys, results.d, vendor, prospect);
        var vendorChars :- SumLen(split.vendor.keys, split.vendor);
        var prospectChars :- SumLen(split.prospect.keys, split.prospect);
        Ok(SuccessResponse(BatchRecord(split, |results.d.keys|, vendorChars, prospectChars)))
  }

  /** The selected lists of a valid step 4 result, or `Throw` where Python
      raises outside the `try` (the data is not a dict, or the lists cannot
      be concatenated). */
  function SelectedLists(data: Value): Try<(seq<Value>, seq<Value>)> {
    var vendorUrls :- GetOr(data, "vendor_selected_urls", EmptyList);
    var prospectUrls :- GetOr(data, "prospect_selected_urls", EmptyList);
    if vendorUrls.VList? && prospectUrls.VList? then Ok((vendorUrls.items, prospectUrls.items)) else Throw
  }

  /** `batch_scrape_selected_pages`, with `MAX_URLS_TO_SCRAPE` as `max`. */
  function BatchScrapeSelectedPages(validation: Validation, max: nat, batch: seq<Value> -> Try<Value>): (r: Outcome)
    ensures validation.Invalid? ==> r == Completed(ErrorResponse(validation.message))
    ensures validation.Valid? && SelectedLists(validation.data).Throw? ==> r == Crashed
    ensures validation.Valid? && SelectedLists(validation.data).Ok? ==>
              var (vendor, prospect) := SelectedLists(validation.data).value;
              var (v, p) := Capped(vendor, prospect, max);
              r == Completed(Guarded(Scrape(v, p, batch), FailurePrefix))
  {
    match validation
    case Invalid(message) => Completed(ErrorResponse(message))
    case Valid(data) =>
      match SelectedLists(data)
      case Throw => Crashed
      case Ok((vendor, prospect)) =>
        var (v, p) := Capped(vendor, prospect, max);
        Completed(Guarded(Scrape(v, p, batch), FailurePrefix))
  }

  /** A batch call that raises, or that reports no success, ends the stage
      with the "Batch scraping failed" error response. */
  lemma BatchFailureReported(validation: Validation, max: nat, batch: seq<Value> -> Try<Value>)
    requires validation.Valid? && SelectedLists(validation.data).Ok?
    ensures var (vendor, prospect) := SelectedLists(validation.data).value;
            var (v, p) := Capped(vendor, prospect, max);
            var call := batch(v + p);
            var stage := BatchScrapeSelectedPages(validation, max, batch);
            (call.Throw? ==> stage == Completed(ErrorResponse(FailurePrefix)))
            && (call.Ok? && Get(call.value, "success").Ok? && !Truthy(Get(call.value, "success").value) ==>
                  stage == Completed(ErrorResponse(FailurePrefix + Render(GetOr(call.value, "error", VStr("Unknown error")).value))))
  {
  }

  /** A successful stage's statistics agree with its own content maps, and
      `total_scraped` counts every page returned, skipped ones included. */
  lemma StatsAgree(vendor: seq<Value>, prospect: seq<Value>, batch: seq<Value> -> Try<Value>)
    requires Scrape(vendor, prospect, batch).Ok? && Scrape(vendor, prospect, batch).value.success
    ensures var c := Scrape(vendor, prospect, batch).value.content;
            var pages := Get(batch(vendor + prospect).value, "results").value.d;
            var stats := Get(c, "stats").value;
            Get(c, "total_scraped") == Ok(VInt(|pages.keys|))
            && Get(stats, "vendor_pages") == Ok(VInt(|Get(c, "vendor_content").value.d.keys|))
            && Get(stats, "prospect_pages") == Ok(VInt(|Get(c, "prospect_content").value.d.keys|))
  {
  }

  /** The imperative form of the stage: it reassigns the URL lists when they
      exceed the budget, runs the page loop, and builds the same output. */
  method BatchScrapeSelectedPagesMethod(validation: Validation, max: nat, batch: seq<Value> -> Try<Value>) returns (r: Outcome)
    ensures r == BatchScrapeSelectedPages(validation, max, batch)
  {
    if validation.Invalid? {
      return Completed(ErrorResponse(validation.message));
    }
    var lists := SelectedLists(validation.data);
    if lists.Throw? {
      return Crashed;
    }
    var vendorUrls := lists.value.0;
    var prospectUrls := lists.value.1;
    var allUrls := vendorUrls + prospectUrls;
    if |allUrls| > max {
      var vendorLimit := max * |vendorUrls| / |allUrls|;
      var prospectLimit := max - vendorLimit;
      SplitFits(max, |vendorUrls|, |prospectUrls|);
      vendorUrls := vendorUrls[..vendorLimit];
      prospectUrls := Take(prospectUrls, prospectLimit);
      allUrls := vendorUrls + prospectUrls;
    }
    assert (vendorUrls, prospectUrls) == Capped(lists.value.0, lists.value.1, max);
    var body := ScrapeMethod(vendorUrls, prospectUrls, batch);
    r := Completed(Guarded(body, FailurePrefix));
  }

  /** The `try` block of the stage: the batch call and the loop over its pages. */
  method ScrapeMethod(vendor: seq<Value>, prospect: seq<Value>, batch: seq<Value> -> Try<Value>) returns (body: Try<StepOutput>)
    ensures body == Scrape(vendor, prospect, batch)
  {
    var reply := batch(vendor + prospect);
    if reply.Throw? || Get(reply.value, "success").Throw? {
      return Throw;
    }
    if !Truthy(Get(reply.value, "success").value) {
      var err := GetOr(reply.value, "error", VStr("Unknown error"));
      return Ok(ErrorResponse(FailurePrefix + Render(err.value)));
    }
    var results := Get(reply.value, "results");
    if results.Throw? || !results.value.VDict? {
      return Throw;
    }
    var split := PartitionPages(results.value.d, vendor, prospect);
    if split.Throw? {
      return Throw;
    }
    var vendorChars := SumLen(split.value.vendor.keys, split.value.vendor);
    var prospectChars := SumLen(split.value.prospect.keys, split.value.prospect);
    if vendorChars.Throw? || prospectChars.Throw? {
      return Throw;
    }
    body := Ok(SuccessResponse(BatchRecord(split.value, |results.value.d.keys|, vendorChars.value, prospectChars.value)));
  }
}
