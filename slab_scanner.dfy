/** slab_scanner.py: paging through the market search for slabs, deriving the
    sticker a slab holds from its name, and pricing both sides of every pair.

    The search pages are fetched with `SteamClient.request_json`, so they come
    from the client's answer oracle like every other GET. For the search the
    oracle is a finite feed `answers`: every GET past its end fails. The query
    parameters (other than the page offset) and the log lines are not
    modelled. */
module SlabScanner {
  import opened Wrappers
  import opened Text
  import opened PyJson
  import opened Config
  import opened Models
  import opened Steam

  /** The market names that are slabs start with this. */
  const SlabPrefix: string := "Sticker Slab |"
  /** The matching sticker's name starts with this instead. */
  const StickerPrefix: string := "Sticker |"
  /** Results asked for per search page (`count`). */
  const PageSize: nat := 100

  /** A finite feed of answers: the `k`-th GET gets `answers[k]`, and every GET
      after the feed ends raises. */
  function Feed(answers: seq<Attempt>): nat -> Attempt {
    (k: nat) => if k < |answers| then answers[k] else RequestException
  }

  /** No GET past the end of the feed is accepted, so a request that starts
      there returns nothing. */
  lemma FeedExhausted(answers: seq<Attempt>, made: nat)
    requires |answers| <= made
    ensures Retry(Feed(answers), made, Retries) == (None, Retries)
  {
    RetryOutcome(Feed(answers), made, Retries);
  }

  /** A request makes at least one GET, and an answer it returns was within
      the feed. */
  lemma FeedProgress(answers: seq<Attempt>, made: nat)
    ensures var r := Retry(Feed(answers), made, Retries);
      r.1 >= 1 && (r.0.Some? ==> made + r.1 <= |answers|)
  {
    RetryOutcome(Feed(answers), made, Retries);
  }

  /** The loop test `total_count is None or start < total_count`: Python
      compares an int with an int, a float or a bool, and raises `TypeError` for
      anything else. */
  function Continues(start: int, total: Json): (r: Result<bool, PyException>)
    ensures total.JNull? ==> r == Success(true)
    ensures total.JInt? ==> r == Success(start < total.i)
    ensures (total.JStr? || total.JArr? || total.JObj?) ==> r == Failure(TypeError)
  {
    match total
    case JNull => Success(true)
    case JBool(b) => Success(start < (if b then 1 else 0))
    case JInt(n) => Success(start < n)
    case JFloat(f) => Success((start as real) < f)
    case _ => Failure(TypeError)
  }

  /** What `for item in results` iterates over: the elements of a list; an
      empty string or object yields nothing; the characters of a non-empty
      string and the keys of a non-empty object are strings, on which
      `item.get` raises `AttributeError`; `None`, numbers and booleans are not
      iterable. */
  function Iterated(results: Json): (r: Result<seq<Json>, PyException>)
    ensures r.Success? <==> results.JArr? || ((results.JStr? || results.JObj?) && !Truthy(results))
    ensures results.JArr? ==> r == Success(results.items)
  {
    match results
    case JArr(items) => Success(items)
    case JStr(s) => if s == [] then Success([]) else Failure(AttributeError)
    case JObj(fields) => if fields == map[] then Success([]) else Failure(AttributeError)
    case _ => Failure(TypeError)
  }

  /** One search result: `AttributeError` when it is not an object or its
      `hash_name` is not a string; nothing when the name is not a slab's;
      otherwise the slab with its `sell_price` read by `float()`, or `0.0` when
      `float()` rejects it. */
  function SlabOf(item: Json): (r: Result<Option<SlabItem>, PyException>)
    ensures r.Failure? <==> !item.JObj? || !GetOr(item.fields, "hash_name", JStr("")).JStr?
    ensures r.Failure? ==> r.error == AttributeError
    ensures r.Success? && r.value.Some? ==>
      StartsWith(r.value.value.name, SlabPrefix) && GetOr(item.fields, "hash_name", JStr("")) == JStr(r.value.value.name)
    ensures r.Success? ==> (r.value.Some? <==> StartsWith(GetOr(item.fields, "hash_name", JStr("")).s, SlabPrefix))
  {
    if !item.JObj? then Failure(AttributeError)
    else
      var name := GetOr(item.fields, "hash_name", JStr(""));
      if !name.JStr? then Failure(AttributeError)
      else if !StartsWith(name.s, SlabPrefix) then Success(None)
      else
        var price := match PyFloat(GetOr(item.fields, "sell_price", JInt(0)))
                     case Success(x) => x
                     case Failure(_) => 0.0;
        Success(Some(SlabItem(name.s, price)))
  }

  /** A listed slab with an integer price is read as that slab at that price. */
  lemma SlabOfListing(rest: string, price: int)
    ensures SlabOf(JObj(map["hash_name" := JStr(SlabPrefix + rest), "sell_price" := JInt(price)])) ==
            Success(Some(SlabItem(SlabPrefix + rest, price as real)))
  {
    var name := SlabPrefix + rest;
    assert name[..|SlabPrefix|] == SlabPrefix;
  }

  /** A listed slab whose price `float()` rejects, with a `TypeError` or a
      `ValueError`, is kept at price `0.0`. */
  lemma SlabOfUnpriced(rest: string, price: Json)
    requires PyFloat(price).Failure?
    ensures SlabOf(JObj(map["hash_name" := JStr(SlabPrefix + rest), "sell_price" := price])) ==
            Success(Some(SlabItem(SlabPrefix + rest, 0.0)))
  {
    var name := SlabPrefix + rest;
    assert name[..|SlabPrefix|] == SlabPrefix;
  }

  /** The inner loop over one page's results from the `j`-th on, appending to
      `acc`: the first item that raises ends the whole scrape. */
  function ItemsFrom(items: seq<Json>, j: nat, acc: seq<SlabItem>): Result<seq<SlabItem>, PyException>
    requires j <= |items|
    decreases |items| - j
  {
    if j == |items| then Success(acc)
    else
      match SlabOf(items[j])
      case Failure(e) => Failure(e)
      case Success(None) => ItemsFrom(items, j + 1, acc)
      case Success(Some(s)) => ItemsFrom(items, j + 1, acc + [s])
  }

  /** The slabs among `items`, in order; items that raise are passed over. */
  function SlabsOn(items: seq<Json>): (slabs: seq<SlabItem>)
    ensures |slabs| <= |items|
    ensures AllSlabNames(slabs)
  {
    if items == [] then []
    else SlabsOf(items[0]) + SlabsOn(items[1..])
  }

  /** The slab an item reads as, if it reads as one. */
  function SlabsOf(item: Json): (slabs: seq<SlabItem>)
    ensures |slabs| <= 1
    ensures forall s :: s in slabs ==> StartsWith(s.name, SlabPrefix)
  {
    match SlabOf(item)
    case Success(Some(s)) => [s]
    case _ => []
  }

  /** A slab is on the page exactly when some item of the page reads as it. */
  lemma {:induction false} SlabsOnMembers(items: seq<Json>, s: SlabItem)
    ensures s in SlabsOn(items) <==> exists k :: 0 <= k < |items| && SlabOf(items[k]) == Success(Some(s))
  {
    if items != [] {
      SlabsOnMembers(items[1..], s);
      if exists k :: 0 <= k < |items| && SlabOf(items[k]) == Success(Some(s)) {
        var k :| 0 <= k < |items| && SlabOf(items[k]) == Success(Some(s));
        if k > 0 {
          assert items[1..][k - 1] == items[k];
        }
      }
      if exists k :: 0 <= k < |items[1..]| && SlabOf(items[1..][k]) == Success(Some(s)) {
        var k :| 0 <= k < |items[1..]| && SlabOf(items[1..][k]) == Success(Some(s));
        assert items[k + 1] == items[1..][k];
      }
    }
  }

  /** A page is read without error exactly when every item on it reads without
      error, and then its slabs are appended, in order, to those found before;
      otherwise the page raises `AttributeError`. */
  lemma {:induction false} ItemsFromSlabsOn(items: seq<Json>, j: nat, acc: seq<SlabItem>)
    requires j <= |items|
    ensures ItemsFrom(items, j, acc) ==
            if forall k :: j <= k < |items| ==> SlabOf(items[k]).Success? then Success(acc + SlabsOn(items[j..]))
            else Failure(AttributeError)
    decreases |items| - j
  {
    if j == |items| {
      assert acc + SlabsOn(items[j..]) == acc;
    } else {
      var here := SlabsOf(items[j]);
      assert SlabsOn(items[j..]) == here + SlabsOn(items[j + 1..]) by {
        assert items[j..][1..] == items[j + 1..];
      }
      ItemsFromSlabsOn(items, j + 1, acc + here);
      assert (acc + here) + SlabsOn(items[j + 1..]) == acc + (here + SlabsOn(items[j + 1..]));
      if SlabOf(items[j]) == Success(None) {
        assert acc + here == acc;
      }
    }
  }

  /** What `fetch_all_slabs` came to, and how many GETs the client made in all. */
  datatype Scrape = Scrape(slabs: Result<seq<SlabItem>, PyException>, made: nat)

  /** What one page answer leads to: the end of the search with its outcome,
      or the next page with the new `total_count` and the slabs found so far. */
  datatype PageOutcome = Done(slabs: Result<seq<SlabItem>, PyException>) | NextPage(total: Json, found: seq<SlabItem>)

  /** The body of the search loop after the request: `data` is what
      `request_json` returned and `acc` the slabs found before. No answer (or
      an empty one) ends the search; an answer that is not an object, results
      that cannot be iterated, or an item that raises ends it with the error;
      an empty `results` ends it after the page. */
  function ReadPage(data: Option<Json>, acc: seq<SlabItem>): PageOutcome {
    if data.None? || !Truthy(data.value) then Done(Success(acc))
    else if !data.value.JObj? then Done(Failure(AttributeError))
    else
      var fields := data.value.fields;
      var results := GetOr(fields, "results", JArr([]));
      match Iterated(results)
      case Failure(e) => Done(Failure(e))
      case Success(items) =>
        match ItemsFrom(items, 0, acc)
        case Failure(e) => Done(Failure(e))
        case Success(found) =>
          if !Truthy(results) then Done(Success(found))
          else NextPage(GetOr(fields, "total_count", JInt(0)), found)
  }

  /** The search loop from a test of the loop condition on: `made` GETs were
      made, the next page starts at `start`, `total` is the last `total_count`
      seen (`JNull` before the first page), and `acc` holds the slabs found. */
  function FetchFrom(answers: seq<Attempt>, made: nat, start: int, total: Json, acc: seq<SlabItem>): Scrape
    decreases |answers| - made
  {
    match Continues(start, total)
    case Failure(e) => Scrape(Failure(e), made)
    case Success(go) =>
      if !go then Scrape(Success(acc), made)
      else
        var r := Retry(Feed(answers), made, Retries);
        FeedProgress(answers, made);
        match ReadPage(r.0, acc)
        case Done(outcome) => Scrape(outcome, made + r.1)
        case NextPage(total', found) => FetchFrom(answers, made + r.1, start + PageSize, total', found)
  }

  /** One turn of the search loop once the loop condition holds. */
  lemma FetchStep(answers: seq<Attempt>, made: nat, start: int, total: Json, acc: seq<SlabItem>)
    requires Continues(start, total) == Success(true)
    ensures var r := Retry(Feed(answers), made, Retries);
      FetchFrom(answers, made, start, total, acc) ==
        match ReadPage(r.0, acc)
        case Done(outcome) => Scrape(outcome, made + r.1)
        case NextPage(total', found) => FetchFrom(answers, made + r.1, start + PageSize, total', found)
  {
  }

  /** The whole search: from offset 0 with no total known. */
  function FetchAll(answers: seq<Attempt>, made: nat): Scrape {
    FetchFrom(answers, made, 0, JNull, [])
  }

  /** Every item is named as a slab. */
  predicate AllSlabNames(slabs: seq<SlabItem>) {
    forall s :: s in slabs ==> StartsWith(s.name, SlabPrefix)
  }

  lemma AllSlabNamesAppend(a: seq<SlabItem>, b: seq<SlabItem>)
    requires AllSlabNames(a) && AllSlabNames(b)
    ensures AllSlabNames(a + b)
  {
  }

  /** A page adds only slabs to those found before. */
  lemma ReadPageSlabs(data: Option<Json>, acc: seq<SlabItem>)
    requires AllSlabNames(acc)
    ensures match ReadPage(data, acc)
      case Done(outcome) => outcome.Success? ==> AllSlabNames(outcome.value)
      case NextPage(_, found) => AllSlabNames(found)
  {
    if data.Some? && Truthy(data.value) && data.value.JObj? {
      var results := GetOr(data.value.fields, "results", JArr([]));
      if Iterated(results).Success? {
        var items := Iterated(results).value;
        ItemsFromSlabsOn(items, 0, acc);
        assert items[0..] == items;
        AllSlabNamesAppend(acc, SlabsOn(items));
      }
    }
  }

  /** Every slab the search returns has a slab's name. */
  lemma {:induction false} FetchedAreSlabs(answers: seq<Attempt>, made: nat, start: int, total: Json, acc: seq<SlabItem>)
    requires AllSlabNames(acc)
    ensures var r := FetchFrom(answers, made, start, total, acc).slabs;
      r.Success? ==> AllSlabNames(r.value)
    decreases |answers| - made
  {
    if Continues(start, total) == Success(true) {
      var r := Retry(Feed(answers), made, Retries);
      FeedProgress(answers, made);
      ReadPageSlabs(r.0, acc);
      var page := ReadPage(r.0, acc);
      if page.NextPage? {
        FetchedAreSlabs(answers, made + r.1, start + PageSize, page.total, page.found);
      }
    }
  }

  /** A page request that gets no answer ends the search after its three
      attempts, keeping the slabs found so far. */
  lemma UnansweredPageEndsSearch(answers: seq<Attempt>, made: nat, start: int, total: Json, acc: seq<SlabItem>)
    requires Continues(start, total) == Success(true)
    requires Retry(Feed(answers), made, Retries).0.None?
    ensures FetchFrom(answers, made, start, total, acc) == Scrape(Success(acc), made + Retries)
  {
    RetryOutcome(Feed(answers), made, Retries);
  }

  /** Once the feed is used up the search ends at the next page. */
  lemma SearchEndsWithFeed(answers: seq<Attempt>, made: nat, start: int, total: Json, acc: seq<SlabItem>)
    requires |answers| <= made && Continues(start, total) == Success(true)
    ensures FetchFrom(answers, made, start, total, acc) == Scrape(Success(acc), made + Retries)
  {
    FeedExhausted(answers, made);
    UnansweredPageEndsSearch(answers, made, start, total, acc);
  }

  /** The three ways the search loop stops, on any page: the offset has
      reached a known integer `total_count`; the request gave no answer or a
      falsy one; or the page's `results` are empty. Each keeps the slabs found
      so far, with no GET for the first and the page's GETs for the others. */
  lemma SearchStops(answers: seq<Attempt>, made: nat, start: int, total: Json, acc: seq<SlabItem>)
    ensures total.JInt? && start >= total.i ==> FetchFrom(answers, made, start, total, acc) == Scrape(Success(acc), made)
    ensures var r := Retry(Feed(answers), made, Retries);
      Continues(start, total) == Success(true) && (r.0.None? || !Truthy(r.0.value)) ==>
        FetchFrom(answers, made, start, total, acc) == Scrape(Success(acc), made + r.1)
    ensures var r := Retry(Feed(answers), made, Retries);
      Continues(start, total) == Success(true) && r.0.Some? && r.0.value.JObj? &&
      GetOr(r.0.value.fields, "results", JArr([])) == JArr([]) ==>
        FetchFrom(answers, made, start, total, acc) == Scrape(Success(acc), made + r.1)
  {
    if Continues(start, total) == Success(true) {
      FetchStep(answers, made, start, total, acc);
    }
  }

  /** A first page with no results ends the search with no slabs, having made
      only the GETs of that page. */
  lemma EmptyFirstPage(answers: seq<Attempt>, total: Json)
    requires |answers| > 0 && answers[0] == Answered(200, Some(JObj(map["total_count" := total, "results" := JArr([])])))
    ensures FetchAll(answers, 0) == Scrape(Success([]), 1)
  {
    RetryStep(Feed(answers), 0, Retries);
    var fields := map["total_count" := total, "results" := JArr([])];
    assert "results" in fields;
    assert Truthy(JObj(fields));
    assert GetOr(fields, "results", JArr([])) == JArr([]);
  }

  /** `slab_to_sticker_name`: the first `Sticker Slab |` becomes `Sticker |`. */
  function SlabToStickerName(slabName: string): string {
    ReplaceFirst(slabName, SlabPrefix, StickerPrefix)
  }

  /** A slab's name gives its sticker's: the prefix is swapped and the rest of
      the name kept. */
  lemma StickerNameOfSlab(rest: string)
    ensures SlabToStickerName(SlabPrefix + rest) == StickerPrefix + rest
  {
    var name := SlabPrefix + rest;
    assert name[0..] == name;
    assert name[..|SlabPrefix|] == SlabPrefix;
    assert Find(name, SlabPrefix) == Some(0);
    assert name[|SlabPrefix|..] == rest;
  }

  /** A name in which the prefix occurs nowhere is kept as it is. */
  lemma StickerNameOfOther(name: string)
    requires forall j :: 0 <= j <= |name| ==> !OccursAt(name, SlabPrefix, j)
    ensures SlabToStickerName(name) == name
  {
  }

  /** The condition a price difference meets: the slab dearer by at least
      `more`, else cheaper by at least `cheaper`, else none. */
  function Classify(diff: real, more: real, cheaper: real): (c: Option<Condition>)
    ensures c == Some(SlabMoreExpensive) <==> diff >= more
    ensures c == Some(SlabCheaper) <==> diff < more && diff <= -cheaper
  {
    if diff >= more then Some(SlabMoreExpensive)
    else if diff <= -cheaper then Some(SlabCheaper)
    else None
  }

  /** What every `PairResult` of `analyze_pairs` satisfies: a difference
      exactly when both prices are known, equal to slab minus sticker; a
      condition flag exactly when a condition type is set; and the type is the
      one the thresholds select. */
  ghost predicate WellFormed(r: PairResult, more: real, cheaper: real) {
    && (r.diff.Some? <==> r.slabBuy.Some? && r.stickerBuy.Some?)
    && (r.diff.Some? ==> r.stickerBuy.value + r.diff.value == r.slabBuy.value)
    && (r.conditionMatched <==> r.conditionType.Some?)
    && (r.conditionType == Some(SlabMoreExpensive) <==> r.diff.Some? && r.diff.value >= more)
    && (r.conditionType == Some(SlabCheaper) <==> r.diff.Some? && r.diff.value < more && r.diff.value <= -cheaper)
  }

  /** The result of a pair whose prices could not be fetched. */
  function FailedResult(slabName: string, stickerName: string): (r: PairResult)
    ensures forall more, cheaper :: WellFormed(r, more, cheaper)
    ensures r.slabBuy.None? && r.stickerBuy.None? && !r.conditionMatched
  {
    PairResult(slabName, stickerName, None, None, None, false, None)
  }

  /** The result of a pair whose two lookups returned. */
  function ResultFor(slabName: string, stickerName: string, slabBuy: Option<real>, stickerBuy: Option<real>,
                     more: real, cheaper: real): (r: PairResult)
    ensures WellFormed(r, more, cheaper)
    ensures r.slabName == slabName && r.stickerName == stickerName
    ensures r.slabBuy == slabBuy && r.stickerBuy == stickerBuy
  {
    var diff := PriceDiff(slabBuy, stickerBuy);
    var condition := if diff.Some? then Classify(diff.value, more, cheaper) else None;
    PairResult(slabName, stickerName, slabBuy, stickerBuy, diff, condition.Some?, condition)
  }

  /** One `fetch_item_buy_order_price` from the `made`-th GET on: the price or
      the exception, and the GETs made after it. */
  function Lookup(answer: nat -> Attempt, made: nat): (Result<Option<real>, PyException>, nat) {
    var r := Retry(answer, made, Retries);
    (BuyOrderPrice(r.0), made + r.1)
  }

  /** One pass of the loop of `analyze_pairs`: the result, whether the progress
      callback is called, and the GETs made after it. */
  datatype Priced = Priced(result: PairResult, reported: bool, made: nat)

  /** The `try` block for one slab: the slab is looked up before its sticker;
      an exception from either lookup gives the failed result (a failed slab
      lookup skips the sticker's) and no progress call. */
  function PricePair(slab: SlabItem, answer: nat -> Attempt, made: nat, more: real, cheaper: real): (p: Priced)
    ensures WellFormed(p.result, more, cheaper)
    ensures p.result.slabName == slab.name && p.result.stickerName == SlabToStickerName(slab.name)
  {
    var stickerName := SlabToStickerName(slab.name);
    var slabBuy := Lookup(answer, made);
    if slabBuy.0.Failure? then Priced(FailedResult(slab.name, stickerName), false, slabBuy.1)
    else
      var stickerBuy := Lookup(answer, slabBuy.1);
      if stickerBuy.0.Failure? then Priced(FailedResult(slab.name, stickerName), false, stickerBuy.1)
      else Priced(ResultFor(slab.name, stickerName, slabBuy.0.value, stickerBuy.0.value, more, cheaper), true, stickerBuy.1)
  }

  /** A pair costs at least one GET and at most two lookups of three attempts. */
  lemma PricePairRequests(slab: SlabItem, answer: nat -> Attempt, made: nat, more: real, cheaper: real)
    ensures made + 1 <= PricePair(slab, answer, made, more, cheaper).made <= made + 2 * Retries
  {
    RetryOutcome(answer, made, Retries);
    RetryOutcome(answer, Lookup(answer, made).1, Retries);
  }

  /** A pair is reported, with both lookups' prices, exactly when neither
      lookup raised. */
  lemma PricePairReported(slab: SlabItem, answer: nat -> Attempt, made: nat, more: real, cheaper: real)
    ensures var p := PricePair(slab, answer, made, more, cheaper);
      var slabBuy := Lookup(answer, made);
      var stickerBuy := Lookup(answer, slabBuy.1);
      p.reported <==> slabBuy.0.Success? && stickerBuy.0.Success?
    ensures var p := PricePair(slab, answer, made, more, cheaper);
      var slabBuy := Lookup(answer, made);
      var stickerBuy := Lookup(answer, slabBuy.1);
      p.reported ==> p.result.slabBuy == slabBuy.0.value && p.result.stickerBuy == stickerBuy.0.value
  {
  }

  /** What `analyze_pairs` produced: the results, the `(idx, total)` progress
      calls, and the GETs made in all. */
  datatype Analysis = Analysis(results: seq<PairResult>, progress: seq<(int, int)>, made: nat)

  /** The loop of `analyze_pairs` from the `i`-th slab on, with the results and
      progress calls so far. */
  function AnalyzeFrom(slabs: seq<SlabItem>, i: nat, answer: nat -> Attempt, made: nat, more: real, cheaper: real,
                       acc: seq<PairResult>, progress: seq<(int, int)>): Analysis
    requires i <= |slabs|
    decreases |slabs| - i
  {
    if i == |slabs| then Analysis(acc, progress, made)
    else
      var p := PricePair(slabs[i], answer, made, more, cheaper);
      AnalyzeFrom(slabs, i + 1, answer, p.made, more, cheaper, acc + [p.result],
                  if p.reported then progress + [(i + 1, |slabs|)] else progress)
  }

  /** `results` has one entry per slab of `slabs`, in order, each naming its
      slab and the sticker derived from that slab's name. */
  ghost predicate NamesMatch(results: seq<PairResult>, slabs: seq<SlabItem>) {
    |results| == |slabs| &&
    forall k :: 0 <= k < |slabs| ==>
      results[k].slabName == slabs[k].name && results[k].stickerName == SlabToStickerName(slabs[k].name)
  }

  /** One result per slab, in the slabs' order, each naming its slab and the
      sticker derived from it. */
  lemma {:induction false} AnalyzeNames(slabs: seq<SlabItem>, i: nat, answer: nat -> Attempt, made: nat, more: real, cheaper: real,
                                        acc: seq<PairResult>, progress: seq<(int, int)>)
    requires i <= |slabs| && NamesMatch(acc, slabs[..i])
    ensures NamesMatch(AnalyzeFrom(slabs, i, answer, made, more, cheaper, acc, progress).results, slabs)
    decreases |slabs| - i
  {
    if i == |slabs| {
      assert slabs[..i] == slabs;
    } else {
      var p := PricePair(slabs[i], answer, made, more, cheaper);
      var progress' := if p.reported then progress + [(i + 1, |slabs|)] else progress;
      var acc' := acc + [p.result];
      forall k | 0 <= k < i + 1
        ensures acc'[k].slabName == slabs[..i + 1][k].name
        ensures acc'[k].stickerName == SlabToStickerName(slabs[..i + 1][k].name)
      {
        if k < i {
          assert acc'[k] == acc[k] && slabs[..i + 1][k] == slabs[..i][k];
        }
      }
      AnalyzeNames(slabs, i + 1, answer, p.made, more, cheaper, acc', progress');
    }
  }

  /** Every result is well formed: difference, flag and condition type agree
      with the prices and the thresholds. */
  lemma {:induction false} AnalyzeWellFormed(slabs: seq<SlabItem>, i: nat, answer: nat -> Attempt, made: nat, more: real, cheaper: real,
                                             acc: seq<PairResult>, progress: seq<(int, int)>)
    requires i <= |slabs|
    requires forall r :: r in acc ==> WellFormed(r, more, cheaper)
    ensures var a := AnalyzeFrom(slabs, i, answer, made, more, cheaper, acc, progress);
      forall r :: r in a.results ==> WellFormed(r, more, cheaper)
    decreases |slabs| - i
  {
    if i < |slabs| {
      var p := PricePair(slabs[i], answer, made, more, cheaper);
      var progress' := if p.reported then progress + [(i + 1, |slabs|)] else progress;
      AnalyzeWellFormed(slabs, i + 1, answer, p.made, more, cheaper, acc + [p.result], progress');
    }
  }

  /** The progress calls so far report positions `1..bound` out of `total`,
      strictly increasing. */
  ghost predicate ProgressBelow(progress: seq<(int, int)>, total: int, bound: int) {
    && (forall p :: p in progress ==> p.1 == total && 1 <= p.0 <= bound)
    && (forall a, b :: 0 <= a < b < |progress| ==> progress[a].0 < progress[b].0)
  }

  /** The progress callback is called at most once per slab, with `(idx, total)`
      for increasing 1-based positions and the number of slabs as total. */
  lemma {:induction false} AnalyzeProgress(slabs: seq<SlabItem>, i: nat, answer: nat -> Attempt, made: nat, more: real, cheaper: real,
                                           acc: seq<PairResult>, progress: seq<(int, int)>)
    requires i <= |slabs| && ProgressBelow(progress, |slabs|, i)
    ensures var a := AnalyzeFrom(slabs, i, answer, made, more, cheaper, acc, progress);
      ProgressBelow(a.progress, |slabs|, |slabs|) && |a.progress| <= |progress| + |slabs| - i
    decreases |slabs| - i
  {
    if i < |slabs| {
      var p := PricePair(slabs[i], answer, made, more, cheaper);
      var progress' := if p.reported then progress + [(i + 1, |slabs|)] else progress;
      assert ProgressBelow(progress', |slabs|, i + 1) by {
        if p.reported {
          forall a, b | 0 <= a < b < |progress'| ensures progress'[a].0 < progress'[b].0 {
            if b == |progress| {
              assert progress[a] in progress;
            }
          }
        }
      }
      AnalyzeProgress(slabs, i + 1, answer, p.made, more, cheaper, acc + [p.result], progress');
    }
  }

  /** Every pair costs at least one GET and at most two lookups of three
      attempts each. */
  lemma {:induction false} AnalyzeRequests(slabs: seq<SlabItem>, i: nat, answer: nat -> Attempt, made: nat, more: real, cheaper: real,
                                           acc: seq<PairResult>, progress: seq<(int, int)>)
    requires i <= |slabs|
    ensures var a := AnalyzeFrom(slabs, i, answer, made, more, cheaper, acc, progress);
      made + (|slabs| - i) <= a.made <= made + 2 * Retries * (|slabs| - i)
    decreases |slabs| - i
  {
    if i < |slabs| {
      var p := PricePair(slabs[i], answer, made, more, cheaper);
      PricePairRequests(slabs[i], answer, made, more, cheaper);
      var progress' := if p.reported then progress + [(i + 1, |slabs|)] else progress;
      AnalyzeRequests(slabs, i + 1, answer, p.made, more, cheaper, acc + [p.result], progress');
    }
  }

  /** One page of `fetch_all_slabs` after the request: the checks on the answer
      and the loop over its results. */
  method ReadPageOf(data: Option<Json>, acc: seq<SlabItem>) returns (page: PageOutcome)
    ensures page == ReadPage(data, acc)
  {
    if data.None? || !Truthy(data.value) {
      return Done(Success(acc));
    }
    if !data.value.JObj? {
      return Done(Failure(AttributeError));
    }
    var fields := data.value.fields;
    var total := GetOr(fields, "total_count", JInt(0));
    var results := GetOr(fields, "results", JArr([]));
    var iterated := Iterated(results);
    if iterated.Failure? {
      return Done(Failure(iterated.error));
    }
    var items := iterated.value;
    var found := acc;
    var j := 0;
    while j < |items|
      invariant j <= |items|
      invariant ItemsFrom(items, j, found) == ItemsFrom(items, 0, acc)
    {
      var item := SlabOf(items[j]);
      if item.Failure? {
        return Done(Failure(item.error));
      }
      if item.value.Some? {
        found := found + [item.value.value];
      }
      j := j + 1;
    }
    if !Truthy(results) {
      return Done(Success(found));
    }
    return NextPage(total, found);
  }

  /** One page of the search: the request, then reading its answer. */
  method FetchPage(client: SteamClient, answers: seq<Attempt>, acc: seq<SlabItem>) returns (page: PageOutcome)
    requires client.Valid()
    modifies client`cursor, client`proxiesUsed
    ensures client.Valid()
    ensures var r := Retry(Feed(answers), old(client.Made()), Retries);
      page == ReadPage(r.0, acc) && client.Made() == old(client.Made()) + r.1
  {
    var data := client.RequestJson(Feed(answers));
    page := ReadPageOf(data, acc);
  }

  /** One round of the loop of `fetch_all_slabs`: the `start < total_count`
      test, then one page. `NextPage` means the loop goes on at the next offset,
      and the rest of the search from there is the rest of it from here. */
  method FetchRound(client: SteamClient, answers: seq<Attempt>, start: int, total: Json, acc: seq<SlabItem>)
    returns (page: PageOutcome)
    requires client.Valid()
    modifies client`cursor, client`proxiesUsed
    ensures client.Valid()
    ensures page.Done? ==> Scrape(page.slabs, client.Made()) == FetchFrom(answers, old(client.Made()), start, total, acc)
    ensures page.NextPage? ==>
      && old(client.Made()) < client.Made() <= |answers|
      && FetchFrom(answers, client.Made(), start + PageSize, page.total, page.found) ==
         FetchFrom(answers, old(client.Made()), start, total, acc)
  {
    var go := Continues(start, total);
    if go.Failure? {
      return Done(Failure(go.error));
    }
    if !go.value {
      return Done(Success(acc));
    }
    FetchStep(answers, client.Made(), start, total, acc);
    FeedProgress(answers, client.Made());
    page := FetchPage(client, answers, acc);
  }

  /** `fetch_all_slabs`, on a client whose GETs are answered by the feed. */
  method FetchAllSlabs(client: SteamClient, answers: seq<Attempt>) returns (slabs: Result<seq<SlabItem>, PyException>)
    requires client.Valid()
    modifies client`cursor, client`proxiesUsed
    ensures client.Valid()
    ensures Scrape(slabs, client.Made()) == FetchAll(answers, old(client.Made()))
  {
    var found: seq<SlabItem> := [];
    var start := 0;
    var total := JNull;
    ghost var whole := FetchAll(answers, client.Made());
    while true
      invariant client.Valid()
      invariant FetchFrom(answers, client.Made(), start, total, found) == whole
      decreases |answers| - client.Made()
    {
      var page := FetchRound(client, answers, start, total, found);
      match page
      case Done(outcome) =>
        return outcome;
      case NextPage(total', found') =>
        total := total';
        found := found';
        start := start + PageSize;
    }
  }

  /** The body of the loop of `analyze_pairs` for one slab: both lookups, and
      the result they give. */
  method PriceOne(client: SteamClient, slab: SlabItem, more: real, cheaper: real, answer: nat -> Attempt)
    returns (result: PairResult, reported: bool)
    requires client.Valid()
    modifies client`cursor, client`proxiesUsed
    ensures client.Valid()
    ensures Priced(result, reported, client.Made()) == PricePair(slab, answer, old(client.Made()), more, cheaper)
  {
    var stickerName := SlabToStickerName(slab.name);
    ghost var made := client.Made();
    var slabBuy := client.FetchItemBuyOrderPrice(answer);
    assert (slabBuy, client.Made()) == Lookup(answer, made);
    if slabBuy.Failure? {
      return FailedResult(slab.name, stickerName), false;
    }
    made := client.Made();
    var stickerBuy := client.FetchItemBuyOrderPrice(answer);
    assert (stickerBuy, client.Made()) == Lookup(answer, made);
    if stickerBuy.Failure? {
      return FailedResult(slab.name, stickerName), false;
    }
    return ResultFor(slab.name, stickerName, slabBuy.value, stickerBuy.value, more, cheaper), true;
  }

  /** `analyze_pairs`, with the thresholds of `config` and a progress callback
      whose calls are returned in order. */
  method AnalyzePairs(client: SteamClient, slabs: seq<SlabItem>, config: AppConfig, answer: nat -> Attempt)
    returns (results: seq<PairResult>, progress: seq<(int, int)>)
    requires client.Valid()
    modifies client`cursor, client`proxiesUsed
    ensures client.Valid()
    ensures Analysis(results, progress, client.Made()) ==
            AnalyzeFrom(slabs, 0, answer, old(client.Made()), config.diffWhenSlabMoreExpensive, config.diffWhenSlabCheaper, [], [])
  {
    var more, cheaper := config.diffWhenSlabMoreExpensive, config.diffWhenSlabCheaper;
    results, progress := [], [];
    ghost var whole := AnalyzeFrom(slabs, 0, answer, client.Made(), more, cheaper, [], []);
    var i := 0;
    while i < |slabs|
      invariant i <= |slabs| && client.Valid()
      invariant AnalyzeFrom(slabs, i, answer, client.Made(), more, cheaper, results, progress) == whole
    {
      var result, reported := PriceOne(client, slabs[i], more, cheaper, answer);
      results := results + [result];
      i := i + 1;
      if reported {
        progress := progress + [(i, |slabs|)];
      }
    }
  }
}
