/** `MarketClient` of market_scan_app.py: the request loop with proxy rotation
    on `429 Too Many Requests`, the two-stage lookup of a market item's
    `item_nameid` (render JSON, then the listing page), and the price read from
    the order histogram, written through to the `MarketCache`.

    The network is a feed of responses handed to the client in advance; each
    `session.get` takes the next one and is recorded, with the proxy it went
    through, in `sent`. A feed that runs out is the failure `NoAnswer`. URLs are
    identified by their kind and the name or id they carry. */
module Client {
  import opened Wrappers
  import opened Text
  import opened PyJson
  import opened CacheStore
  import opened OrderSpread
  import opened Proxy

  /** The three Steam Community pages the client reads. */
  datatype Url = RenderUrl(name: string) | ListingUrl(name: string) | HistogramUrl(itemNameId: string)

  /** A response body: its text and, when the text is valid JSON, the decoded
      value (`response.json()` raises otherwise). */
  datatype Body = Body(text: string, json: Option<Json>)

  /** What one `session.get` gave: a status and a body, or a raised
      `requests` exception. */
  datatype Response = Reply(status: int, body: Body) | ConnectionFailed

  datatype Sent = Sent(url: Url, proxy: Option<string>)

  /** Why an operation of the client raised. */
  datatype ClientError =
    | HttpError(status: int)
    | ConnectionError
    | NoAnswer
    | BadRenderJson
    | MissingRenderId
    | NameIdNotFound(name: string)
    | BadHistogramJson(name: string)
    | BadHighestBuyOrder(name: string)
    | Raised(exception: PyException)
    | UnrenderableId

  /** The errors the client raises as `RuntimeError`. */
  predicate IsRuntimeError(e: ClientError) {
    e.BadRenderJson? || e.MissingRenderId? || e.NameIdNotFound? || e.BadHistogramJson? || e.BadHighestBuyOrder?
  }

  /** `raise_for_status`: client and server error statuses raise. */
  predicate IsErrorStatus(status: int) {
    400 <= status < 600
  }

  /** The network side of the client: rotation state, the answers still to
      come and the requests made so far. */
  datatype Net = Net(rotation: Rotation, feed: seq<Response>, sent: seq<Sent>)

  /** `_current_proxy`: the proxy at the cursor, or none without a pool. */
  function ProxyAt(pool: seq<string>, index: nat): (p: Option<string>)
    ensures pool == [] ==> p == None
    ensures index < |pool| ==> p == Some(pool[index])
  {
    if index < |pool| then Some(pool[index]) else None
  }

  /** `b` is `a` with possibly more entries after it. */
  predicate Extends<T(==)>(a: seq<T>, b: seq<T>) {
    |a| <= |b| && b[..|a|] == a
  }

  /** `_request`: repeat while the answer is 429, handling the rate limit each
      time; the first other answer resets the rotation counter and is returned,
      or raised when its status is an error status. */
  function RequestSpec(pool: seq<string>, n: Net, url: Url): (r: (Result<Body, ClientError>, Net))
    ensures Consistent(n.rotation, |pool|) ==> Consistent(r.1.rotation, |pool|)
    ensures Extends(n.sent, r.1.sent)
    ensures n.feed != [] ==> |r.1.sent| > |n.sent| && r.1.sent[|n.sent|].url == url
    decreases |n.feed|
  {
    if n.feed == [] then (Failure(NoAnswer), n)
    else
      var sent := n.sent + [Sent(url, ProxyAt(pool, n.rotation.index))];
      var rest := n.feed[1..];
      match n.feed[0]
      case ConnectionFailed => (Failure(ConnectionError), Net(n.rotation, rest, sent))
      case Reply(status, body) =>
        if status == 429 then
          var r := RequestSpec(pool, Net(OnRateLimit(n.rotation, |pool|), rest, sent), url);
          assert r.1.sent[..|n.sent|] == r.1.sent[..|sent|][..|n.sent|];
          r
        else
          var rotation := n.rotation.(hits := 0);
          (if IsErrorStatus(status) then Failure(HttpError(status)) else Success(body), Net(rotation, rest, sent))
  }

  /** What one call of `_request` does in every case: each answer it takes is
      logged as a request to `url`; it gives up (`NoAnswer`) exactly when every
      answer was a 429 and none is left; a returned body or an HTTP error means
      the counter was reset; an HTTP error carries an error status. */
  lemma {:induction false} RequestOutcome(pool: seq<string>, n: Net, url: Url)
    ensures var (r, after) := RequestSpec(pool, n, url);
      && |after.feed| <= |n.feed| && after.feed == n.feed[|n.feed| - |after.feed|..]
      && |after.sent| == |n.sent| + (|n.feed| - |after.feed|)
      && (forall k :: |n.sent| <= k < |after.sent| ==> after.sent[k].url == url)
      && (r == Failure(NoAnswer) <==>
            after.feed == [] && forall k :: 0 <= k < |n.feed| ==> n.feed[k].Reply? && n.feed[k].status == 429)
      && (r.Success? || (r.Failure? && r.error.HttpError?) ==> after.rotation.hits == 0)
      && (r.Failure? && r.error.HttpError? ==> IsErrorStatus(r.error.status))
    decreases |n.feed|
  {
    if n.feed != [] {
      var sent := n.sent + [Sent(url, ProxyAt(pool, n.rotation.index))];
      var rest := n.feed[1..];
      if n.feed[0].Reply? && n.feed[0].status == 429 {
        var n' := Net(OnRateLimit(n.rotation, |pool|), rest, sent);
        RequestOutcome(pool, n', url);
        var after := RequestSpec(pool, n', url).1;
        assert n.feed[|n.feed| - |after.feed|..] == rest[|rest| - |after.feed|..];
        if forall k :: 0 <= k < |rest| ==> rest[k].Reply? && rest[k].status == 429 {
          forall k | 0 <= k < |n.feed| ensures n.feed[k].Reply? && n.feed[k].status == 429 {
            if k > 0 {
              assert n.feed[k] == rest[k - 1];
            }
          }
        }
        if forall k :: 0 <= k < |n.feed| ==> n.feed[k].Reply? && n.feed[k].status == 429 {
          forall k | 0 <= k < |rest| ensures rest[k].Reply? && rest[k].status == 429 {
            assert rest[k] == n.feed[k + 1];
          }
        }
      }
    }
  }

  /** `k` answers of 429 followed by another answer: that answer decides the
      result, the rotation state is the one `k` rate limits lead to with the
      counter reset, and the `j`-th of the `k + 1` requests went through the
      proxy the cursor pointed at after `j` rate limits. */
  lemma {:induction false} RequestAfterRateLimits(pool: seq<string>, n: Net, url: Url, k: nat)
    requires k < |n.feed| && n.feed[k].Reply? && n.feed[k].status != 429
    requires forall j :: 0 <= j < k ==> n.feed[j].Reply? && n.feed[j].status == 429
    ensures var r := RequestSpec(pool, n, url);
      var status := n.feed[k].status;
      && r.0 == (if IsErrorStatus(status) then Failure(HttpError(status)) else Success(n.feed[k].body))
      && r.1.rotation == OnRateLimits(n.rotation, |pool|, k).(hits := 0)
      && r.1.feed == n.feed[k + 1..]
      && |r.1.sent| == |n.sent| + k + 1
      && forall j :: 0 <= j <= k ==>
           r.1.sent[|n.sent| + j] == Sent(url, ProxyAt(pool, OnRateLimits(n.rotation, |pool|, j).index))
    decreases k
  {
    var sent := n.sent + [Sent(url, ProxyAt(pool, n.rotation.index))];
    if k > 0 {
      var n' := Net(OnRateLimit(n.rotation, |pool|), n.feed[1..], sent);
      forall j | 0 <= j < k - 1
        ensures n'.feed[j].Reply? && n'.feed[j].status == 429
      {
        assert n'.feed[j] == n.feed[j + 1];
      }
      RequestAfterRateLimits(pool, n', url, k - 1);
      assert n'.feed[k - 1] == n.feed[k];
      OnRateLimitsShift(n.rotation, |pool|, k);
      forall j | 1 <= j <= k
        ensures OnRateLimits(n'.rotation, |pool|, j - 1) == OnRateLimits(n.rotation, |pool|, j)
      {
        OnRateLimitsShift(n.rotation, |pool|, j);
      }
      assert n.feed[k + 1..] == n'.feed[k..];
    }
  }

  /** Taking the first rate limit out of `j`. */
  lemma {:induction false} OnRateLimitsShift(r: Rotation, size: nat, j: nat)
    requires j >= 1
    ensures OnRateLimits(OnRateLimit(r, size), size, j - 1) == OnRateLimits(r, size, j)
    decreases j
  {
    if j > 1 {
      OnRateLimitsShift(r, size, j - 1);
    }
  }

  /** `_fetch_item_nameid_from_render` on the body received: a body that is not
      JSON and a missing or falsy `item_nameid` are `RuntimeError`s; `data.get`
      on a JSON value that is not an object raises `AttributeError`. */
  function RenderNameId(body: Body): (r: Result<string, ClientError>)
    ensures body.json.None? ==> r == Failure(BadRenderJson)
    ensures body.json.Some? && !body.json.value.JObj? ==> r == Failure(Raised(AttributeError))
    ensures body.json.Some? && body.json.value.JObj? && !Truthy(Get(body.json.value.fields, "item_nameid")) ==>
            r == Failure(MissingRenderId)
    ensures body.json.Some? && body.json.value.JObj? ==>
            var id := Get(body.json.value.fields, "item_nameid");
            Truthy(id) && PyStr(id).Some? ==> r == Success(PyStr(id).value)
    ensures r.Success? ==>
            body.json.Some? && body.json.value.JObj? && PyStr(Get(body.json.value.fields, "item_nameid")) == Some(r.value)
    ensures r.Success? ==> r.value != []
    ensures r.Failure? && IsRuntimeError(r.error) ==> r.error.BadRenderJson? || r.error.MissingRenderId?
  {
    match body.json
    case None => Failure(BadRenderJson)
    case Some(data) =>
      if !data.JObj? then Failure(Raised(AttributeError))
      else
        var id := Get(data.fields, "item_nameid");
        if !Truthy(id) then Failure(MissingRenderId)
        else
          match PyStr(id)
          case None => Failure(UnrenderableId)
          case Some(s) =>
            assert id.JInt? ==> s == IntToString(id.i) && s != [] by {
              if id.JInt? && id.i < 0 {
                assert s == ['-'] + NatToString(-id.i);
              }
            }
            Success(s)
  }

  /** The render stage: one request, then `RenderNameId`. */
  function RenderSpec(pool: seq<string>, n: Net, name: string): (Result<string, ClientError>, Net) {
    var (response, n1) := RequestSpec(pool, n, RenderUrl(name));
    match response
    case Failure(e) => (Failure(e), n1)
    case Success(body) => (RenderNameId(body), n1)
  }

  /** `_fetch_item_nameid_from_html` on the body received. */
  function ListingNameId(body: Body, name: string): (r: Result<string, ClientError>)
    ensures r.Success? ==> r.value != [] && AllDigits(r.value)
    ensures r.Failure? <==> forall q :: 0 <= q <= |body.text| ==> MatchAt(body.text, q).None?
    ensures r.Failure? ==> r.error == NameIdNotFound(name)
  {
    match FindItemNameId(body.text)
    case None => Failure(NameIdNotFound(name))
    case Some(id) =>
      FoundIdIsCall(body.text);
      Success(id)
  }

  /** The listing-page stage: one request, then `ListingNameId`. */
  function HtmlSpec(pool: seq<string>, n: Net, name: string): (Result<string, ClientError>, Net) {
    var (response, n1) := RequestSpec(pool, n, ListingUrl(name));
    match response
    case Failure(e) => (Failure(e), n1)
    case Success(body) => (ListingNameId(body, name), n1)
  }

  /** The two stages of the lookup: the render stage, and the listing-page
      stage when the render stage raised a `RuntimeError`. */
  function ResolveSpec(pool: seq<string>, n: Net, name: string): (Result<string, ClientError>, Net) {
    var (r1, n1) := RenderSpec(pool, n, name);
    if r1.Failure? && IsRuntimeError(r1.error) then HtmlSpec(pool, n1, name) else (r1, n1)
  }

  /** `ensure_item_nameid`: a non-empty cached id is used as is; otherwise the
      id the two stages find is stored in the cache. */
  function EnsureSpec(pool: seq<string>, n: Net, data: map<string, CacheEntry>, name: string)
    : (Result<string, ClientError>, Net, map<string, CacheEntry>)
  {
    var cached := LookupNameId(data, name);
    if cached.Some? && cached.value != [] then (Success(cached.value), n, data)
    else
      var (r, n2) := ResolveSpec(pool, n, name);
      (r, n2, if r.Success? then WithNameId(data, name, r.value) else data)
  }

  /** A non-empty cached id is returned without any request. */
  lemma CachedIdNeedsNoRequest(pool: seq<string>, n: Net, data: map<string, CacheEntry>, name: string, id: string)
    requires LookupNameId(data, name) == Some(id) && id != []
    ensures EnsureSpec(pool, n, data, name) == (Success(id), n, data)
  {
  }

  /** The first request of the lookup goes to the render page. */
  lemma RenderIsTriedFirst(pool: seq<string>, n: Net, name: string)
    requires n.feed != []
    ensures var after := ResolveSpec(pool, n, name).1;
      |after.sent| > |n.sent| && after.sent[|n.sent|].url == RenderUrl(name)
  {
    var (r1, n1) := RenderSpec(pool, n, name);
    if r1.Failure? && IsRuntimeError(r1.error) {
      var n2 := HtmlSpec(pool, n1, name).1;
      assert n2.sent[..|n1.sent|] == n1.sent;
      assert n2.sent[|n.sent|] == n2.sent[..|n1.sent|][|n.sent|];
    }
  }

  /** The requests of a lookup: first the render page, as often as 429s make
      `_request` repeat it, then the listing page, which is asked for exactly
      when the render stage raised a `RuntimeError` and answers remain. Any
      other outcome of the render stage is the outcome of the lookup. */
  lemma ListingRequestedOnlyAfterRuntimeError(pool: seq<string>, n: Net, name: string)
    ensures var (r1, n1) := RenderSpec(pool, n, name);
      var (r, after) := ResolveSpec(pool, n, name);
      && Extends(n1.sent, after.sent)
      && (forall k :: |n.sent| <= k < |n1.sent| ==> after.sent[k].url == RenderUrl(name))
      && (forall k :: |n1.sent| <= k < |after.sent| ==> after.sent[k].url == ListingUrl(name))
      && (|after.sent| > |n1.sent| <==> r1.Failure? && IsRuntimeError(r1.error) && n1.feed != [])
      && (!(r1.Failure? && IsRuntimeError(r1.error)) ==> r == r1 && after == n1)
  {
    var (r1, n1) := RenderSpec(pool, n, name);
    RequestOutcome(pool, n, RenderUrl(name));
    if r1.Failure? && IsRuntimeError(r1.error) {
      RequestOutcome(pool, n1, ListingUrl(name));
      var after := HtmlSpec(pool, n1, name).1;
      forall k | |n.sent| <= k < |n1.sent| ensures after.sent[k].url == RenderUrl(name) {
        assert after.sent[k] == after.sent[..|n1.sent|][k];
      }
    }
  }

  /** A found id is non-empty, and a `RuntimeError` out of the lookup can only
      be the listing page's. */
  lemma ResolvedId(pool: seq<string>, n: Net, name: string)
    ensures var r := ResolveSpec(pool, n, name).0;
      && (r.Success? ==> r.value != [])
      && (r.Failure? && IsRuntimeError(r.error) ==> r.error == NameIdNotFound(name))
  {
    var n1 := RenderSpec(pool, n, name).1;
    RequestRaisesNoRuntimeError(pool, n, RenderUrl(name));
    RequestRaisesNoRuntimeError(pool, n1, ListingUrl(name));
  }

  /** `_request` raises only HTTP and connection errors (or runs out of
      answers), never a `RuntimeError`. */
  lemma {:induction false} RequestRaisesNoRuntimeError(pool: seq<string>, n: Net, url: Url)
    ensures var r := RequestSpec(pool, n, url).0;
      r.Failure? ==> r.error.HttpError? || r.error.ConnectionError? || r.error.NoAnswer?
    decreases |n.feed|
  {
    if n.feed != [] && n.feed[0].Reply? && n.feed[0].status == 429 {
      var sent := n.sent + [Sent(url, ProxyAt(pool, n.rotation.index))];
      RequestRaisesNoRuntimeError(pool, Net(OnRateLimit(n.rotation, |pool|), n.feed[1..], sent), url);
    }
  }

  /** A successful lookup leaves its id in the cache and touches no other name;
      a failed one leaves the cache as it was. */
  lemma LookupStoresId(pool: seq<string>, n: Net, data: map<string, CacheEntry>, name: string)
    ensures var (r, _, data') := EnsureSpec(pool, n, data, name);
      && (r.Success? ==> r.value != [] && LookupNameId(data', name) == Some(r.value))
      && (r.Success? ==> forall other :: other != name && other in data ==> other in data' && data'[other] == data[other])
      && (r.Failure? ==> data' == data)
  {
    ResolvedId(pool, n, name);
  }

  /** `fetch_price` on the histogram body: `Success(None)` is the 0.0 returned,
      without touching the cache, when `highest_buy_order` is missing or falsy;
      otherwise the value in minor units is converted with `int()` and divided
      by 100. */
  function HistogramPrice(body: Body, name: string): (r: Result<Option<real>, ClientError>)
    ensures body.json.None? ==> r == Failure(BadHistogramJson(name))
    ensures body.json.Some? && !body.json.value.JObj? ==> r == Failure(Raised(AttributeError))
    ensures r == Success(None) <==>
            body.json.Some? && body.json.value.JObj? && !Truthy(Get(body.json.value.fields, "highest_buy_order"))
    ensures body.json.Some? && body.json.value.JObj? ==>
            var highest := Get(body.json.value.fields, "highest_buy_order");
            Truthy(highest) ==>
              match PyInt(highest)
              case Success(cents) => r == Success(Some(cents as real / 100.0))
              case Failure(ValueError) => r == Failure(BadHighestBuyOrder(name))
              case Failure(e) => r == Failure(Raised(e))
    ensures r.Success? && r.value.Some? ==> (r.value.value * 100.0).Floor as real == r.value.value * 100.0
  {
    match body.json
    case None => Failure(BadHistogramJson(name))
    case Some(data) =>
      if !data.JObj? then Failure(Raised(AttributeError))
      else
        var highest := Get(data.fields, "highest_buy_order");
        if !Truthy(highest) then Success(None)
        else
          match PyInt(highest)
          case Success(cents) =>
            assert (cents as real / 100.0) * 100.0 == cents as real;
            Success(Some(cents as real / 100.0))
          case Failure(ValueError) => Failure(BadHighestBuyOrder(name))
          case Failure(e) => Failure(Raised(e))
  }

  /** Steam's `highest_buy_order` is a string of cents: a string `int()` reads
      gives that many cents in major units, and any other non-empty string is
      the `RuntimeError` for a malformed value. */
  lemma HistogramPriceOfText(fields: map<string, Json>, text: string, name: string, cents: string)
    requires Get(fields, "highest_buy_order") == JStr(cents) && cents != []
    ensures var r := HistogramPrice(Body(text, Some(JObj(fields))), name);
      && (IntLiteral(Strip(cents)) ==> r == Success(Some(ParseIntLiteral(cents).value as real / 100.0)))
      && (!IntLiteral(Strip(cents)) ==> r == Failure(BadHighestBuyOrder(name)))
  {
    var highest := JStr(cents);
    assert Truthy(highest);
    if IntLiteral(Strip(cents)) {
      assert PyInt(highest) == Success(ParseIntLiteral(cents).value);
    } else {
      assert PyInt(highest) == Failure(ValueError);
    }
  }

  /** The answer `{"highest_buy_order": "250"}`, padded or not, is a price of
      2.50. */
  lemma HistogramPriceOfCents(fields: map<string, Json>, text: string, name: string, before: string, c: int, after: string)
    requires AllSpace(before) && AllSpace(after)
    requires Get(fields, "highest_buy_order") == JStr(before + IntToString(c) + after)
    ensures HistogramPrice(Body(text, Some(JObj(fields))), name) == Success(Some(c as real / 100.0))
  {
    var cents := before + IntToString(c) + after;
    ParseIntLiteralPadded(before, c, after);
    assert ParseIntLiteral(cents).Some?;
    assert cents != [] by { assert |cents| >= |IntToString(c)| > 0; }
    HistogramPriceOfText(fields, text, name, cents);
  }

  /** The histogram stage of `fetch_price` for the id `id`: one request, and
      the price from its body, written to the cache with the time `now`. */
  function PriceStage(pool: seq<string>, n: Net, data: map<string, CacheEntry>, name: string, id: string, now: real)
    : (Result<real, ClientError>, Net, map<string, CacheEntry>)
  {
    var (response, n2) := RequestSpec(pool, n, HistogramUrl(id));
    if response.Failure? then (Failure(response.error), n2, data)
    else
      match HistogramPrice(response.value, name)
      case Failure(e) => (Failure(e), n2, data)
      case Success(None) => (Success(0.0), n2, data)
      case Success(Some(price)) => (Success(price), n2, WithPrice(data, name, price, now))
  }

  /** `fetch_price`: the id lookup, then the histogram stage for that id. */
  function FetchPriceSpec(pool: seq<string>, n: Net, data: map<string, CacheEntry>, name: string, now: real)
    : (Result<real, ClientError>, Net, map<string, CacheEntry>)
  {
    var (idResult, n1, d1) := EnsureSpec(pool, n, data, name);
    if idResult.Failure? then (Failure(idResult.error), n1, d1)
    else PriceStage(pool, n1, d1, name, idResult.value, now)
  }

  /** `ensure_item_nameid` calls the cache's setter: the cache has no
      non-empty id for `name` and the lookup finds one. */
  predicate EnsureStores(pool: seq<string>, n: Net, data: map<string, CacheEntry>, name: string) {
    var cached := LookupNameId(data, name);
    !(cached.Some? && cached.value != []) && ResolveSpec(pool, n, name).0.Success?
  }

  /** `fetch_price` calls `set_price`: an id is found and the histogram
      answer holds a truthy `highest_buy_order` that reads as cents. */
  predicate PriceStores(pool: seq<string>, n: Net, data: map<string, CacheEntry>, name: string) {
    var (idResult, n1, _) := EnsureSpec(pool, n, data, name);
    idResult.Success? &&
    var (response, _) := RequestSpec(pool, n1, HistogramUrl(idResult.value));
    response.Success? && HistogramPrice(response.value, name).Success? &&
    HistogramPrice(response.value, name).value.Some?
  }

  /** The histogram asked for is the one of the id found, and the stage writes
      to the cache only the price it read: a missing or falsy
      `highest_buy_order` gives 0.0 with the cache untouched; otherwise the
      name's `last_price` becomes the price, stamped `now`, and its id and the
      other names stay as they were. */
  lemma PriceStageWritesThrough(pool: seq<string>, n: Net, data: map<string, CacheEntry>, name: string, id: string, now: real)
    ensures var (r, after, data') := PriceStage(pool, n, data, name, id, now);
      && (n.feed != [] ==> after.sent[|n.sent|].url == HistogramUrl(id))
      && (r.Failure? ==> data' == data)
      && (forall m :: LookupNameId(data', m) == LookupNameId(data, m))
      && (data' != data ==> r.Success? && data' == WithPrice(data, name, r.value, now))
  {
  }

  /** The client object: its cache, its proxy pool, the rotation fields, and
      the network as a feed of answers and a log of requests. */
  class MarketClient {
    var cache: MarketCache
    var pool: seq<string>
    var index: nat
    var hits: nat
    var cooldowns: nat
    var feed: seq<Response>
    var sent: seq<Sent>

    /** The cursor points into the pool, or is 0 without one. */
    predicate CursorInRange()
      reads this
    {
      if pool == [] then index == 0 else index < |pool|
    }

    /** The cursor and the counter are in range for the pool. */
    predicate Valid()
      reads this
    {
      Consistent(Rotation(index, hits, cooldowns), |pool|)
    }

    /** The network side of the object, as the specification functions see it. */
    function Snapshot(): Net
      reads this
    {
      Net(Rotation(index, hits, cooldowns), feed, sent)
    }

    /** `__init__`: the pool holds the formatted proxy lines in order, the
        cursor and the counter start at zero. */
    constructor (cache: MarketCache, proxies: seq<string>, feed: seq<Response>)
      ensures Valid()
      ensures this.cache == cache && pool == FormattedPool(proxies)
      ensures index == 0 && hits == 0 && cooldowns == 0 && this.feed == feed && sent == []
    {
      this.cache := cache;
      this.feed := feed;
      sent := [];
      var built: seq<string> := [];
      var k := |proxies|;
      while k > 0
        invariant 0 <= k <= |proxies|
        invariant built == FormattedPool(proxies[k..])
      {
        k := k - 1;
        assert proxies[k..][1..] == proxies[k + 1..];
        match FormatProxy(proxies[k])
        case Some(p) => built := [p] + built;
        case None =>
      }
      assert proxies[0..] == proxies;
      pool := built;
      index := 0;
      hits := 0;
      cooldowns := 0;
    }

    /** `_current_proxy`. */
    function CurrentProxy(): (p: Option<string>)
      reads this
      requires CursorInRange()
      ensures pool == [] <==> p.None?
      ensures p.Some? ==> p.value in pool && p == ProxyAt(pool, index)
    {
      if pool == [] then None else Some(pool[index])
    }

    /** `_advance_proxy`: the cursor moves one place round the pool. */
    method AdvanceProxy()
      requires CursorInRange()
      modifies this`index
      ensures CursorInRange()
      ensures pool == [] ==> index == old(index)
      ensures pool != [] ==> index == (old(index) + 1) % |pool|
    {
      if pool == [] {
        return;
      }
      index := (index + 1) % |pool|;
    }

    /** `_handle_rate_limit`, the pause counted in `cooldowns`. */
    method HandleRateLimit()
      requires Valid()
      modifies this`index, this`hits, this`cooldowns
      ensures Valid()
      ensures Rotation(index, hits, cooldowns) == OnRateLimit(old(Rotation(index, hits, cooldowns)), |pool|)
    {
      if pool != [] {
        hits := hits + 1;
        AdvanceProxy();
        if hits >= |pool| {
          cooldowns := cooldowns + 1;
          hits := 0;
        }
      } else {
        cooldowns := cooldowns + 1;
      }
    }

    /** `_request`. */
    method Request(url: Url) returns (r: Result<Body, ClientError>)
      requires Valid()
      modifies this`index, this`hits, this`cooldowns, this`feed, this`sent
      ensures Valid()
      ensures (r, Snapshot()) == RequestSpec(pool, old(Snapshot()), url)
    {
      while true
        invariant Valid()
        invariant RequestSpec(pool, Snapshot(), url) == RequestSpec(pool, old(Snapshot()), url)
        decreases |feed|
      {
        if feed == [] {
          return Failure(NoAnswer);
        }
        var response := feed[0];
        sent := sent + [Sent(url, CurrentProxy())];
        feed := feed[1..];
        if response.ConnectionFailed? {
          return Failure(ConnectionError);
        }
        if response.status == 429 {
          HandleRateLimit();
          continue;
        }
        hits := 0;
        if IsErrorStatus(response.status) {
          return Failure(HttpError(response.status));
        }
        return Success(response.body);
      }
    }

    /** `_fetch_item_nameid_from_render`. */
    method FetchNameIdFromRender(name: string) returns (r: Result<string, ClientError>)
      requires Valid()
      modifies this`index, this`hits, this`cooldowns, this`feed, this`sent
      ensures Valid()
      ensures (r, Snapshot()) == RenderSpec(pool, old(Snapshot()), name)
    {
      var response := Request(RenderUrl(name));
      if response.Failure? {
        return Failure(response.error);
      }
      r := RenderNameId(response.value);
    }

    /** `_fetch_item_nameid_from_html`. */
    method FetchNameIdFromHtml(name: string) returns (r: Result<string, ClientError>)
      requires Valid()
      modifies this`index, this`hits, this`cooldowns, this`feed, this`sent
      ensures Valid()
      ensures (r, Snapshot()) == HtmlSpec(pool, old(Snapshot()), name)
    {
      var response := Request(ListingUrl(name));
      if response.Failure? {
        return Failure(response.error);
      }
      r := ListingNameId(response.value, name);
    }

    /** `ensure_item_nameid`. */
    method EnsureItemNameId(name: string) returns (r: Result<string, ClientError>)
      requires Valid()
      modifies this`index, this`hits, this`cooldowns, this`feed, this`sent, cache`data, cache`dirty
      ensures Valid()
      ensures (r, Snapshot(), cache.data) == EnsureSpec(pool, old(Snapshot()), old(cache.data), name)
      ensures cache.dirty == (old(cache.dirty) || EnsureStores(pool, old(Snapshot()), old(cache.data), name))
    {
      var cached := cache.GetItemNameId(name);
      if cached.Some? && cached.value != [] {
        return Success(cached.value);
      }
      var render := FetchNameIdFromRender(name);
      if render.Failure? && IsRuntimeError(render.error) {
        r := FetchNameIdFromHtml(name);
      } else {
        r := render;
      }
      assert (r, Snapshot()) == ResolveSpec(pool, old(Snapshot()), name);
      if r.Success? {
        cache.SetItemNameId(name, r.value);
      }
    }

    /** `fetch_price`, at time `now`. */
    method FetchPrice(name: string, now: real) returns (r: Result<real, ClientError>)
      requires Valid()
      modifies this`index, this`hits, this`cooldowns, this`feed, this`sent, cache`data, cache`dirty
      ensures Valid()
      ensures (r, Snapshot(), cache.data) == FetchPriceSpec(pool, old(Snapshot()), old(cache.data), name, now)
      ensures cache.dirty == (old(cache.dirty) || EnsureStores(pool, old(Snapshot()), old(cache.data), name)
                              || PriceStores(pool, old(Snapshot()), old(cache.data), name))
    {
      var id := EnsureItemNameId(name);
      if id.Failure? {
        return Failure(id.error);
      }
      ghost var before := Snapshot();
      ghost var data := cache.data;
      var response := Request(HistogramUrl(id.value));
      if response.Failure? {
        return Failure(response.error);
      }
      var price := HistogramPrice(response.value, name);
      match price
      case Failure(e) => r := Failure(e);
      case Success(None) => r := Success(0.0);
      case Success(Some(p)) =>
        cache.SetPrice(name, p, now);
        r := Success(p);
      assert (r, Snapshot(), cache.data) == PriceStage(pool, before, data, name, id.value, now);
    }
  }
}
