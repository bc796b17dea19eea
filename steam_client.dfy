/** `SteamClient` of steam_client.py: the session's cookie jar, the endless
    round-robin over the normalised proxies, the three-attempt JSON request,
    and reading the highest buy order out of a listing's `buy_order_graph`.

    The HTTP session is outside the model. `answer(k)` is what the `k`-th GET
    the client makes (from 0) comes to: a request exception, or a status with
    the body decoded as JSON (`None` when decoding fails). Every GET is logged
    with the proxy it was given. Headers, URLs and their percent-encoding, the
    timeout and the sleeps between attempts are not modelled. */
module Steam {
  import opened Wrappers
  import opened Text
  import opened PyJson
  import opened Config
  import opened Cookies
  import opened Proxy

  /** What one GET came to. */
  datatype Attempt = RequestException | Answered(status: int, json: Option<Json>)

  /** A 200 answer whose body is JSON: the only attempt `request_json` accepts. */
  predicate Accepted(a: Attempt) {
    a.Answered? && a.status == 200 && a.json.Some?
  }

  /** The attempts `request_json` makes from the `made`-th GET on, with `left`
      attempts allowed: what it returns and how many GETs it made. */
  function Retry(answer: nat -> Attempt, made: nat, left: nat): (Option<Json>, nat)
    decreases left
  {
    if left == 0 then (None, 0)
    else if Accepted(answer(made)) then (answer(made).json, 1)
    else
      var rest := Retry(answer, made + 1, left - 1);
      (rest.0, rest.1 + 1)
  }

  /** At most `left` GETs, at least one when any is allowed; the answer
      returned is the first accepted one, and `None` means none of the `left`
      answers was accepted. */
  lemma {:induction false} RetryOutcome(answer: nat -> Attempt, made: nat, left: nat)
    ensures var r := Retry(answer, made, left);
      r.1 <= left && (left > 0 ==> r.1 >= 1) &&
      (forall k :: made <= k < made + r.1 - 1 ==> !Accepted(answer(k))) &&
      (r.0.Some? ==> 1 <= r.1 && Accepted(answer(made + r.1 - 1)) && r.0 == answer(made + r.1 - 1).json) &&
      (r.0.None? ==> r.1 == left && forall k :: made <= k < made + left ==> !Accepted(answer(k)))
    decreases left
  {
    if left > 0 && !Accepted(answer(made)) {
      RetryOutcome(answer, made + 1, left - 1);
    }
  }

  /** One attempt of `Retry`: an accepted answer ends it, any other answer
      leaves the rest to the remaining attempts. */
  lemma RetryStep(answer: nat -> Attempt, made: nat, left: nat)
    requires left > 0
    ensures Accepted(answer(made)) ==> Retry(answer, made, left) == (answer(made).json, 1)
    ensures !Accepted(answer(made)) ==>
      Retry(answer, made, left) == (Retry(answer, made + 1, left - 1).0, Retry(answer, made + 1, left - 1).1 + 1)
  {
  }

  /** The number of attempts `request_json` allows. */
  const Retries: nat := 3

  /** The proxy cursor after `n` proxies were taken from position `cursor`. */
  function CursorAfter(proxies: seq<string>, cursor: nat, n: nat): nat {
    if n == 0 then cursor
    else
      var c := CursorAfter(proxies, cursor, n - 1);
      if proxies == [] then c else Wrap(c, |proxies|)
  }

  /** The proxies handed to `n` GETs starting at position `cursor`: `None`
      every time when there are no proxies. */
  function ProxyCalls(proxies: seq<string>, cursor: nat, n: nat): (calls: seq<Option<string>>)
    ensures |calls| == n
  {
    if n == 0 then []
    else
      var c := CursorAfter(proxies, cursor, n - 1);
      ProxyCalls(proxies, cursor, n - 1) + [ProxyOf(proxies, c)]
  }

  /** The proxy at position `c`, none when there are no proxies. */
  function ProxyOf(proxies: seq<string>, c: nat): Option<string> {
    if proxies == [] || c >= |proxies| then None else Some(proxies[c])
  }

  lemma ProxyCallsStep(proxies: seq<string>, cursor: nat, n: nat)
    ensures ProxyCalls(proxies, cursor, n + 1) == ProxyCalls(proxies, cursor, n) + [ProxyOf(proxies, CursorAfter(proxies, cursor, n))]
    ensures CursorAfter(proxies, cursor, n + 1) == CursorAfter(proxies, (CursorAfter(proxies, cursor, n)), 1)
  {
  }

  /** After `n` steps the cursor has gone `n` places round the list. */
  lemma {:induction false} CursorAfterWraps(proxies: seq<string>, cursor: nat, n: nat)
    requires cursor < |proxies|
    ensures CursorAfter(proxies, cursor, n) == (cursor + n) % |proxies|
  {
    if n == 0 {
      DivModUnique(cursor, |proxies|, 0, cursor);
    } else {
      CursorAfterWraps(proxies, cursor, n - 1);
      ModStep(cursor + n - 1, |proxies|);
    }
  }

  /** `_get_proxy` hands out the proxies in list order, wrapping round, or
      nothing when there are none. */
  lemma {:induction false} ProxyCallsRoundRobin(proxies: seq<string>, cursor: nat, n: nat)
    requires proxies == [] ==> cursor == 0
    requires proxies != [] ==> cursor < |proxies|
    ensures forall k :: 0 <= k < n ==>
      ProxyCalls(proxies, cursor, n)[k] == (if proxies == [] then None else Some(proxies[(cursor + k) % |proxies|]))
  {
    if n > 0 {
      ProxyCallsRoundRobin(proxies, cursor, n - 1);
      if proxies != [] {
        CursorAfterWraps(proxies, cursor, n - 1);
      }
    }
  }

  /** `fetch_item_buy_order_price` after the request: the price the first
      entry of `buy_order_graph` starts with. `data` is what `request_json`
      returned. */
  function BuyOrderPrice(data: Option<Json>): (r: Result<Option<real>, PyException>)
    ensures data.None? || !Truthy(data.value) ==> r == Success(None)
    ensures r.Failure? <==>
      data.Some? && Truthy(data.value) &&
      (!data.value.JObj? || Unindexable(Get(data.value.fields, "buy_order_graph")))
    ensures r.Success? && r.value.Some? ==>
      data.Some? && data.value.JObj? &&
      var graph := Get(data.value.fields, "buy_order_graph");
      graph.JArr? && graph.items != [] && graph.items[0].JArr? && graph.items[0].items != [] &&
      PyFloat(graph.items[0].items[0]) == Success(r.value.value)
  {
    if data.None? || !Truthy(data.value) then Success(None)
    else if !data.value.JObj? then Failure(AttributeError)
    else
      var graph := Get(data.value.fields, "buy_order_graph");
      if !Truthy(graph) then Success(None)
      else
        match graph
        case JArr(entries) => EntryPrice(entries[0])
        case JStr(_) => Success(None)
        case JObj(_) => Failure(KeyError)
        case _ => Failure(TypeError)
  }

  /** A truthy value `graph[0]` raises on: a number or a boolean (not
      subscriptable) or an object (no key `0`). */
  predicate Unindexable(graph: Json) {
    Truthy(graph) && (graph.JInt? || graph.JFloat? || graph.JBool? || graph.JObj?)
  }

  /** The first element of a non-empty list, as `float()` reads it; anything
      else has no price. */
  function EntryPrice(entry: Json): Result<Option<real>, PyException> {
    if !entry.JArr? || |entry.items| < 1 then Success(None)
    else
      match PyFloat(entry.items[0])
      case Success(x) => Success(Some(x))
      case Failure(_) => Success(None)
  }

  /** A graph whose first entry starts with a value `float()` reads as `x`
      (a number or a numeric string) gives `x`, whatever follows. */
  lemma BuyOrderPriceOfGraph(fields: map<string, Json>, x: real, e: Json, quantity: seq<Json>, more: seq<Json>)
    requires "buy_order_graph" in fields
    requires fields["buy_order_graph"] == JArr([JArr([e] + quantity)] + more)
    requires PyFloat(e) == Success(x)
    ensures BuyOrderPrice(Some(JObj(fields))) == Success(Some(x))
  {
    assert Truthy(JObj(fields));
  }

  /** A graph that is missing, empty, or whose first entry is not a non-empty
      list gives no price and raises nothing. */
  lemma NoPriceWithoutEntry(fields: map<string, Json>)
    requires var graph := Get(fields, "buy_order_graph");
      !Truthy(graph) || (graph.JArr? && (!graph.items[0].JArr? || graph.items[0].items == []))
    ensures BuyOrderPrice(Some(JObj(fields))) == Success(None)
  {
  }

  /** Setting a cookie in a jar holding `jar` and then `added` is setting it in
      `added`. */
  lemma UnionUpdate(jar: map<string, string>, added: map<string, string>, name: string, value: string)
    ensures (jar + added)[name := value] == jar + added[name := value]
  {
  }

  lemma EmptyJar(added: map<string, string>)
    ensures map[] + added == added
  {
  }

  class SteamClient {
    /** The session's cookie jar. */
    var cookies: map<string, string>
    /** `config.normalized_proxies()`, cycled through. */
    var proxies: seq<string>
    /** The position of the proxy cycle. */
    var cursor: nat
    /** The proxy each GET was given, in order. */
    var proxiesUsed: seq<Option<string>>

    /** How many GETs were made. */
    function Made(): nat
      reads this
    {
      |proxiesUsed|
    }

    /** The cursor is a position of the list. */
    predicate Valid()
      reads this
    {
      (proxies == [] ==> cursor == 0) && (proxies != [] ==> cursor < |proxies|)
    }

    /** The cookies `_apply_cookies` sets from a `name=value; ...` string. */
    static function CookieJar(cookieString: string): map<string, string> {
      CookieMap(Split(cookieString, ';'), false)
    }

    constructor (config: AppConfig)
      ensures Valid()
      ensures cookies == CookieJar(config.cookieString)
      ensures proxies == NormalizedProxies(config) && cursor == 0
      ensures proxiesUsed == []
    {
      cookies := map[];
      new;
      ApplyCookies(config.cookieString);
      EmptyJar(CookieJar(config.cookieString));
      proxies := NormalizedProxies(config);
      cursor := 0;
      proxiesUsed := [];
    }

    /** `_apply_cookies`: sets every named chunk's cookie, a later chunk
        overwriting an earlier one. */
    method ApplyCookies(cookieString: string)
      modifies this`cookies
      ensures cookies == old(cookies) + CookieJar(cookieString)
    {
      var chunks := Split(cookieString, ';');
      ghost var jar := cookies;
      var i := 0;
      while i < |chunks|
        invariant i <= |chunks|
        invariant cookies == jar + CookieMap(chunks[..i], false)
      {
        var chunk := chunks[i];
        ghost var before := CookieMap(chunks[..i], false);
        CookieMapStep(chunks, i, false);
        i := i + 1;
        if '=' !in chunk {
          continue;
        }
        var halves := SplitOnce(chunk, '=');
        var name := Strip(halves.0);
        var value := Strip(halves.1);
        if name != [] {
          UnionUpdate(jar, before, name, value);
          cookies := cookies[name := value];
        }
      }
      assert chunks[..i] == chunks;
    }

    /** `_get_proxy`. */
    method GetProxy() returns (proxy: Option<string>)
      requires Valid()
      modifies this`cursor
      ensures Valid()
      ensures proxy == ProxyOf(proxies, old(cursor))
      ensures cursor == CursorAfter(proxies, old(cursor), 1)
    {
      if proxies == [] {
        return None;
      }
      proxy := Some(proxies[cursor]);
      cursor := if cursor + 1 == |proxies| then 0 else cursor + 1;
    }

    /** `request_json`: up to three GETs, each with the next proxy; the first
        200 answer with a JSON body is returned, and `None` after three failed
        attempts. */
    method RequestJson(answer: nat -> Attempt) returns (data: Option<Json>)
      requires Valid()
      modifies this`cursor, this`proxiesUsed
      ensures Valid()
      ensures var r := Retry(answer, old(Made()), Retries);
        data == r.0 && Made() == old(Made()) + r.1 &&
        cursor == CursorAfter(proxies, old(cursor), r.1) &&
        proxiesUsed == old(proxiesUsed) + ProxyCalls(proxies, old(cursor), r.1)
    {
      ghost var whole := Retry(answer, Made(), Retries);
      var attempt := 0;
      while attempt < Retries
        invariant attempt <= Retries && Valid()
        invariant Made() == old(Made()) + attempt
        invariant cursor == CursorAfter(proxies, old(cursor), attempt)
        invariant proxiesUsed == old(proxiesUsed) + ProxyCalls(proxies, old(cursor), attempt)
        invariant whole == (Retry(answer, Made(), Retries - attempt).0, Retry(answer, Made(), Retries - attempt).1 + attempt)
      {
        ProxyCallsStep(proxies, old(cursor), attempt);
        var a := answer(Made());
        var proxy := GetProxy();
        proxiesUsed := proxiesUsed + [proxy];
        attempt := attempt + 1;
        if a.Answered? && a.status == 200 && a.json.Some? {
          return a.json;
        }
      }
      return None;
    }

    /** `fetch_item_buy_order_price`: the request, then the extraction, whose
        exceptions propagate. */
    method FetchItemBuyOrderPrice(answer: nat -> Attempt) returns (price: Result<Option<real>, PyException>)
      requires Valid()
      modifies this`cursor, this`proxiesUsed
      ensures Valid()
      ensures price == BuyOrderPrice(Retry(answer, old(Made()), Retries).0)
      ensures Made() == old(Made()) + Retry(answer, old(Made()), Retries).1
    {
      var data := RequestJson(answer);
      price := BuyOrderPrice(data);
    }
  }
}
