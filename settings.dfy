/** `SettingsPanel.to_runtime_settings` of market_scan_app.py: the proxy and
    cookie text boxes read into the settings a scan runs with. The delay box
    holds a number and is passed through. */
module Settings {
  import opened Wrappers
  import opened Text
  import opened Config
  import opened Cookies

  /** `RuntimeSettings`. */
  datatype RuntimeSettings = RuntimeSettings(proxies: seq<string>, cookies: map<string, string>, delay: real)

  /** One proxy per non-blank line of the stripped text, each stripped. */
  function ProxyLines(text: string): seq<string> {
    NormalizeList(SplitLines(Strip(text)))
  }

  /** The proxies are exactly the non-empty strips of the lines. */
  lemma ProxyLinesMembers(text: string, proxy: string)
    ensures var lines := SplitLines(Strip(text));
      proxy in ProxyLines(text) <==> proxy != [] && exists k :: 0 <= k < |lines| && Strip(lines[k]) == proxy
  {
    var lines := SplitLines(Strip(text));
    NormalizeListMembers(lines, proxy);
    assert ProxyLines(text) == NormalizeList(lines);
    if proxy in ProxyLines(text) {
      var k :| 0 <= k < |lines| && Strip(lines[k]) == proxy;
    }
  }

  /** No proxy holds a line break. */
  lemma ProxyLinesSingleLine(text: string, proxy: string)
    requires proxy in ProxyLines(text)
    ensures SingleLine(proxy)
  {
    NormalizeSingleLines(SplitLines(Strip(text)), proxy);
  }

  lemma {:induction false} NormalizeSingleLines(lines: seq<string>, proxy: string)
    requires forall k :: 0 <= k < |lines| ==> SingleLine(lines[k])
    requires proxy in NormalizeList(lines)
    ensures SingleLine(proxy)
  {
    var head := Strip(lines[0]);
    if proxy == head {
      StripSingleLine(lines[0]);
    } else {
      assert NormalizeList(lines) == (if head != [] then [head] else []) + NormalizeList(lines[1..]);
      NormalizeSingleLines(lines[1..], proxy);
    }
  }

  /** The cookie part of `to_runtime_settings`: nothing for a blank text,
      otherwise every chunk's name set to its value, empty names included. */
  method ReadCookies(cookieText: string) returns (cookies: map<string, string>)
    ensures cookies == CookieMap(Split(Strip(cookieText), ';'), true)
  {
    var text := Strip(cookieText);
    cookies := map[];
    if text == [] {
      assert Split(text, ';') == [[]];
      var single: seq<string> := [[]];
      CookieMapStep(single, 0, true);
      assert single[..0] == [] && single[..1] == single;
      return;
    }
    var chunks := Split(text, ';');
    var i := 0;
    while i < |chunks|
      invariant i <= |chunks|
      invariant cookies == CookieMap(chunks[..i], true)
    {
      var chunk := chunks[i];
      CookieMapStep(chunks, i, true);
      i := i + 1;
      if '=' !in chunk {
        continue;
      }
      var halves := SplitOnce(chunk, '=');
      cookies := cookies[Strip(halves.0) := Strip(halves.1)];
    }
    assert chunks[..i] == chunks;
  }

  /** `to_runtime_settings`. */
  method ToRuntimeSettings(proxyText: string, cookieText: string, delay: real) returns (settings: RuntimeSettings)
    ensures settings == RuntimeSettings(ProxyLines(proxyText), CookieMap(Split(Strip(cookieText), ';'), true), delay)
  {
    var proxies := NormalizeList(SplitLines(Strip(proxyText)));
    var cookies := ReadCookies(cookieText);
    settings := RuntimeSettings(proxies, cookies, delay);
  }
}
