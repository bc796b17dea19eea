/** Cookie strings `name=value; name=value`, as both the settings panel
    (`SettingsPanel.to_runtime_settings`) and `SteamClient._apply_cookies` read
    them: the string is split on `;`, a chunk without `=` is skipped, and a
    chunk is split on its first `=` into a name and a value, both stripped. */
module Cookies {
  import opened Wrappers
  import opened Text

  /** The name and value a chunk carries, if it has an `=`. */
  function CookieEntry(chunk: string): (r: Option<(string, string)>)
    ensures r.Some? <==> '=' in chunk
    ensures r.Some? ==> IsStripped(r.value.0) && IsStripped(r.value.1)
  {
    if '=' !in chunk then None
    else
      var halves := SplitOnce(chunk, '=');
      StripFacts(halves.0);
      StripFacts(halves.1);
      Some((Strip(halves.0), Strip(halves.1)))
  }

  /** A chunk written as `name=value`, with no `=` in the name, reads back as
      the stripped name and value. */
  lemma CookieEntryOfPair(name: string, value: string)
    requires '=' !in name
    ensures CookieEntry(name + "=" + value) == Some((Strip(name), Strip(value)))
  {
    var chunk := name + "=" + value;
    assert chunk[|name|] == '=';
    assert chunk[..|name|] == name;
    IndexOfPrefix(chunk, '=', name);
    assert chunk[|name| + 1..] == value;
  }

  /** What each chunk carries, in order. */
  function Entries(chunks: seq<string>): (entries: seq<Option<(string, string)>>)
    ensures |entries| == |chunks|
    ensures forall j :: 0 <= j < |chunks| ==> entries[j] == CookieEntry(chunks[j])
  {
    seq(|chunks|, j requires 0 <= j < |chunks| => CookieEntry(chunks[j]))
  }

  /** Whether an entry sets `name` (to whatever value), given whether empty
      names are kept. */
  predicate SetsName(entry: Option<(string, string)>, name: string, keepEmptyNames: bool) {
    entry.Some? && entry.value.0 == name && (keepEmptyNames || name != [])
  }

  /** The cookies a list of entries sets, in order, a later entry overwriting
      an earlier one with the same name. `keepEmptyNames` is false for
      `_apply_cookies`, which skips chunks whose name is empty. */
  function EntryMap(entries: seq<Option<(string, string)>>, keepEmptyNames: bool): map<string, string> {
    if entries == [] then map[]
    else
      var m := EntryMap(entries[..|entries| - 1], keepEmptyNames);
      var e := entries[|entries| - 1];
      if e.Some? && (keepEmptyNames || e.value.0 != []) then m[e.value.0 := e.value.1] else m
  }

  /** The cookies the chunks of a cookie string set. */
  function CookieMap(chunks: seq<string>, keepEmptyNames: bool): map<string, string> {
    EntryMap(Entries(chunks), keepEmptyNames)
  }

  /** Reading one more chunk: its entry, if any and if its name is kept, is
      added over the cookies read so far. */
  lemma CookieMapStep(chunks: seq<string>, i: nat, keepEmptyNames: bool)
    requires i < |chunks|
    ensures var m := CookieMap(chunks[..i], keepEmptyNames);
      var e := CookieEntry(chunks[i]);
      CookieMap(chunks[..i + 1], keepEmptyNames) ==
        if e.Some? && (keepEmptyNames || e.value.0 != []) then m[e.value.0 := e.value.1] else m
  {
    assert Entries(chunks[..i + 1])[..i] == Entries(chunks[..i]);
  }

  /** A name is set exactly when some entry sets it. */
  lemma {:induction false} EntryMapKeys(entries: seq<Option<(string, string)>>, keepEmptyNames: bool, name: string)
    ensures name in EntryMap(entries, keepEmptyNames) <==>
            exists j :: 0 <= j < |entries| && SetsName(entries[j], name, keepEmptyNames)
  {
    if entries != [] {
      var init := entries[..|entries| - 1];
      EntryMapKeys(init, keepEmptyNames, name);
      if exists j :: 0 <= j < |init| && SetsName(init[j], name, keepEmptyNames) {
        var j :| 0 <= j < |init| && SetsName(init[j], name, keepEmptyNames);
        assert entries[j] == init[j];
      }
      if exists j :: 0 <= j < |entries| && SetsName(entries[j], name, keepEmptyNames) {
        var j :| 0 <= j < |entries| && SetsName(entries[j], name, keepEmptyNames);
        if j < |init| {
          assert entries[j] == init[j];
        }
      }
    }
  }

  /** The value of a name is the one its last entry gives. */
  lemma {:induction false} EntryMapLastWins(entries: seq<Option<(string, string)>>, keepEmptyNames: bool, j: nat, name: string, value: string)
    requires j < |entries| && entries[j] == Some((name, value)) && (keepEmptyNames || name != [])
    requires forall j' :: j < j' < |entries| ==> !SetsName(entries[j'], name, keepEmptyNames)
    ensures name in EntryMap(entries, keepEmptyNames) && EntryMap(entries, keepEmptyNames)[name] == value
  {
    var init := entries[..|entries| - 1];
    if j < |init| {
      forall j' | j < j' < |init| ensures !SetsName(init[j'], name, keepEmptyNames) {
        assert init[j'] == entries[j'];
      }
      assert init[j] == entries[j];
      EntryMapLastWins(init, keepEmptyNames, j, name, value);
      assert !SetsName(entries[|entries| - 1], name, keepEmptyNames);
    }
  }

  /** A cookie is set exactly when some chunk of the string carries its name,
      and its value is the one the last such chunk gives. */
  lemma CookieMapLastWins(chunks: seq<string>, keepEmptyNames: bool, j: nat, name: string, value: string)
    requires j < |chunks| && CookieEntry(chunks[j]) == Some((name, value)) && (keepEmptyNames || name != [])
    requires forall j' :: j < j' < |chunks| ==> !SetsName(CookieEntry(chunks[j']), name, keepEmptyNames)
    ensures name in CookieMap(chunks, keepEmptyNames) && CookieMap(chunks, keepEmptyNames)[name] == value
  {
    EntryMapLastWins(Entries(chunks), keepEmptyNames, j, name, value);
  }

  /** A name is set exactly when some chunk sets it. */
  lemma CookieMapKeys(chunks: seq<string>, keepEmptyNames: bool, name: string)
    ensures name in CookieMap(chunks, keepEmptyNames) <==>
            exists j :: 0 <= j < |chunks| && SetsName(CookieEntry(chunks[j]), name, keepEmptyNames)
  {
    EntryMapKeys(Entries(chunks), keepEmptyNames, name);
  }

  /** Skipping empty names loses exactly the empty name. */
  lemma {:induction false} EntryMapWithoutEmptyName(entries: seq<Option<(string, string)>>)
    ensures EntryMap(entries, false) == EntryMap(entries, true) - {""}
  {
    if entries != [] {
      EntryMapWithoutEmptyName(entries[..|entries| - 1]);
    }
  }

  /** `_apply_cookies` sets what the settings panel reads, less the empty
      name. */
  lemma CookieMapWithoutEmptyName(chunks: seq<string>)
    ensures CookieMap(chunks, false) == CookieMap(chunks, true) - {""}
  {
    EntryMapWithoutEmptyName(Entries(chunks));
  }
}
