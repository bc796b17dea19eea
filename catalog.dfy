/** The pair catalogue of market_scan_app.py: `ItemPair` and `load_pairs`,
    which zips the decoded sticker and slab lists into pairs and collects the
    rarity and crate names the filters offer, sorted.

    Reading and decoding the two files is outside the model: `load_pairs`
    receives the elements of the two decoded lists. */
module Catalog {
  import opened Wrappers
  import opened Text
  import opened PyJson
  import opened Config

  /** One sticker and its slab, as listed in the table and scanned. */
  datatype ItemPair = ItemPair(index: int, stickerName: string, slabName: string, rarityName: string, crates: seq<string>)

  /** The rarity shown for a sticker whose rarity has no name. */
  const UnknownRarity: string := "Невідомо"

  /** `x.get("market_hash_name") or x.get("name")`; `get` on anything but an
      object raises `AttributeError`. */
  function NameOf(item: Json): (r: Result<Json, LoadError>)
    ensures r.Failure? <==> !item.JObj?
    ensures r.Success? && Truthy(Get(item.fields, "market_hash_name")) ==> r.value == Get(item.fields, "market_hash_name")
    ensures r.Success? && !Truthy(Get(item.fields, "market_hash_name")) ==> r.value == Get(item.fields, "name")
  {
    if !item.JObj? then Failure(Raised(AttributeError))
    else
      var marketName := Get(item.fields, "market_hash_name");
      Success(if Truthy(marketName) then marketName else Get(item.fields, "name"))
  }

  /** `(sticker.get("rarity") or {}).get("name") or "Невідомо"`. */
  function RarityOf(fields: map<string, Json>): (r: Result<string, LoadError>)
    ensures r.Success? ==> r.value != []
    ensures !Truthy(Get(fields, "rarity")) ==> r == Success(UnknownRarity)
  {
    var rarity := Get(fields, "rarity");
    if !Truthy(rarity) then Success(UnknownRarity)
    else if !rarity.JObj? then Failure(Raised(AttributeError))
    else
      var name := Get(rarity.fields, "name");
      if !Truthy(name) then Success(UnknownRarity)
      else if !name.JStr? then Failure(NotRepresentable("rarity"))
      else Success(name.s)
  }

  /** The generator over `crates`: the name of every crate that is an object
      with a truthy name, in order. */
  function CrateNames(crates: seq<Json>): (r: Result<seq<string>, LoadError>)
    ensures r.Success? ==> |r.value| <= |crates| && forall k :: 0 <= k < |r.value| ==> r.value[k] != []
  {
    if crates == [] then Success([])
    else
      var crate := crates[0];
      var name := if crate.JObj? then Get(crate.fields, "name") else JNull;
      var head :- if !Truthy(name) then Success([])
                  else if !name.JStr? then Failure(NotRepresentable("crates"))
                  else Success([name.s]);
      var rest :- CrateNames(crates[1..]);
      Success(head + rest)
  }

  /** `sticker.get("crates", [])` iterated: a list gives its crates; a string
      or an object iterates over strings, none of which is a crate object;
      `None`, numbers and booleans are not iterable. */
  function CratesOf(fields: map<string, Json>): (r: Result<seq<string>, LoadError>)
    ensures "crates" !in fields ==> r == Success([])
  {
    match GetOr(fields, "crates", JArr([]))
    case JArr(items) => CrateNames(items)
    case JStr(_) => Success([])
    case JObj(_) => Success([])
    case _ => Failure(Raised(TypeError))
  }

  /** The names, rarity and crates of one zipped sticker and slab, without the
      index. */
  datatype Entry = Entry(stickerName: string, slabName: string, rarityName: string, crates: seq<string>)

  /** One pass of the loop: both names are read first; a pair missing either
      name is skipped; otherwise its rarity and crates are read. */
  function EntryOf(sticker: Json, slab: Json): (r: Result<Option<Entry>, LoadError>)
    ensures r.Success? && r.value.Some? ==>
      var e := r.value.value;
      e.stickerName != [] && e.slabName != [] && e.rarityName != [] && forall c :: c in e.crates ==> c != []
  {
    var stickerName :- NameOf(sticker);
    var slabName :- NameOf(slab);
    if !Truthy(stickerName) || !Truthy(slabName) then Success(None)
    else if !stickerName.JStr? then Failure(NotRepresentable("sticker_name"))
    else if !slabName.JStr? then Failure(NotRepresentable("slab_name"))
    else
      var rarity :- RarityOf(sticker.fields);
      var crates :- CratesOf(sticker.fields);
      Success(Some(Entry(stickerName.s, slabName.s, rarity, crates)))
  }

  /** The pairs read from the first `n` zipped elements. */
  function Catalogue(stickers: seq<Json>, slabs: seq<Json>, n: nat): Result<seq<ItemPair>, LoadError>
    requires n <= |stickers| && n <= |slabs|
  {
    if n == 0 then Success([])
    else
      var pairs :- Catalogue(stickers, slabs, n - 1);
      var entry :- EntryOf(stickers[n - 1], slabs[n - 1]);
      match entry
      case None => Success(pairs)
      case Some(e) => Success(pairs + [ItemPair(|pairs|, e.stickerName, e.slabName, e.rarityName, e.crates)])
  }

  /** How many elements `zip` pairs up. */
  function Zipped(stickers: seq<Json>, slabs: seq<Json>): nat {
    if |stickers| <= |slabs| then |stickers| else |slabs|
  }

  /** Each pair carries its position as index and non-empty names, and there
      are at most as many pairs as zipped elements. */
  lemma {:induction false} CatalogueIndexes(stickers: seq<Json>, slabs: seq<Json>, n: nat)
    requires n <= |stickers| && n <= |slabs|
    ensures var r := Catalogue(stickers, slabs, n);
      r.Success? ==> (|r.value| <= n &&
        forall k :: 0 <= k < |r.value| ==>
          r.value[k].index == k && r.value[k].stickerName != [] && r.value[k].slabName != [])
  {
    if n > 0 {
      CatalogueIndexes(stickers, slabs, n - 1);
    }
  }

  /** A zipped element whose sticker has neither `market_hash_name` nor
      `name` adds no pair, whatever the slab, as long as the slab is an
      object. */
  lemma NamelessStickerSkipped(stickers: seq<Json>, slabs: seq<Json>, n: nat)
    requires 0 < n <= |stickers| && n <= |slabs|
    requires stickers[n - 1] == JObj(map[]) && slabs[n - 1].JObj?
    ensures Catalogue(stickers, slabs, n) == Catalogue(stickers, slabs, n - 1)
  {
    assert EntryOf(stickers[n - 1], slabs[n - 1]) == Success(None);
  }

  /** The rarity names of the pairs. */
  ghost function Rarities(pairs: seq<ItemPair>): set<string> {
    set p | p in pairs :: p.rarityName
  }

  /** The crate names of the pairs. */
  ghost function CrateSet(pairs: seq<ItemPair>): set<string> {
    set p, c | p in pairs && c in p.crates :: c
  }

  lemma RaritiesAppend(pairs: seq<ItemPair>, p: ItemPair)
    ensures Rarities(pairs + [p]) == Rarities(pairs) + {p.rarityName}
  {
    assert forall q :: q in pairs + [p] <==> q in pairs || q == p;
  }

  lemma CrateSetAppend(pairs: seq<ItemPair>, p: ItemPair)
    ensures CrateSet(pairs + [p]) == CrateSet(pairs) + set c | c in p.crates
  {
    assert forall q :: q in pairs + [p] <==> q in pairs || q == p;
  }

  /** Strictly increasing in Python's string order, so without duplicates. */
  predicate StrictlySorted(r: seq<string>) {
    forall a, b :: 0 <= a < b < |r| ==> Below(r[a], r[b])
  }

  /** A string in front of a sorted list it is below every element of. */
  lemma ConsSorted(h: string, t: seq<string>)
    requires StrictlySorted(t) && forall y :: y in t ==> Below(h, y)
    ensures StrictlySorted([h] + t)
  {
    var r := [h] + t;
    forall a, b | 0 <= a < b < |r| ensures Below(r[a], r[b]) {
      if a == 0 {
        assert r[b] == t[b - 1];
      } else {
        assert r[a] == t[a - 1] && r[b] == t[b - 1];
      }
    }
  }

  /** `x` put in its place in a sorted list, unless it is there already. */
  function Insert(r: seq<string>, x: string): (r': seq<string>)
    requires StrictlySorted(r)
    ensures StrictlySorted(r')
    ensures forall y :: y in r' <==> y in r || y == x
  {
    if r == [] then [x]
    else if x == r[0] then r
    else if Below(x, r[0]) then
      assert forall y :: y in r ==> Below(x, y) by {
        forall y | y in r ensures Below(x, y) {
          var k :| 0 <= k < |r| && r[k] == y;
          if k > 0 {
            BelowTransitive(x, r[0], y);
          }
        }
      }
      ConsSorted(x, r);
      [x] + r
    else
      var rest := Insert(r[1..], x);
      assert StrictlySorted(r[1..]) by {
        forall a, b | 0 <= a < b < |r[1..]| ensures Below(r[1..][a], r[1..][b]) {
          assert r[1..][a] == r[a + 1] && r[1..][b] == r[b + 1];
        }
      }
      assert forall y :: y in rest ==> Below(r[0], y) by {
        forall y | y in rest ensures Below(r[0], y) {
          if y == x {
            BelowTotal(x, r[0]);
          } else {
            var k :| 1 <= k < |r| && r[k] == y;
          }
        }
      }
      ConsSorted(r[0], rest);
      assert forall y :: y in r <==> y == r[0] || y in r[1..] by {
        assert r == [r[0]] + r[1..];
      }
      [r[0]] + rest
  }

  /** Every element of a strictly sorted list but its head is above the head. */
  lemma SortedHeadLeast(s: seq<string>, y: string)
    requires StrictlySorted(s) && y in s
    ensures y == s[0] || Below(s[0], y)
  {
  }

  /** The tail of a strictly sorted list is strictly sorted. */
  lemma SortedTail(s: seq<string>)
    requires StrictlySorted(s) && s != []
    ensures StrictlySorted(s[1..])
  {
    forall a, b | 0 <= a < b < |s[1..]| ensures Below(s[1..][a], s[1..][b]) {
      assert s[1..][a] == s[a + 1] && s[1..][b] == s[b + 1];
    }
  }

  /** A strictly sorted list is determined by its elements: `sorted` of a set
      has exactly one possible result. */
  lemma {:induction false} SortedUnique(r: seq<string>, s: seq<string>)
    requires StrictlySorted(r) && StrictlySorted(s)
    requires forall y :: y in r <==> y in s
    ensures r == s
  {
    assert (r == []) == (s == []) by {
      if r != [] {
        assert r[0] in r;
      }
      if s != [] {
        assert s[0] in s;
      }
    }
    if r != [] {
      assert r[0] in r && s[0] in s;
      SortedHeadLeast(s, r[0]);
      SortedHeadLeast(r, s[0]);
      assert r[0] == s[0] by {
        if r[0] != s[0] {
          BelowTransitive(r[0], s[0], r[0]);
          BelowIrreflexive(r[0]);
        }
      }
      forall y ensures y in r[1..] <==> y in s[1..] {
        if y in r[1..] {
          var k :| 1 <= k < |r| && r[k] == y;
          BelowIrreflexive(y);
          assert y in r;
          var j :| 0 <= j < |s| && s[j] == y;
          assert s[1..][j - 1] == y;
        }
        if y in s[1..] {
          var k :| 1 <= k < |s| && s[k] == y;
          BelowIrreflexive(y);
          assert y in s;
          var j :| 0 <= j < |r| && r[j] == y;
          assert r[1..][j - 1] == y;
        }
      }
      SortedTail(r);
      SortedTail(s);
      SortedUnique(r[1..], s[1..]);
      assert r == [r[0]] + r[1..] && s == [s[0]] + s[1..];
    }
  }

  /** Python's `sorted` of a set of strings. */
  method SortedList(items: set<string>) returns (r: seq<string>)
    ensures StrictlySorted(r)
    ensures forall y :: y in r <==> y in items
  {
    r := [];
    var rest := items;
    while rest != {}
      invariant StrictlySorted(r)
      invariant forall y :: y in items <==> y in r || y in rest
      decreases |rest|
    {
      var x :| x in rest;
      r := Insert(r, x);
      rest := rest - {x};
    }
  }

  /** `load_pairs`, on the elements of the decoded sticker and slab lists: the
      pairs, and the sorted rarity and crate names. */
  method LoadPairs(stickers: seq<Json>, slabs: seq<Json>)
    returns (r: Result<(seq<ItemPair>, seq<string>, seq<string>), LoadError>)
    ensures var expected := Catalogue(stickers, slabs, Zipped(stickers, slabs));
      && (r.Success? <==> expected.Success?)
      && (r.Failure? ==> r == Failure(expected.error))
      && (r.Success? ==>
            var (pairs, rarities, crates) := r.value;
            && pairs == expected.value
            && StrictlySorted(rarities) && (forall y :: y in rarities <==> y in Rarities(pairs))
            && StrictlySorted(crates) && (forall y :: y in crates <==> y in CrateSet(pairs)))
  {
    var pairs: seq<ItemPair> := [];
    var rarities: set<string> := {};
    var crates: set<string> := {};
    var n := Zipped(stickers, slabs);
    var i := 0;
    while i < n
      invariant i <= n
      invariant Catalogue(stickers, slabs, i) == Success(pairs)
      invariant rarities == Rarities(pairs) && crates == CrateSet(pairs)
    {
      var entry := EntryOf(stickers[i], slabs[i]);
      i := i + 1;
      if entry.Failure? {
        FailureStays(stickers, slabs, i, n);
        return Failure(entry.error);
      }
      if entry.value.None? {
        continue;
      }
      var e := entry.value.value;
      var pair := ItemPair(|pairs|, e.stickerName, e.slabName, e.rarityName, e.crates);
      RaritiesAppend(pairs, pair);
      CrateSetAppend(pairs, pair);
      rarities := rarities + {e.rarityName};
      crates := crates + set c | c in e.crates;
      pairs := pairs + [pair];
    }
    var sortedRarities := SortedList(rarities);
    var sortedCrates := SortedList(crates);
    r := Success((pairs, sortedRarities, sortedCrates));
  }

  /** Once an element raises, reading more elements raises the same. */
  lemma {:induction false} FailureStays(stickers: seq<Json>, slabs: seq<Json>, i: nat, n: nat)
    requires i <= n <= |stickers| && n <= |slabs|
    requires Catalogue(stickers, slabs, i).Failure?
    ensures Catalogue(stickers, slabs, n) == Failure(Catalogue(stickers, slabs, i).error)
    decreases n - i
  {
    if i < n {
      FailureStays(stickers, slabs, i, n - 1);
    }
  }
}
