/** `ScanWorker` of market_scan_app.py: the scan loop over the selected pairs,
    sticker side before slab side, with a check of the stop flag before each
    pair and each side, and the events it emits.

    `fetch_price` is an oracle: `fetch(k, name)` is what the `k`-th call (from
    0) returns for `name`, a price or the message of the exception it raised.
    The stop flag is read through `Stopped`: set by `stop` before the run, or
    seen set by the `p`-th check (`stopSeen(p)`), when another thread sets it
    during the run. */
module Scan {
  import opened Wrappers
  import opened Catalog

  /** The signals of the worker: `progressMessage` (for the pair being
      scanned, and with the text of a failure), `priceUpdated`, `priceFailed`
      and `finished`. */
  datatype Event =
    | ScanningPair(index: int)
    | Status(message: string)
    | PriceUpdated(index: int, isSlab: bool, price: real)
    | PriceFailed(index: int, isSlab: bool, message: string)
    | Finished

  /** Whether the `poll`-th check of the stop flag finds it set. */
  predicate Stopped(stopEvent: bool, stopSeen: nat -> bool, poll: nat) {
    stopEvent || stopSeen(poll)
  }

  /** The name looked up for side `side` of a pair: 1 is the sticker, 2 the slab. */
  function SideName(pair: ItemPair, side: nat): string {
    if side == 2 then pair.slabName else pair.stickerName
  }

  /** The events for one side: its price, or the failure's message followed by
      the failure. */
  function SideEvents(index: int, isSlab: bool, price: Result<real, string>): seq<Event> {
    match price
    case Success(p) => [PriceUpdated(index, isSlab, p)]
    case Failure(message) => [Status(message), PriceFailed(index, isSlab, message)]
  }

  /** The events emitted from a point of the run on: pair `i`, at its stop check
      (`side` 0) or at the check before its sticker (1) or slab (2) side, with
      `poll` checks and `call` price fetches made so far. */
  function ScanFrom(pairs: seq<ItemPair>, fetch: (nat, string) -> Result<real, string>,
                    stopEvent: bool, stopSeen: nat -> bool, i: nat, side: nat, poll: nat, call: nat): seq<Event>
    requires i <= |pairs| && side <= 2 && (side > 0 ==> i < |pairs|)
    decreases |pairs| - i, 2 - side
  {
    if side == 0 then
      if i == |pairs| || Stopped(stopEvent, stopSeen, poll) then [Finished]
      else [ScanningPair(pairs[i].index)] + ScanFrom(pairs, fetch, stopEvent, stopSeen, i, 1, poll + 1, call)
    else if Stopped(stopEvent, stopSeen, poll) then
      ScanFrom(pairs, fetch, stopEvent, stopSeen, i + 1, 0, poll + 1, call)
    else
      var isSlab := side == 2;
      var out := SideEvents(pairs[i].index, isSlab, fetch(call, SideName(pairs[i], side)));
      out + (if side == 1 then ScanFrom(pairs, fetch, stopEvent, stopSeen, i, 2, poll + 1, call + 1)
             else ScanFrom(pairs, fetch, stopEvent, stopSeen, i + 1, 0, poll + 1, call + 1))
  }

  /** The events of a whole run. */
  function ScanAll(pairs: seq<ItemPair>, fetch: (nat, string) -> Result<real, string>,
                   stopEvent: bool, stopSeen: nat -> bool): seq<Event>
  {
    ScanFrom(pairs, fetch, stopEvent, stopSeen, 0, 0, 0, 0)
  }

  /** `finished` is emitted exactly once, as the last event, whether the run
      was stopped or not. */
  lemma {:induction false} FinishedOnceAtEnd(pairs: seq<ItemPair>, fetch: (nat, string) -> Result<real, string>,
                                             stopEvent: bool, stopSeen: nat -> bool, i: nat, side: nat, poll: nat, call: nat)
    requires i <= |pairs| && side <= 2 && (side > 0 ==> i < |pairs|)
    ensures var events := ScanFrom(pairs, fetch, stopEvent, stopSeen, i, side, poll, call);
      |events| > 0 && events[|events| - 1] == Finished &&
      forall k :: 0 <= k < |events| - 1 ==> events[k] != Finished
    decreases |pairs| - i, 2 - side
  {
    if side == 0 {
      if i < |pairs| && !Stopped(stopEvent, stopSeen, poll) {
        FinishedOnceAtEnd(pairs, fetch, stopEvent, stopSeen, i, 1, poll + 1, call);
      }
    } else if Stopped(stopEvent, stopSeen, poll) {
      FinishedOnceAtEnd(pairs, fetch, stopEvent, stopSeen, i + 1, 0, poll + 1, call);
    } else if side == 1 {
      FinishedOnceAtEnd(pairs, fetch, stopEvent, stopSeen, i, 2, poll + 1, call + 1);
    } else {
      FinishedOnceAtEnd(pairs, fetch, stopEvent, stopSeen, i + 1, 0, poll + 1, call + 1);
    }
  }

  /** The sides a list of events reports a price or a failure for, in order. */
  function PricedSides(events: seq<Event>): seq<(int, bool)> {
    if events == [] then []
    else
      var e := events[0];
      (if e.PriceUpdated? || e.PriceFailed? then [(e.index, e.isSlab)] else []) + PricedSides(events[1..])
  }

  lemma {:induction false} PricedSidesAppend(a: seq<Event>, b: seq<Event>)
    ensures PricedSides(a + b) == PricedSides(a) + PricedSides(b)
  {
    if a != [] {
      var e := a[0];
      var head := if e.PriceUpdated? || e.PriceFailed? then [(e.index, e.isSlab)] else [];
      assert (a + b)[0] == e;
      assert (a + b)[1..] == a[1..] + b;
      PricedSidesAppend(a[1..], b);
      assert PricedSides(a + b) == head + PricedSides(a[1..] + b);
      assert PricedSides(a) == head + PricedSides(a[1..]);
    } else {
      assert a + b == b;
    }
  }

  /** The events of one side report exactly that side. */
  lemma SideEventsReportSide(index: int, isSlab: bool, price: Result<real, string>)
    ensures PricedSides(SideEvents(index, isSlab, price)) == [(index, isSlab)]
  {
    var out := SideEvents(index, isSlab, price);
    if price.Failure? {
      assert PricedSides(out) == PricedSides(out[1..]);
      assert out[1..][1..] == [];
    } else {
      assert out[1..] == [];
    }
  }

  /** Every side from a point of the run on: sticker then slab for each pair,
      in the order of the pairs. */
  function SidesFrom(pairs: seq<ItemPair>, i: nat, side: nat): seq<(int, bool)>
    requires i <= |pairs| && side <= 2 && (side > 0 ==> i < |pairs|)
    decreases |pairs| - i, 2 - side
  {
    if side == 0 then (if i == |pairs| then [] else SidesFrom(pairs, i, 1))
    else [(pairs[i].index, side == 2)] + (if side == 1 then SidesFrom(pairs, i, 2) else SidesFrom(pairs, i + 1, 0))
  }

  /** Every pair contributes its two sides. */
  lemma {:induction false} SidesFromLength(pairs: seq<ItemPair>, i: nat)
    requires i <= |pairs|
    ensures |SidesFrom(pairs, i, 0)| == 2 * (|pairs| - i)
    decreases |pairs| - i
  {
    if i < |pairs| {
      assert SidesFrom(pairs, i, 2) == [(pairs[i].index, true)] + SidesFrom(pairs, i + 1, 0);
      assert SidesFrom(pairs, i, 1) == [(pairs[i].index, false)] + SidesFrom(pairs, i, 2);
      SidesFromLength(pairs, i + 1);
    }
  }

  /** When the stop flag is never seen, every side of every pair gets exactly
      one price or failure event, in order, sticker first. */
  lemma {:induction false} UnstoppedScanCoversAllSides(pairs: seq<ItemPair>, fetch: (nat, string) -> Result<real, string>,
                                                       stopSeen: nat -> bool, i: nat, side: nat, poll: nat, call: nat)
    requires i <= |pairs| && side <= 2 && (side > 0 ==> i < |pairs|)
    requires forall p :: !stopSeen(p)
    ensures PricedSides(ScanFrom(pairs, fetch, false, stopSeen, i, side, poll, call)) == SidesFrom(pairs, i, side)
    decreases |pairs| - i, 2 - side
  {
    assert !stopSeen(poll);
    if side == 0 {
      if i < |pairs| {
        var rest := ScanFrom(pairs, fetch, false, stopSeen, i, 1, poll + 1, call);
        UnstoppedScanCoversAllSides(pairs, fetch, stopSeen, i, 1, poll + 1, call);
        PricedSidesAppend([ScanningPair(pairs[i].index)], rest);
        assert PricedSides([ScanningPair(pairs[i].index)]) == [];
      } else {
        assert PricedSides([Finished]) == [];
      }
    } else {
      var isSlab := side == 2;
      var out := SideEvents(pairs[i].index, isSlab, fetch(call, SideName(pairs[i], side)));
      SideEventsReportSide(pairs[i].index, isSlab, fetch(call, SideName(pairs[i], side)));
      var rest := if side == 1 then ScanFrom(pairs, fetch, false, stopSeen, i, 2, poll + 1, call + 1)
                  else ScanFrom(pairs, fetch, false, stopSeen, i + 1, 0, poll + 1, call + 1);
      if side == 1 {
        UnstoppedScanCoversAllSides(pairs, fetch, stopSeen, i, 2, poll + 1, call + 1);
      } else {
        UnstoppedScanCoversAllSides(pairs, fetch, stopSeen, i + 1, 0, poll + 1, call + 1);
      }
      PricedSidesAppend(out, rest);
    }
  }

  /** The stop flag, once seen set, stays set (a `threading.Event` nobody
      clears). */
  ghost predicate Monotone(stopSeen: nat -> bool) {
    forall p, q :: p <= q && stopSeen(p) ==> stopSeen(q)
  }

  /** `a` is an initial part of `b`. */
  predicate IsPrefix(a: seq<(int, bool)>, b: seq<(int, bool)>) {
    |a| <= |b| && a == b[..|a|]
  }

  lemma PrefixCons(x: (int, bool), a: seq<(int, bool)>, b: seq<(int, bool)>)
    requires IsPrefix(a, b)
    ensures IsPrefix([x] + a, [x] + b)
  {
    assert ([x] + b)[..|a| + 1] == [x] + b[..|a|];
  }

  /** A stop seen at one check is seen at every later check. */
  lemma StoppedLater(stopEvent: bool, stopSeen: nat -> bool, poll: nat)
    requires Monotone(stopSeen) && Stopped(stopEvent, stopSeen, poll)
    ensures Stopped(stopEvent, stopSeen, poll + 1)
  {
  }

  /** With a flag that stays set, the sides reported are the first sides of
      the whole order: a stop only cuts the scan short. */
  lemma {:induction false} StoppedScanIsPrefix(pairs: seq<ItemPair>, fetch: (nat, string) -> Result<real, string>,
                                               stopEvent: bool, stopSeen: nat -> bool, i: nat, side: nat, poll: nat, call: nat)
    requires i <= |pairs| && side <= 2 && (side > 0 ==> i < |pairs|)
    requires Monotone(stopSeen)
    ensures IsPrefix(PricedSides(ScanFrom(pairs, fetch, stopEvent, stopSeen, i, side, poll, call)), SidesFrom(pairs, i, side))
    decreases |pairs| - i, 2 - side
  {
    var stopped := Stopped(stopEvent, stopSeen, poll);
    if side == 0 {
      if i < |pairs| && !stopped {
        var rest := ScanFrom(pairs, fetch, stopEvent, stopSeen, i, 1, poll + 1, call);
        StoppedScanIsPrefix(pairs, fetch, stopEvent, stopSeen, i, 1, poll + 1, call);
        PricedSidesAppend([ScanningPair(pairs[i].index)], rest);
        assert PricedSides([ScanningPair(pairs[i].index)]) == [];
      } else {
        assert PricedSides([Finished]) == [];
      }
    } else if stopped {
      StoppedLater(stopEvent, stopSeen, poll);
      assert ScanFrom(pairs, fetch, stopEvent, stopSeen, i + 1, 0, poll + 1, call) == [Finished];
      assert PricedSides([Finished]) == [];
    } else {
      var isSlab := side == 2;
      var out := SideEvents(pairs[i].index, isSlab, fetch(call, SideName(pairs[i], side)));
      SideEventsReportSide(pairs[i].index, isSlab, fetch(call, SideName(pairs[i], side)));
      var rest := if side == 1 then ScanFrom(pairs, fetch, stopEvent, stopSeen, i, 2, poll + 1, call + 1)
                  else ScanFrom(pairs, fetch, stopEvent, stopSeen, i + 1, 0, poll + 1, call + 1);
      var next := if side == 1 then SidesFrom(pairs, i, 2) else SidesFrom(pairs, i + 1, 0);
      if side == 1 {
        StoppedScanIsPrefix(pairs, fetch, stopEvent, stopSeen, i, 2, poll + 1, call + 1);
      } else {
        StoppedScanIsPrefix(pairs, fetch, stopEvent, stopSeen, i + 1, 0, poll + 1, call + 1);
      }
      PricedSidesAppend(out, rest);
      PrefixCons((pairs[i].index, isSlab), PricedSides(rest), next);
    }
  }

  /** A stop requested before the run leaves only `finished`. */
  lemma StoppedBeforeRun(pairs: seq<ItemPair>, fetch: (nat, string) -> Result<real, string>, stopSeen: nat -> bool)
    ensures ScanAll(pairs, fetch, true, stopSeen) == [Finished]
  {
  }

  lemma Append(a: seq<Event>, b: seq<Event>, c: seq<Event>)
    ensures a + (b + c) == (a + b) + c
  {
  }

  class ScanWorker {
    var pairs: seq<ItemPair>
    var stopEvent: bool
    /** The signals emitted so far. */
    var events: seq<Event>

    constructor (pairs: seq<ItemPair>)
      ensures this.pairs == pairs && !stopEvent && events == []
    {
      this.pairs := pairs;
      stopEvent := false;
      events := [];
    }

    /** `stop`. */
    method Stop()
      modifies this`stopEvent
      ensures stopEvent
    {
      stopEvent := true;
    }

    /** `run`. */
    method Run(fetch: (nat, string) -> Result<real, string>, stopSeen: nat -> bool)
      modifies this`events
      ensures events == old(events) + ScanAll(pairs, fetch, stopEvent, stopSeen)
    {
      ghost var whole := old(events) + ScanAll(pairs, fetch, stopEvent, stopSeen);
      var i, poll, call := 0, 0, 0;
      while i < |pairs|
        invariant i <= |pairs|
        invariant events + ScanFrom(pairs, fetch, stopEvent, stopSeen, i, 0, poll, call) == whole
      {
        var stopped := stopEvent || stopSeen(poll);
        poll := poll + 1;
        if stopped {
          break;
        }
        var pair := pairs[i];
        ghost var rest := ScanFrom(pairs, fetch, stopEvent, stopSeen, i, 1, poll, call);
        assert ScanFrom(pairs, fetch, stopEvent, stopSeen, i, 0, poll - 1, call) == [ScanningPair(pair.index)] + rest;
        Append(events, [ScanningPair(pair.index)], rest);
        events := events + [ScanningPair(pair.index)];
        var side := 1;
        while side <= 2
          invariant 1 <= side <= 3
          decreases 3 - side
          invariant side <= 2 ==> events + ScanFrom(pairs, fetch, stopEvent, stopSeen, i, side, poll, call) == whole
          invariant side == 3 ==> events + ScanFrom(pairs, fetch, stopEvent, stopSeen, i + 1, 0, poll, call) == whole
        {
          stopped := stopEvent || stopSeen(poll);
          poll := poll + 1;
          if stopped {
            side := 3;
            break;
          }
          var isSlab := side == 2;
          var name := if isSlab then pair.slabName else pair.stickerName;
          var price := fetch(call, name);
          var out := SideEvents(pair.index, isSlab, price);
          ghost var next := if side == 1 then ScanFrom(pairs, fetch, stopEvent, stopSeen, i, 2, poll, call + 1)
                            else ScanFrom(pairs, fetch, stopEvent, stopSeen, i + 1, 0, poll, call + 1);
          assert ScanFrom(pairs, fetch, stopEvent, stopSeen, i, side, poll - 1, call) == out + next;
          Append(events, out, next);
          call := call + 1;
          events := events + out;
          side := side + 1;
        }
        i := i + 1;
      }
      events := events + [Finished];
    }
  }
}
