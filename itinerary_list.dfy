/**
 * The itinerary list control (`CAC.Control.ItineraryList`): the list of itineraries the
 * routing backend returned, with duplicates dropped, and the visibility of its container.
 */
module ItineraryList {
  import opened Wrappers
  import opened Json

  /**
   * An itinerary object from the routing backend. `fields` are its own enumerable properties,
   * the ones `_.findWhere` compares; `shown` is the visibility its `show(flag)` method sets.
   */
  class Itinerary {
    const fields: map<string, Value>
    var shown: bool

    constructor (fields: map<string, Value>, shown: bool)
      ensures this.fields == fields && this.shown == shown
    {
      this.fields := fields;
      this.shown := shown;
    }
  }

  /**
   * `_.isMatch(kept, candidate)`: `kept` has every property of `candidate`, with an equal value.
   * Itineraries with the same properties match, and a candidate without properties matches
   * every itinerary.
   */
  predicate Matches(kept: Itinerary, candidate: Itinerary) {
    forall k :: k in candidate.fields ==> k in kept.fields && kept.fields[k] == candidate.fields[k]
  }

  /**
   * `_.findWhere(list, candidate)`: the first entry of `list` that matches `candidate`;
   * `None` stands for the `null` the caller compares the result with.
   */
  function FindWhere(list: seq<Itinerary>, candidate: Itinerary): (r: Option<Itinerary>)
    ensures r.Some? ==> r.value in list && Matches(r.value, candidate)
    ensures r.None? <==> forall i :: 0 <= i < |list| ==> !Matches(list[i], candidate)
  {
    if list == [] then None
    else if Matches(list[0], candidate) then Some(list[0])
    else FindWhere(list[1..], candidate)
  }

  /**
   * The list `setItineraries` has built after its loop has visited `input[..n]`: primed with
   * `input[0]`, then each visited item appended when the lookup over the list so far finds
   * nothing.
   */
  function Scan(input: seq<Itinerary>, n: nat): seq<Itinerary>
    requires n <= |input|
  {
    if n == 0 then (if |input| > 0 then [input[0]] else [])
    else
      var kept := Scan(input, n - 1);
      if FindWhere(kept, input[n - 1]).None? then kept + [input[n - 1]] else kept
  }

  /** The list `setItineraries(input)` stores: led by the first input, and no longer than the input. */
  function Deduplicated(input: seq<Itinerary>): (r: seq<Itinerary>)
    ensures input == [] <==> r == []
    ensures input != [] ==> r[0] == input[0] && |r| <= |input|
  {
    ScanOrigins(input, |input|);
    OrderedIndicesBound(Origins(input, |input|), |input|);
    Scan(input, |input|)
  }

  /** The position in `input` each entry of `Scan(input, n)` was taken from. */
  ghost function Origins(input: seq<Itinerary>, n: nat): seq<nat>
    requires n <= |input|
  {
    if n == 0 then (if |input| > 0 then [0] else [])
    else
      var kept := Scan(input, n - 1);
      if FindWhere(kept, input[n - 1]).None? then Origins(input, n - 1) + [n - 1] else Origins(input, n - 1)
  }

  /** Each loop step keeps the list built so far and at most appends the visited item. */
  lemma ScanGrows(input: seq<Itinerary>, n: nat)
    requires 0 < n <= |input|
    ensures Scan(input, n) == Scan(input, n - 1) || Scan(input, n) == Scan(input, n - 1) + [input[n - 1]]
    ensures Scan(input, n - 1) <= Scan(input, n)
  {
  }

  /**
   * A match needs every property of the candidate; itineraries with the same properties
   * match, and a candidate without properties matches every itinerary.
   */
  lemma MatchesProperties(kept: Itinerary, candidate: Itinerary)
    ensures Matches(kept, candidate) ==> candidate.fields.Keys <= kept.fields.Keys
    ensures kept.fields == candidate.fields ==> Matches(kept, candidate)
    ensures candidate.fields == map[] ==> Matches(kept, candidate)
  {
  }

  /** An itinerary always matches itself. */
  lemma MatchesItself(x: Itinerary)
    ensures Matches(x, x)
  {
  }

  /**
   * The scan keeps the first input item first, takes every entry from a strictly later input
   * position than the one before it, and never appends an item that an entry already kept
   * matches.
   */
  lemma ScanShape(input: seq<Itinerary>, n: nat)
    requires n <= |input|
    ensures var kept, from := Scan(input, n), Origins(input, n);
            && |from| == |kept|
            && (|input| > 0 <==> |kept| > 0)
            && (|input| > 0 ==> kept[0] == input[0])
            && (forall j :: 0 <= j < |kept| ==> from[j] < |input| && kept[j] == input[from[j]])
            && (forall j :: 0 <= j < |kept| ==> from[j] < if n == 0 then 1 else n)
            && (forall a, b :: 0 <= a < b < |kept| ==> from[a] < from[b])
            && (forall a, b :: 0 <= a < b < |kept| ==> !Matches(kept[a], kept[b]))
  {
    ScanOrigins(input, n);
    ScanDistinct(input, n);
  }

  /** Each kept entry is the input item at its origin, and the origins increase. */
  lemma {:induction false} ScanOrigins(input: seq<Itinerary>, n: nat)
    requires n <= |input|
    ensures var kept, from := Scan(input, n), Origins(input, n);
            && |from| == |kept|
            && (|input| > 0 <==> |kept| > 0)
            && (|input| > 0 ==> kept[0] == input[0])
            && (forall j :: 0 <= j < |kept| ==> from[j] < |input| && kept[j] == input[from[j]])
            && (forall j :: 0 <= j < |kept| ==> from[j] < if n == 0 then 1 else n)
            && (forall a, b :: 0 <= a < b < |kept| ==> from[a] < from[b])
  {
    if n > 0 {
      ScanOrigins(input, n - 1);
    }
  }

  /** No kept entry matches a later one. */
  lemma {:induction false} ScanDistinct(input: seq<Itinerary>, n: nat)
    requires n <= |input|
    ensures forall a, b :: 0 <= a < b < |Scan(input, n)| ==> !Matches(Scan(input, n)[a], Scan(input, n)[b])
  {
    if n > 0 {
      ScanDistinct(input, n - 1);
      var kept := Scan(input, n - 1);
      if n == 1 {
        MatchesItself(input[0]);
        assert kept == [input[0]];
      } else if FindWhere(kept, input[n - 1]).None? {
        var kept' := kept + [input[n - 1]];
        assert Scan(input, n) == kept';
        forall a, b | 0 <= a < b < |kept'|
          ensures !Matches(kept'[a], kept'[b])
        {
          assert kept'[a] == kept[a];
          if b < |kept| {
            assert kept'[b] == kept[b];
          } else {
            assert kept'[b] == input[n - 1];
          }
        }
      } else {
        assert Scan(input, n) == kept;
      }
    }
  }

  /** Every input item is matched by some kept entry. */
  lemma {:induction false} ScanCovers(input: seq<Itinerary>, n: nat)
    requires n <= |input|
    ensures forall i :: 0 <= i < n ==> FindWhere(Scan(input, n), input[i]).Some?
  {
    if n > 0 {
      ScanCovers(input, n - 1);
      var kept := Scan(input, n - 1);
      var kept' := Scan(input, n);
      assert kept' == kept || kept' == kept + [input[n - 1]];
      forall i | 0 <= i < n
        ensures FindWhere(kept', input[i]).Some?
      {
        if i == n - 1 && kept' != kept {
          MatchesItself(input[i]);
          assert Matches(kept'[|kept'| - 1], input[i]);
        } else if i == n - 1 {
        } else {
          var j :| 0 <= j < |kept| && Matches(kept[j], input[i]);
          assert kept'[j] == kept[j];
        }
      }
    }
  }

  /**
   * What `setItineraries(input)` stores: empty for empty input, otherwise led by `input[0]`;
   * an order-preserving subsequence of the input, no longer than it, in which no entry matches
   * a later one, and which matches every input item.
   */
  lemma DeduplicatedProperties(input: seq<Itinerary>)
    ensures var kept := Deduplicated(input);
            && |kept| <= |input|
            && (input == [] <==> kept == [])
            && (input != [] ==> kept[0] == input[0])
            && (forall a, b :: 0 <= a < b < |kept| ==> !Matches(kept[a], kept[b]))
            && (forall i :: 0 <= i < |input| ==> FindWhere(kept, input[i]).Some?)
    ensures IsOrderedSubsequence(Deduplicated(input), input)
  {
    ScanShape(input, |input|);
    ScanCovers(input, |input|);
    var kept, from := Deduplicated(input), Origins(input, |input|);
    OrderedIndicesBound(from, |input|);
    assert IsOrderedSubsequenceWith(kept, input, from);
  }

  /** `kept` is `input` with some items left out, via the positions `from`. */
  ghost predicate IsOrderedSubsequenceWith(kept: seq<Itinerary>, input: seq<Itinerary>, from: seq<nat>) {
    && |from| == |kept|
    && (forall j :: 0 <= j < |kept| ==> from[j] < |input| && kept[j] == input[from[j]])
    && (forall a, b :: 0 <= a < b < |kept| ==> from[a] < from[b])
  }

  ghost predicate IsOrderedSubsequence(kept: seq<Itinerary>, input: seq<Itinerary>) {
    exists from :: IsOrderedSubsequenceWith(kept, input, from)
  }

  /** Strictly increasing positions below `n` are at most `n` many. */
  lemma {:induction false} OrderedIndicesBound(from: seq<nat>, n: nat)
    requires forall j :: 0 <= j < |from| ==> from[j] < n
    requires forall a, b :: 0 <= a < b < |from| ==> from[a] < from[b]
    ensures |from| <= n
  {
    if |from| > 0 {
      var last := from[|from| - 1];
      OrderedIndicesBound(from[..|from| - 1], last);
    }
  }

  /** The itinerary list control. */
  class Control {
    var itineraries: seq<Itinerary>
    /** Whether the container carries the `hidden` class. */
    var hidden: bool

    constructor (hidden: bool)
      ensures itineraries == [] && this.hidden == hidden
    {
      itineraries := [];
      this.hidden := hidden;
    }

    /** `setItineraries(newItineraries)`: the previous list is discarded. */
    method SetItineraries(newItineraries: seq<Itinerary>)
      modifies this
      ensures itineraries == Deduplicated(newItineraries)
      ensures hidden == old(hidden)
    {
      itineraries := [];
      if |newItineraries| > 0 {
        itineraries := itineraries + [newItineraries[0]];
      }
      var i := 0;
      while i < |newItineraries|
        invariant 0 <= i <= |newItineraries|
        invariant itineraries == Scan(newItineraries, i)
        invariant hidden == old(hidden)
      {
        var itinerary := newItineraries[i];
        if FindWhere(itineraries, itinerary) == None {
          itineraries := itineraries + [itinerary];
        }
        i := i + 1;
      }
    }

    /** `getItineraryById(id)`: the entry at position `id`, or `undefined` (None) outside the list. */
    function GetItineraryById(id: int): (r: Option<Itinerary>)
      reads this
      ensures r.Some? <==> 0 <= id < |itineraries|
      ensures r.Some? ==> r.value == itineraries[id]
    {
      if 0 <= id < |itineraries| then Some(itineraries[id]) else None
    }

    /** `showItineraries(flag)`: calls `show(flag)` on every listed itinerary. */
    method ShowItineraries(flag: bool)
      modifies set x | x in itineraries
      ensures forall x :: x in itineraries ==> x.shown == flag
    {
      var i := 0;
      while i < |itineraries|
        invariant 0 <= i <= |itineraries|
        invariant forall j :: 0 <= j < i ==> itineraries[j].shown == flag
      {
        itineraries[i].shown := flag;
        i := i + 1;
      }
    }

    method Show()
      modifies this
      ensures !hidden && itineraries == old(itineraries)
    {
      hidden := false;
    }

    method Hide()
      modifies this
      ensures hidden && itineraries == old(itineraries)
    {
      hidden := true;
    }

    method Toggle()
      modifies this
      ensures hidden == !old(hidden) && itineraries == old(itineraries)
    {
      if hidden {
        Show();
      } else {
        Hide();
      }
    }
  }

  // ---------------------------------------------------------------------------------------
  // The `=== null` test as written
  // ---------------------------------------------------------------------------------------

  /**
   * What `_.findWhere` evaluates to in lodash: the matching itinerary object, or `undefined`
   * when nothing matches.
   */
  datatype Found = FoundObject(itinerary: Itinerary) | NothingFound

  function FindWhereAsWritten(list: seq<Itinerary>, candidate: Itinerary): (r: Found)
    ensures r.NothingFound? <==> FindWhere(list, candidate).None?
  {
    match FindWhere(list, candidate)
    case Some(x) => FoundObject(x)
    case None => NothingFound
  }

  /** `found === null`: neither an object nor `undefined` is strictly equal to `null`. */
  predicate IsNull(found: Found) {
    match found
    case FoundObject(_) => false
    case NothingFound => false
  }

  /** The loop of `setItineraries` as written, with the lookup compared to `null`. */
  function ScanAsWritten(input: seq<Itinerary>, n: nat): seq<Itinerary>
    requires n <= |input|
  {
    if n == 0 then (if |input| > 0 then [input[0]] else [])
    else
      var kept := ScanAsWritten(input, n - 1);
      if IsNull(FindWhereAsWritten(kept, input[n - 1])) then kept + [input[n - 1]] else kept
  }

  /** As written, the comparison never holds, so only the priming item is ever kept. */
  lemma {:induction false} ScanAsWrittenKeepsFirst(input: seq<Itinerary>, n: nat)
    requires n <= |input|
    ensures ScanAsWritten(input, n) == if |input| > 0 then [input[0]] else []
  {
    if n > 0 {
      ScanAsWrittenKeepsFirst(input, n - 1);
    }
  }

  /**
   * Two itineraries that do not match: as written the second is dropped, while the intended
   * deduplication keeps both.
   */
  lemma AsWrittenDropsDistinct(a: Itinerary, b: Itinerary)
    requires !Matches(a, b)
    ensures ScanAsWritten([a, b], 2) == [a]
    ensures Deduplicated([a, b]) == [a, b]
  {
    ScanAsWrittenKeepsFirst([a, b], 2);
    assert Scan([a, b], 1) == [a];
    assert FindWhere([a], b).None?;
  }
}
