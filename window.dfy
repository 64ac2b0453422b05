/**
  The period window of the report generator: an expense belongs to a report
  when its date lies between the window start and `now`, both ends included.
 */
module Window {
  import opened Records

  predicate InWindow(e: Expense, start: Timestamp, now: Timestamp): (r: bool)
    ensures r ==> start <= now
    ensures start <= now && (e.date == start || e.date == now) ==> r
  {
    start <= e.date <= now
  }

  /** The expenses inside the window, in their original order (the `filter` pass). */
  function Filter(s: seq<Expense>, start: Timestamp, now: Timestamp): (r: seq<Expense>)
    ensures |r| <= |s|
    ensures forall e :: e in r <==> e in s && InWindow(e, start, now)
  {
    if s == [] then []
    else
      var init, last := s[..|s| - 1], s[|s| - 1];
      assert s == init + [last];
      Filter(init, start, now) + (if InWindow(last, start, now) then [last] else [])
  }

  /**
    `idx` lists, in strictly increasing order, positions of `s` whose elements
    make up `r`: `r` is a subsequence of `s` and `idx` shows how.
   */
  ghost predicate Embedding(r: seq<Expense>, s: seq<Expense>, idx: seq<nat>)
  {
    && |idx| == |r|
    && (forall k :: 0 <= k < |idx| ==> idx[k] < |s| && r[k] == s[idx[k]])
    && (forall k, l :: 0 <= k < l < |idx| ==> idx[k] < idx[l])
  }

  /** An embedding into `s` is also one into `s + [x]`, and extends by `x` at the new last position. */
  lemma EmbeddingExtend(r: seq<Expense>, s: seq<Expense>, idx: seq<nat>, x: Expense)
    requires Embedding(r, s, idx)
    ensures Embedding(r, s + [x], idx)
    ensures Embedding(r + [x], s + [x], idx + [|s|])
  {
    assert forall k :: 0 <= k < |idx| ==> (s + [x])[idx[k]] == s[idx[k]];
  }

  /** The positions of `s` whose expense lies in the window, in increasing order. */
  ghost function Positions(s: seq<Expense>, start: Timestamp, now: Timestamp): seq<nat>
  {
    if s == [] then []
    else Positions(s[..|s| - 1], start, now) + (if InWindow(s[|s| - 1], start, now) then [|s| - 1] else [])
  }

  /** The positions are in range and are exactly those whose expense lies in the window. */
  lemma {:induction false} PositionsExact(s: seq<Expense>, start: Timestamp, now: Timestamp)
    ensures forall k :: 0 <= k < |Positions(s, start, now)| ==> Positions(s, start, now)[k] < |s|
    ensures forall i :: 0 <= i < |s| ==> (i in Positions(s, start, now) <==> InWindow(s[i], start, now))
  {
    if s != [] {
      var init := s[..|s| - 1];
      PositionsExact(init, start, now);
      assert |init| !in Positions(init, start, now);
      forall i | 0 <= i < |init|
        ensures i in Positions(s, start, now) <==> InWindow(s[i], start, now)
      {
        assert s[i] == init[i];
      }
    }
  }

  /** The filtered list sits in `s` at its positions. */
  lemma {:induction false} PositionsEmbed(s: seq<Expense>, start: Timestamp, now: Timestamp)
    ensures Embedding(Filter(s, start, now), s, Positions(s, start, now))
  {
    if s != [] {
      var init, last := s[..|s| - 1], s[|s| - 1];
      assert s == init + [last];
      PositionsEmbed(init, start, now);
      EmbeddingExtend(Filter(init, start, now), init, Positions(init, start, now), last);
    }
  }

  /**
    The filtered list is the subsequence of `s` made of exactly the positions
    whose expense lies in the window: order is kept and nothing else is taken.
   */
  lemma FilterPositions(s: seq<Expense>, start: Timestamp, now: Timestamp)
    returns (idx: seq<nat>)
    ensures Embedding(Filter(s, start, now), s, idx)
    ensures forall i :: 0 <= i < |s| ==> (i in idx <==> InWindow(s[i], start, now))
  {
    idx := Positions(s, start, now);
    PositionsEmbed(s, start, now);
    PositionsExact(s, start, now);
  }

  /** With no expense in the window the filtered list is empty. */
  lemma NothingInWindow(s: seq<Expense>, start: Timestamp, now: Timestamp)
    requires forall i :: 0 <= i < |s| ==> !InWindow(s[i], start, now)
    ensures Filter(s, start, now) == []
  {
  }
}
