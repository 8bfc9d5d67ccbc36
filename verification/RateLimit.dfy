/** The fixed-window limiter of one socket: what it accepts over any sequence of calls. */
module RateLimit {
  import opened Prelude

  const WINDOW_MS: int := 60_000
  const MAX_MESSAGES: nat := 60

  datatype Entry = Entry(count: nat, windowStart: int)

  predicate Resets(entry: Option<Entry>, now: int) {
    entry.None? || now - entry.value.windowStart > WINDOW_MS
  }

  /** A refused call is counted too. */
  function NextEntry(entry: Option<Entry>, now: int): Entry {
    if Resets(entry, now) then Entry(1, now) else entry.value.(count := entry.value.count + 1)
  }

  predicate Allows(entry: Option<Entry>, now: int) {
    Resets(entry, now) || entry.value.count + 1 <= MAX_MESSAGES
  }

  // ----- one socket over time -----

  predicate NonDecreasing(times: seq<int>) {
    forall i, j :: 0 <= i <= j < |times| ==> times[i] <= times[j]
  }

  /** The stored entry after the calls. */
  function EntryAfter(times: seq<int>): Option<Entry> {
    if times == [] then None
    else Some(NextEntry(EntryAfter(times[..|times| - 1]), times[|times| - 1]))
  }

  predicate Accepted(times: seq<int>, i: nat)
    requires i < |times|
  {
    Allows(EntryAfter(times[..i]), times[i])
  }

  /** How many of the calls from `a` up to `b` are accepted. */
  function AcceptedCount(times: seq<int>, a: nat, b: nat): nat
    requires a <= b <= |times|
  {
    if a == b then 0 else AcceptedCount(times, a, b - 1) + if Accepted(times, b - 1) then 1 else 0
  }

  // ----- windows -----

  /** The call that opened the window of call `i`. */
  function Opener(times: seq<int>, i: nat): (s: nat)
    requires i < |times|
    ensures s <= i
  {
    if i == 0 then 0
    else
      var s := Opener(times, i - 1);
      if times[i] - times[s] > 60_000 then i else s
  }

  lemma {:induction false} OpenerOpensItself(times: seq<int>, i: nat)
    requires i < |times|
    ensures Opener(times, Opener(times, i)) == Opener(times, i)
  {
    if i > 0 { OpenerOpensItself(times, i - 1); }
  }

  lemma {:induction false} SameWindow(times: seq<int>, i: nat, j: nat)
    requires j < |times| && Opener(times, j) <= i <= j
    ensures Opener(times, i) == Opener(times, j)
    decreases j
  {
    if i < j { SameWindow(times, i, j - 1); }
  }

  /** What is stored is the position within the window and the opener's time. */
  lemma {:induction false} EntryTracksWindow(times: seq<int>, i: nat)
    requires i < |times|
    ensures EntryAfter(times[..i + 1]) == Some(Entry(i - Opener(times, i) + 1, times[Opener(times, i)]))
  {
    assert times[..i + 1][..i] == times[..i];
    if i > 0 { EntryTracksWindow(times, i - 1); }
  }

  /** A call is accepted exactly when it is among the first 60 of its window. */
  lemma {:induction false} AcceptedIff(times: seq<int>, i: nat)
    requires i < |times|
    ensures Accepted(times, i) <==> i - Opener(times, i) < 60
  {
    if i > 0 { EntryTracksWindow(times, i - 1); }
  }

  /** Within one window the count is exact: what is left of its first 60 calls. */
  lemma {:induction false} CountInWindow(times: seq<int>, s: nat, a: nat, b: nat)
    requires s <= a <= b <= |times|
    requires forall i :: a <= i < b ==> Opener(times, i) == s
    ensures AcceptedCount(times, a, b) ==
      if b <= s + 60 then b - a else if a >= s + 60 then 0 else s + 60 - a
    decreases b - a
  {
    if a < b {
      CountInWindow(times, s, a, b - 1);
      AcceptedIff(times, b - 1);
    }
  }

  /** A stretch within one window has at most 60 accepted calls, and fewer when the opener comes before it. */
  lemma {:induction false} UpToOpener(times: seq<int>, a: nat, b: nat)
    requires a < b <= |times| && Opener(times, b - 1) <= a
    ensures AcceptedCount(times, a, b) <= 60
    ensures Opener(times, b - 1) < a ==> AcceptedCount(times, a, b) < 60
  {
    var s := Opener(times, b - 1);
    forall i | a <= i < b ensures Opener(times, i) == s { SameWindow(times, i, b - 1); }
    CountInWindow(times, s, a, b);
  }

  lemma {:induction false} CountSplits(times: seq<int>, a: nat, m: nat, b: nat)
    requires a <= m <= b <= |times|
    ensures AcceptedCount(times, a, b) == AcceptedCount(times, a, m) + AcceptedCount(times, m, b)
    decreases b
  {
    if m < b { CountSplits(times, a, m, b - 1); }
  }

  // ----- any span of one window's length -----

  /**
   No span of 60000 ms contains more than 119 accepted calls, for call sequences of any
   length: of two windows in the span, the first has its opening call outside.
   */
  lemma {:induction false} SpanBound(times: seq<int>, a: nat, b: nat)
    requires NonDecreasing(times) && a < b <= |times| && times[b - 1] - times[a] <= 60_000
    ensures AcceptedCount(times, a, b) <= 119
  {
    var last := Opener(times, b - 1);
    if last <= a {
      UpToOpener(times, a, b);
    } else {
      OpenerOpensItself(times, b - 1);
      assert times[last] - times[Opener(times, last - 1)] > 60_000;
      CountSplits(times, a, last, b);
      UpToOpener(times, a, last);
      UpToOpener(times, last, b);
    }
  }

  function Min(a: int, b: int): int {
    if a <= b then a else b
  }

  /** How many calls from `a` on are left of the 60 of the window opened by `s`, if it went on for ever. */
  function LeftOf(s: nat, a: nat): nat {
    if s + 60 <= a then 0 else s + 60 - a
  }

  /**
   How many calls of a span are accepted: what is left of the first window, and where a second
   one opens in the span, its first 60.
   */
  function SpanCount(times: seq<int>, a: nat, b: nat): int
    requires a < b <= |times|
  {
    var first, last := Opener(times, a), Opener(times, b - 1);
    if last <= a then Min(b - a, LeftOf(last, a))
    else Min(last - a, LeftOf(first, a)) + Min(b - last, 60)
  }

  lemma {:induction false} StretchCount(times: seq<int>, a: nat, b: nat)
    requires a < b <= |times| && Opener(times, b - 1) <= a
    ensures AcceptedCount(times, a, b) == Min(b - a, LeftOf(Opener(times, b - 1), a))
  {
    var s := Opener(times, b - 1);
    forall i | a <= i < b ensures Opener(times, i) == s { SameWindow(times, i, b - 1); }
    CountInWindow(times, s, a, b);
  }

  lemma {:induction false} OpenersFarApart(times: seq<int>, i: nat)
    requires 0 < i < |times| && Opener(times, i) == i
    ensures times[i] - times[Opener(times, i - 1)] > 60_000
  {
  }

  /** Where the last call's window opens inside the span, it is the only one to do so. */
  lemma {:induction false} TwoWindows(times: seq<int>, a: nat, b: nat)
    requires NonDecreasing(times) && a < b <= |times| && times[b - 1] - times[a] <= 60_000
    requires a < Opener(times, b - 1)
    ensures var last := Opener(times, b - 1);
      Opener(times, last) == last && Opener(times, last - 1) <= a && Opener(times, last - 1) == Opener(times, a)
  {
    var last := Opener(times, b - 1);
    OpenerOpensItself(times, b - 1);
    OpenersFarApart(times, last);
    assert times[last] - times[a] <= 60_000;
    SameWindow(times, a, last - 1);
  }

  /** The exact count for every span of at most 60000 ms. */
  lemma {:induction false} SpanCountExact(times: seq<int>, a: nat, b: nat)
    requires NonDecreasing(times) && a < b <= |times| && times[b - 1] - times[a] <= 60_000
    ensures AcceptedCount(times, a, b) == SpanCount(times, a, b)
  {
    var last := Opener(times, b - 1);
    if last <= a {
      StretchCount(times, a, b);
    } else {
      TwoWindows(times, a, b);
      CountSplits(times, a, last, b);
      StretchCount(times, a, last);
      StretchCount(times, last, b);
    }
  }

  /**
   The announced bound of 60 messages in 60 seconds holds for a span exactly when no second
   window opens in it, or what the two windows accept of it comes to no more.
   */
  lemma {:induction false} AnnouncedBoundIff(times: seq<int>, a: nat, b: nat)
    requires NonDecreasing(times) && a < b <= |times| && times[b - 1] - times[a] <= 60_000
    ensures var first, last := Opener(times, a), Opener(times, b - 1);
      AcceptedCount(times, a, b) <= 60 <==>
        last <= a || Min(last - a, LeftOf(first, a)) + Min(b - last, 60) <= 60
  {
    SpanCountExact(times, a, b);
  }

  /** A window lasts for at most 60000 ms after its opener: later calls open another and are accepted. */
  lemma {:induction false} NeverLockedOut(times: seq<int>, i: nat, j: nat)
    requires NonDecreasing(times) && j < i < |times| && times[i] - times[j] > 60_000
    ensures Opener(times, i) > j
    ensures times[i] - times[Opener(times, i)] <= 60_000
    ensures Opener(times, i) == i ==> Accepted(times, i)
  {
    OpenerIsRecent(times, i);
    AcceptedIff(times, i);
  }

  lemma {:induction false} OpenerIsRecent(times: seq<int>, i: nat)
    requires i < |times|
    ensures times[i] - times[Opener(times, i)] <= 60_000
  {
  }

  // ----- the bound is reached -----

  /** One call, 59 at the last moment of its window, 60 a millisecond later. */
  const BURST: seq<int> := [0] + seq(59, _ => 60_000) + seq(60, _ => 60_000 + 1)

  lemma {:induction false} BurstOpeners(i: nat)
    requires i < |BURST|
    ensures Opener(BURST, i) == if i < 60 then 0 else 60
  {
    if i > 0 { BurstOpeners(i - 1); }
  }

  lemma SpanBoundIsTight()
    ensures NonDecreasing(BURST) && |BURST| == 120 && BURST[119] - BURST[1] <= 60_000
    ensures AcceptedCount(BURST, 1, 120) == 119
  {
    forall i: nat | i < 120 ensures Opener(BURST, i) == if i < 60 then 0 else 60 { BurstOpeners(i); }
    CountInWindow(BURST, 0, 1, 60);
    CountInWindow(BURST, 60, 60, 120);
    CountSplits(BURST, 1, 60, 120);
  }
}
