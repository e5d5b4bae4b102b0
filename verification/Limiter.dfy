/**
 The per-source token bucket. Idle sources are evicted, and a full table refuses
 new ones; time is a real number of seconds.
 */
module Limiter {
  import opened Wrappers

  type Address = nat

  datatype Source = Source(tokens: real, refill: real, last: real)

  datatype Request = Request(source: Address, now: real)

  const MAX_SOURCES: nat := 1024
  const SOURCE_IDLE: real := 600.0
  const BURST: real := 6.0

  function Min(a: real, b: real): (x: real) { if a <= b then a else b }

  function Max(a: real, b: real): (x: real) { if a >= b then a else b }

  /** A clock that went back counts as no time at all. */
  function Elapsed(now: real, since: real): (x: real) { Max(now - since, 0.0) }

  function Retained(entries: map<Address, Source>, now: real): (kept: map<Address, Source>) {
    map a | a in entries && Elapsed(now, entries[a].last) < SOURCE_IDLE :: entries[a]
  }

  function Refilled(s: Source, now: real): (source: Source) {
    Source(Min(s.tokens + Elapsed(now, s.refill) / 10.0, BURST), Max(now, s.refill), Max(now, s.last))
  }

  predicate Full(entries: map<Address, Source>, r: Request) {
    r.source !in Retained(entries, r.now) && |Retained(entries, r.now)| >= MAX_SOURCES
  }

  /** The bucket a request draws from: its own, or a new full one. */
  function Bucket(entries: map<Address, Source>, r: Request): (source: Source) {
    Refilled(if r.source in entries then entries[r.source] else Source(BURST, r.now, r.now), r.now)
  }

  function Drawn(s: Source): (source: Source) { if s.tokens >= 1.0 then s.(tokens := s.tokens - 1.0) else s }

  predicate Answer(entries: map<Address, Source>, r: Request) {
    !Full(entries, r) && Bucket(Retained(entries, r.now), r).tokens >= 1.0
  }

  function After(entries: map<Address, Source>, r: Request): (after: map<Address, Source>) {
    var kept := Retained(entries, r.now);
    if Full(entries, r) then kept else kept[r.source := Drawn(Bucket(kept, r))]
  }

  predicate ValidSource(s: Source) { 0.0 <= s.tokens <= BURST && s.refill == s.last }

  predicate ValidEntries(entries: map<Address, Source>) {
    |entries| <= MAX_SOURCES && forall a :: a in entries ==> ValidSource(entries[a])
  }

  class SourceLimiter {
    var entries: map<Address, Source>

    ghost predicate Valid()
      reads this
    {
      ValidEntries(entries)
    }

    constructor ()
      ensures Valid() && entries == map[]
    {
      entries := map[];
    }

    method Allow(source: Address, now: real) returns (allowed: bool)
      requires Valid()
      modifies this
      ensures Valid()
      ensures allowed == Answer(old(entries), Request(source, now))
      ensures entries == After(old(entries), Request(source, now))
    {
      hide ValidEntries, ValidSource;
      ghost var r := Request(source, now);
      AfterIsValid(entries, r);
      entries := map a | a in entries && Elapsed(now, entries[a].last) < SOURCE_IDLE :: entries[a];
      if source !in entries && |entries| >= MAX_SOURCES {
        assert entries == After(old(entries), r);
        return false;
      }
      if source !in entries {
        entries := entries[source := Source(BURST, now, now)];
      }
      var s := entries[source];
      var tokens := Min(s.tokens + Elapsed(now, s.refill) / 10.0, BURST);
      var refill := Max(now, s.refill);
      var last := Max(now, s.last);
      allowed := tokens >= 1.0;
      if allowed {
        tokens := tokens - 1.0;
      }
      entries := entries[source := Source(tokens, refill, last)];
      assert entries == After(old(entries), r);
    }
  }

  // ----- Bounds -------------------------------------------------------------------

  lemma RetainedIsSmaller(entries: map<Address, Source>, now: real)
    ensures |Retained(entries, now)| <= |entries|
  {
    var kept := Retained(entries, now);
    assert kept.Keys <= entries.Keys;
    SubsetSize(kept.Keys, entries.Keys);
    assert |kept| == |kept.Keys| && |entries| == |entries.Keys|;
  }

  /** Whatever the clock does, no bucket overflows and no table does. */
  lemma AfterIsValid(entries: map<Address, Source>, r: Request)
    requires ValidEntries(entries)
    ensures ValidEntries(After(entries, r))
  {
    RetainedIsSmaller(entries, r.now);
    var kept := Retained(entries, r.now);
    var s := Bucket(kept, r);
    assert ValidSource(Drawn(s));
    if !Full(entries, r) {
      var next := After(entries, r);
      assert next.Keys == kept.Keys + {r.source};
      assert |next| == |next.Keys| && |kept| == |kept.Keys|;
    }
  }

  // ----- Histories ----------------------------------------------------------------

  function Entries(requests: seq<Request>): (entries: map<Address, Source>) {
    if requests == [] then map[]
    else After(Entries(requests[..|requests| - 1]), requests[|requests| - 1])
  }

  /** The plain bucket: nothing is ever evicted, and only capacity refusals are not seen. */
  function Reference(requests: seq<Request>): (entries: map<Address, Source>) {
    if requests == [] then map[]
    else
      var before, r := requests[..|requests| - 1], requests[|requests| - 1];
      if Full(Entries(before), r) then Reference(before)
      else Reference(before)[r.source := Drawn(Bucket(Reference(before), r))]
  }

  predicate Nondecreasing(requests: seq<Request>) {
    forall i, j :: 0 <= i < j < |requests| ==> requests[i].now <= requests[j].now
  }

  /** Evicted buckets are exactly those that have since filled up again. */
  predicate Agree(entries: map<Address, Source>, reference: map<Address, Source>, now: real) {
    && (forall a :: a in entries ==> a in reference && entries[a] == reference[a])
    && (forall a :: a in reference ==> ValidSource(reference[a]) && reference[a].last <= now)
    && (forall a :: a in reference && a !in entries ==> now - reference[a].last >= SOURCE_IDLE)
  }

  lemma AgreeStep(entries: map<Address, Source>, reference: map<Address, Source>, was: real, r: Request)
    requires Agree(entries, reference, was) && was <= r.now
    ensures !Full(entries, r) ==>
      && Bucket(Retained(entries, r.now), r) == Bucket(reference, r)
      && Agree(After(entries, r), reference[r.source := Drawn(Bucket(reference, r))], r.now)
    ensures Full(entries, r) ==> Agree(After(entries, r), reference, r.now)
  {
  }

  lemma {:induction false} HistoriesAgree(requests: seq<Request>, now: real)
    requires Nondecreasing(requests)
    requires forall i :: 0 <= i < |requests| ==> requests[i].now <= now
    ensures Agree(Entries(requests), Reference(requests), now)
  {
    if requests != [] {
      var before, r := requests[..|requests| - 1], requests[|requests| - 1];
      HistoriesAgree(before, r.now);
      AgreeStep(Entries(before), Reference(before), r.now, r);
      hide After, Bucket, Full;
      assert Agree(Entries(requests), Reference(requests), r.now);
    }
  }

  /**
   Eviction never changes an answer: apart from capacity refusals, every request
   gets what a bucket that remembers every source for ever would answer.
   */
  lemma EvictionIsInvisible(requests: seq<Request>, r: Request)
    requires Nondecreasing(requests + [r])
    ensures Answer(Entries(requests), r) ==
      (!Full(Entries(requests), r) && Bucket(Reference(requests), r).tokens >= 1.0)
  {
    assert forall i :: 0 <= i < |requests| ==> (requests + [r])[i] == requests[i];
    assert (requests + [r])[|requests|] == r;
    HistoriesAgree(requests, r.now);
    AgreeStep(Entries(requests), Reference(requests), r.now, r);
    hide After;
  }

  // ----- Rate ---------------------------------------------------------------------

  /** What a source could draw at a time, whether or not it is remembered. */
  function Level(entries: map<Address, Source>, a: Address, now: real): (x: real) {
    if a in entries then Refilled(entries[a], now).tokens else BURST
  }

  function Allowed(requests: seq<Request>, a: Address, from: nat): (n: nat)
    requires from <= |requests|
    decreases |requests|
  {
    if |requests| == from then 0
    else
      var before, r := requests[..|requests| - 1], requests[|requests| - 1];
      Allowed(before, a, from) + (if r.source == a && Answer(Entries(before), r) then 1 else 0)
  }

  lemma LevelStep(entries: map<Address, Source>, r: Request, a: Address, now: real)
    requires ValidEntries(entries) && r.now <= now
    requires forall b :: b in entries ==> entries[b].last <= r.now
    ensures Level(After(entries, r), a, now) <=
      Level(entries, a, r.now) - (if r.source == a && Answer(entries, r) then 1.0 else 0.0) + (now - r.now) / 10.0
    ensures Level(After(entries, r), a, now) >= 0.0
    ensures forall b :: b in After(entries, r) ==> After(entries, r)[b].last <= now
  {
    AfterIsValid(entries, r);
    var kept := Retained(entries, r.now);
    if a in entries && a !in kept {
      assert entries[a].refill == entries[a].last;
      assert Level(entries, a, r.now) == BURST;
    }
  }

  /** The source's level bounds what it was allowed since the window opened. */
  lemma {:induction false} WindowLevel(requests: seq<Request>, a: Address, from: nat, now: real)
    requires Nondecreasing(requests) && from < |requests|
    requires forall i :: 0 <= i < |requests| ==> requests[i].now <= now
    ensures ValidEntries(Entries(requests))
    ensures forall b :: b in Entries(requests) ==> Entries(requests)[b].last <= now
    ensures 0.0 <= Level(Entries(requests), a, now)
    ensures Allowed(requests, a, from) as real + Level(Entries(requests), a, now)
            <= BURST + (now - requests[from].now) / 10.0
    decreases |requests|
  {
    var before, r := requests[..|requests| - 1], requests[|requests| - 1];
    EntriesValid(before, r.now);
    LevelStep(Entries(before), r, a, now);
    EntriesValid(requests, now);
    if |before| > from {
      WindowLevel(before, a, from, r.now);
      hide After, Answer, Level;
    } else {
      assert Allowed(before, a, from) == 0;
      LevelCapped(Entries(before), a, r.now);
      hide After, Answer, Level;
    }
  }

  lemma LevelCapped(entries: map<Address, Source>, a: Address, now: real)
    ensures Level(entries, a, now) <= BURST
  {
  }

  lemma {:induction false} EntriesValid(requests: seq<Request>, now: real)
    requires Nondecreasing(requests)
    requires forall i :: 0 <= i < |requests| ==> requests[i].now <= now
    ensures ValidEntries(Entries(requests))
    ensures forall b :: b in Entries(requests) ==> Entries(requests)[b].last <= now
  {
    if requests != [] {
      var before, r := requests[..|requests| - 1], requests[|requests| - 1];
      EntriesValid(before, r.now);
      AfterIsValid(Entries(before), r);
      LevelStep(Entries(before), r, 0, now);
      hide After, ValidEntries;
    }
  }

  /** In any window of W seconds a source is allowed at most 6 + W/10 requests. */
  lemma WindowBound(requests: seq<Request>, a: Address, from: nat)
    requires Nondecreasing(requests) && from < |requests|
    ensures Allowed(requests, a, from) as real
            <= BURST + (requests[|requests| - 1].now - requests[from].now) / 10.0
  {
    WindowLevel(requests, a, from, requests[|requests| - 1].now);
  }

  // ----- What a source is sure to get -----------------------------------------------

  /** Those that asked for something within the last ten minutes. */
  function Active(entries: map<Address, Source>, now: real): (sources: set<Address>) {
    set a | a in entries && now - entries[a].last < 600.0
  }

  /**
   A request is refused exactly if 1024 other sources were active within ten minutes and its own
   was not, or if its own level is below one.
   */
  lemma RefusedExactly(entries: map<Address, Source>, r: Request)
    requires ValidEntries(entries)
    ensures !Answer(entries, r) <==>
      || (r.source !in Active(entries, r.now) && |Active(entries, r.now)| >= 1024)
      || Level(entries, r.source, r.now) < 1.0
  {
    var kept := Retained(entries, r.now);
    assert kept.Keys == Active(entries, r.now);
    assert |kept| == |kept.Keys|;
    if r.source in entries && r.source !in kept {
      assert entries[r.source].refill == entries[r.source].last;
    }
  }

  /** A level loses one with every request allowed and gains one every ten seconds, up to six. */
  lemma LevelExact(entries: map<Address, Source>, r: Request, a: Address, now: real)
    requires ValidEntries(entries) && r.now <= now
    requires forall b :: b in entries ==> entries[b].last <= r.now
    ensures Level(After(entries, r), a, now) ==
      Min(6.0, Level(entries, a, r.now) - (if r.source == a && Answer(entries, r) then 1.0 else 0.0)
               + (now - r.now) / 10.0)
  {
    var kept := Retained(entries, r.now);
    if a in entries && a !in kept {
      assert entries[a].refill == entries[a].last;
      assert Level(entries, a, r.now) == BURST;
    }
  }

  /** A source's level misses six by no more than it was ever allowed. */
  lemma {:induction false} LevelFloor(requests: seq<Request>, a: Address, now: real)
    requires Nondecreasing(requests)
    requires forall i :: 0 <= i < |requests| ==> requests[i].now <= now
    ensures Level(Entries(requests), a, now) >= 6.0 - Allowed(requests, a, 0) as real
    ensures Level(Entries(requests), a, now) >= 0.0
  {
    if requests != [] {
      var before, r := requests[..|requests| - 1], requests[|requests| - 1];
      EntriesValid(before, r.now);
      LevelFloor(before, a, r.now);
      LevelExact(Entries(before), r, a, now);
      LevelStep(Entries(before), r, a, now);
      hide After, Answer, Level;
    }
  }

  /** The first six requests of a source are allowed, whatever their times, as long as the table has room. */
  lemma BurstIsAllowed(requests: seq<Request>, r: Request)
    requires Nondecreasing(requests + [r]) && Allowed(requests, r.source, 0) < 6
    ensures Answer(Entries(requests), r) || Full(Entries(requests), r)
  {
    Earlier(requests, r);
    EntriesValid(requests, r.now);
    LevelFloor(requests, r.source, r.now);
    LevelAnswers(Entries(requests), r);
    hide Answer, Full, Level, After;
  }

  /** So is every request of a source that has let ten seconds pass since its last one. */
  lemma SpacedIsAllowed(requests: seq<Request>, r: Request)
    requires Nondecreasing(requests + [r])
    requires forall i :: 0 <= i < |requests| && requests[i].source == r.source ==> requests[i].now + 10.0 <= r.now
    ensures Answer(Entries(requests), r) || Full(Entries(requests), r)
  {
    Earlier(requests, r);
    EntriesValid(requests, r.now);
    Rested(requests, r.source, r.now - 10.0, r.now);
    LevelAnswers(Entries(requests), r);
    hide Answer, Full, Level, After;
  }

  lemma Earlier(requests: seq<Request>, r: Request)
    requires Nondecreasing(requests + [r])
    ensures Nondecreasing(requests) && forall i :: 0 <= i < |requests| ==> requests[i].now <= r.now
  {
    assert forall i :: 0 <= i < |requests| ==> (requests + [r])[i] == requests[i];
    assert (requests + [r])[|requests|] == r;
  }

  lemma LevelAnswers(entries: map<Address, Source>, r: Request)
    requires ValidEntries(entries) && Level(entries, r.source, r.now) >= 1.0
    ensures Answer(entries, r) || Full(entries, r)
  {
    if r.source in entries && r.source !in Retained(entries, r.now) {
      assert entries[r.source].refill == entries[r.source].last;
    }
  }

  /** Since a source's last request its level has gained a tenth of a second's worth for every second. */
  lemma {:induction false} Rested(requests: seq<Request>, a: Address, since: real, now: real)
    requires Nondecreasing(requests) && since <= now
    requires forall i :: 0 <= i < |requests| ==> requests[i].now <= now
    requires forall i :: 0 <= i < |requests| && requests[i].source == a ==> requests[i].now <= since
    ensures Level(Entries(requests), a, now) >= Min(6.0, (now - since) / 10.0)
  {
    if requests != [] {
      var before, r := requests[..|requests| - 1], requests[|requests| - 1];
      EntriesValid(before, r.now);
      LevelExact(Entries(before), r, a, now);
      LevelFloor(before, a, r.now);
      if r.source == a {
        LevelExact(Entries(before), r, a, r.now);
        LevelStep(Entries(before), r, a, r.now);
      } else if r.now >= since {
        Rested(before, a, since, r.now);
      }
      hide After, Answer, Level;
    }
  }
}
