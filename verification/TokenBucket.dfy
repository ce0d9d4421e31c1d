/**
 The rate limit on revisions: one token bucket per owner, refilled over time and
 discarded when its owner has been idle for longer than a session lives.
 */
module TokenBucket {
  import opened Options

  const BURST_SECONDS := 2.0

  datatype Bucket = Bucket(tokens: real, updated: real)

  /** What happens to one owner's bucket. */
  datatype Event = Call(at: real) | Sweep(at: real)

  function Min(a: real, b: real): real { if a <= b then a else b }

  /** The tokens that accrue over a stretch of time. */
  function Refill(elapsed: real, rate: nat): real { elapsed * rate as real }

  function Burst(rate: nat): real { Refill(BURST_SECONDS, rate) }

  lemma RefillSplit(a: real, b: real, rate: nat)
    ensures Refill(a + b, rate) == Refill(a, rate) + Refill(b, rate)
  {
    var r := rate as real;
    assert (a + b) * r == a * r + b * r;
  }

  lemma RefillGrows(a: real, b: real, rate: nat)
    requires a <= b
    ensures Refill(a, rate) <= Refill(b, rate)
    ensures rate > 0 && a < b ==> Refill(a, rate) < Refill(b, rate)
  {
    RefillSplit(a, b - a, rate);
    assert a + (b - a) == b;
    Positive(b - a, rate as real);
  }

  lemma Positive(x: real, y: real)
    requires x >= 0.0 && y >= 0.0
    ensures x * y >= 0.0
    ensures x > 0.0 && y > 0.0 ==> x * y > 0.0
  {
  }

  lemma RefillZero(rate: nat)
    ensures Refill(0.0, rate) == 0.0 && Burst(rate) == (2 * rate) as real
  {
  }

  /** The tokens available at a moment; an owner without a bucket has a full one. */
  function Level(b: Option<Bucket>, now: real, rate: nat): real {
    if b.None? then Burst(rate) else Min(Burst(rate), b.value.tokens + Refill(now - b.value.updated, rate))
  }

  predicate Allows(b: Option<Bucket>, now: real, rate: nat) { rate == 0 || Level(b, now, rate) >= 1.0 }

  function Next(b: Option<Bucket>, e: Event, rate: nat, ttl: real): Option<Bucket> {
    match e
    case Call(now) =>
      if rate == 0 then b
      else
        var level := Level(b, now, rate);
        Some(Bucket(if level < 1.0 then level else level - 1.0, now))
    case Sweep(now) => if b.Some? && now - b.value.updated > ttl then None else b
  }

  /** The revisions admitted by a series of events. */
  function Admitted(b: Option<Bucket>, events: seq<Event>, rate: nat, ttl: real): nat
    decreases |events|
  {
    if events == [] then 0
    else
      (if events[0].Call? && Allows(b, events[0].at, rate) then 1 else 0) +
      Admitted(Next(b, events[0], rate, ttl), events[1..], rate, ttl)
  }

  /** Events in time order within a window. */
  predicate Within(events: seq<Event>, start: real, end: real) {
    start <= end &&
    (forall i :: 0 <= i < |events| ==> start <= events[i].at <= end) &&
    (forall i, j :: 0 <= i < j < |events| ==> events[i].at <= events[j].at)
  }

  /** A bucket is never fuller than the burst, never overdrawn, and was not updated in the future. */
  predicate Sound(b: Option<Bucket>, now: real, rate: nat) {
    b.Some? ==> 0.0 <= b.value.tokens <= Burst(rate) && b.value.updated <= now
  }

  lemma LevelRange(b: Option<Bucket>, now: real, rate: nat)
    requires Sound(b, now, rate)
    ensures 0.0 <= Level(b, now, rate) <= Burst(rate)
  {
    RefillZero(rate);
    if b.Some? {
      RefillGrows(0.0, now - b.value.updated, rate);
    }
  }

  lemma NextSound(b: Option<Bucket>, e: Event, rate: nat, ttl: real)
    requires Sound(b, e.at, rate)
    ensures Sound(Next(b, e, rate, ttl), e.at, rate)
  {
    LevelRange(b, e.at, rate);
  }

  lemma SoundLater(b: Option<Bucket>, start: real, now: real, rate: nat)
    requires Sound(b, start, rate) && start <= now
    ensures Sound(b, now, rate)
  {
  }

  /** Time only refills, at the rate. */
  lemma LevelRefills(b: Option<Bucket>, start: real, now: real, rate: nat)
    requires start <= now && Sound(b, start, rate)
    ensures Level(b, now, rate) <= Level(b, start, rate) + Refill(now - start, rate)
  {
    RefillZero(rate);
    RefillGrows(0.0, now - start, rate);
    if b.Some? {
      RefillSplit(start - b.value.updated, now - start, rate);
      assert now - b.value.updated == (start - b.value.updated) + (now - start);
    }
  }

  /** A bucket that has been idle for two seconds is full, so nothing changes when it is discarded. */
  lemma DiscardHarmless(b: Option<Bucket>, now: real, rate: nat, ttl: real)
    requires Sound(b, now, rate) && ttl >= BURST_SECONDS
    ensures Level(Next(b, Sweep(now), rate, ttl), now, rate) == Level(b, now, rate)
  {
    if b.Some? && now - b.value.updated > ttl {
      RefillGrows(BURST_SECONDS, now - b.value.updated, rate);
    }
  }

  lemma CallTakes(b: Option<Bucket>, now: real, rate: nat, ttl: real)
    requires rate > 0 && Sound(b, now, rate)
    ensures Level(Next(b, Call(now), rate, ttl), now, rate) ==
      Level(b, now, rate) - (if Allows(b, now, rate) then 1.0 else 0.0)
  {
    LevelRange(b, now, rate);
    RefillZero(rate);
    assert now - now == 0.0;
  }

  /** What has been admitted was available at the start or has been refilled since. */
  lemma {:induction false} AdmittedFromLevel(b: Option<Bucket>, events: seq<Event>, start: real, end: real, rate: nat, ttl: real)
    requires rate > 0 && ttl >= BURST_SECONDS && Within(events, start, end) && Sound(b, start, rate)
    ensures Admitted(b, events, rate, ttl) as real + Level(After(b, events, rate, ttl), end, rate) <=
            Level(b, start, rate) + Refill(end - start, rate)
    decreases |events|
  {
    LevelRange(b, start, rate);
    if events == [] {
      RefillZero(rate);
      RefillGrows(0.0, end - start, rate);
    } else {
      var e := events[0];
      var next := Next(b, e, rate, ttl);
      SoundLater(b, start, e.at, rate);
      NextSound(b, e, rate, ttl);
      assert Within(events[1..], e.at, end);
      AdmittedFromLevel(next, events[1..], e.at, end, rate, ttl);
      LevelRefills(b, start, e.at, rate);
      RefillSplit(e.at - start, end - e.at, rate);
      assert end - start == (e.at - start) + (end - e.at);
      if e.Sweep? {
        DiscardHarmless(b, e.at, rate, ttl);
      } else {
        CallTakes(b, e.at, rate, ttl);
      }
      hide Level, Refill, Next, Sound;
    }
  }

  function After(b: Option<Bucket>, events: seq<Event>, rate: nat, ttl: real): Option<Bucket>
    decreases |events|
  {
    if events == [] then b else After(Next(b, events[0], rate, ttl), events[1..], rate, ttl)
  }

  lemma {:induction false} AfterSound(b: Option<Bucket>, events: seq<Event>, start: real, end: real, rate: nat, ttl: real)
    requires Within(events, start, end) && Sound(b, start, rate)
    ensures Sound(After(b, events, rate, ttl), end, rate)
    decreases |events|
  {
    hide Sound, Next;
    if events == [] {
      SoundLater(b, start, end, rate);
    } else {
      SoundLater(b, start, events[0].at, rate);
      NextSound(b, events[0], rate, ttl);
      assert Within(events[1..], events[0].at, end);
      AfterSound(Next(b, events[0], rate, ttl), events[1..], events[0].at, end, rate, ttl);
    }
  }

  /** A history, and a window of some length after it. */
  predicate Window(before: seq<Event>, events: seq<Event>, start: real, length: real) {
    Within(before, 0.0, start) && Within(events, start, start + length)
  }

  /** At most the burst and what the length of the window refills. */
  predicate AtMost(before: seq<Event>, events: seq<Event>, length: real, rate: nat, ttl: real) {
    Admitted(After(None, before, rate, ttl), events, rate, ttl) as real <= Burst(rate) + Refill(length, rate)
  }

  lemma WindowBound(before: seq<Event>, events: seq<Event>, start: real, length: real, rate: nat, ttl: real)
    requires rate > 0 && ttl >= BURST_SECONDS && Window(before, events, start, length)
    ensures AtMost(before, events, length, rate, ttl)
  {
    var b := After(None, before, rate, ttl);
    assert Sound(None, 0.0, rate);
    hide Sound, Refill, Burst, Level, Admitted, After, Next;
    AfterSound(None, before, 0.0, start, rate, ttl);
    AdmittedFromLevel(b, events, start, start + length, rate, ttl);
    LevelRange(b, start, rate);
    AfterSound(b, events, start, start + length, rate, ttl);
    LevelRange(After(b, events, rate, ttl), start + length, rate);
    assert start + length - start == length;
  }

  // ----- When a call is refused -----

  /** The admissions among the events from the i-th on. */
  function Since(events: seq<Event>, i: nat, rate: nat, ttl: real): nat
    requires i <= |events|
  {
    Admitted(After(None, events[..i], rate, ttl), events[i..], rate, ttl)
  }

  /** What a bucket that was full at event i would hold now, refilled all the time and less what was admitted since. */
  function Remaining(events: seq<Event>, i: nat, now: real, rate: nat, ttl: real): real
    requires i < |events|
  {
    Burst(rate) + Refill(now - events[i].at, rate) - Since(events, i, rate, ttl) as real
  }

  lemma {:induction false} AfterAppend(b: Option<Bucket>, events: seq<Event>, e: Event, rate: nat, ttl: real)
    ensures After(b, events + [e], rate, ttl) == Next(After(b, events, rate, ttl), e, rate, ttl)
    ensures Admitted(b, events + [e], rate, ttl) ==
      Admitted(b, events, rate, ttl) + if e.Call? && Allows(After(b, events, rate, ttl), e.at, rate) then 1 else 0
    decreases |events|
  {
    hide Next, Allows;
    if events == [] {
      assert (events + [e])[1..] == [];
    } else {
      assert (events + [e])[1..] == events[1..] + [e];
      AfterAppend(Next(b, events[0], rate, ttl), events[1..], e, rate, ttl);
    }
  }

  lemma {:induction false} AfterSplit(b: Option<Bucket>, events: seq<Event>, more: seq<Event>, rate: nat, ttl: real)
    ensures After(b, events + more, rate, ttl) == After(After(b, events, rate, ttl), more, rate, ttl)
    decreases |events|
  {
    hide Next;
    if events == [] {
      assert events + more == more;
    } else {
      assert (events + more)[1..] == events[1..] + more;
      AfterSplit(Next(b, events[0], rate, ttl), events[1..], more, rate, ttl);
    }
  }

  lemma OneMore(events: seq<Event>, e: Event, i: nat, rate: nat, ttl: real)
    requires i <= |events|
    ensures Since(events + [e], i, rate, ttl) ==
      Since(events, i, rate, ttl) + if e.Call? && Allows(After(None, events, rate, ttl), e.at, rate) then 1 else 0
  {
    assert (events + [e])[..i] == events[..i] && (events + [e])[i..] == events[i..] + [e];
    assert events[..i] + events[i..] == events;
    hide Allows, Next, After, Admitted;
    AfterAppend(After(None, events[..i], rate, ttl), events[i..], e, rate, ttl);
    AfterSplit(None, events[..i], events[i..], rate, ttl);
  }

  /** The bucket after a call, some time later. */
  lemma CallLevel(b: Option<Bucket>, at: real, now: real, rate: nat, ttl: real)
    requires rate > 0
    ensures Level(Next(b, Call(at), rate, ttl), now, rate) ==
      Min(Burst(rate), Level(b, at, rate) - (if Allows(b, at, rate) then 1.0 else 0.0) + Refill(now - at, rate))
  {
    hide Refill;
  }

  lemma NeverOverfull(b: Option<Bucket>, now: real, rate: nat)
    ensures Level(b, now, rate) <= Burst(rate)
  {
    hide Refill;
  }

  lemma CarriedOver(events: seq<Event>, e: Event, i: nat, now: real, rate: nat, ttl: real)
    requires rate > 0 && e.Call? && i < |events|
    requires Level(After(None, events, rate, ttl), e.at, rate) == Remaining(events, i, e.at, rate, ttl)
    requires Level(After(None, events + [e], rate, ttl), now, rate) < Burst(rate)
    ensures Level(After(None, events + [e], rate, ttl), now, rate) == Remaining(events + [e], i, now, rate, ttl)
  {
    hide Level, Refill, Since, After, Next, Allows, Burst;
    AfterAppend(None, events, e, rate, ttl);
    CallLevel(After(None, events, rate, ttl), e.at, now, rate, ttl);
    OneMore(events, e, i, rate, ttl);
    RefillSplit(e.at - events[i].at, now - e.at, rate);
    assert (e.at - events[i].at) + (now - e.at) == now - events[i].at;
  }

  lemma FullAtCall(events: seq<Event>, e: Event, now: real, rate: nat, ttl: real)
    requires rate > 0 && e.Call? && Level(After(None, events, rate, ttl), e.at, rate) == Burst(rate)
    requires Level(After(None, events + [e], rate, ttl), now, rate) < Burst(rate)
    ensures Level(After(None, events + [e], rate, ttl), now, rate) == Remaining(events + [e], |events|, now, rate, ttl)
  {
    hide Level, Refill, Since, After, Next, Allows, Burst;
    AfterAppend(None, events, e, rate, ttl);
    CallLevel(After(None, events, rate, ttl), e.at, now, rate, ttl);
    OneMore(events, e, |events|, rate, ttl);
    NothingSince(events, rate, ttl);
  }

  lemma NothingSince(events: seq<Event>, rate: nat, ttl: real)
    ensures Since(events, |events|, rate, ttl) == 0
  {
    assert events[|events|..] == [];
  }

  lemma SweepKeeps(events: seq<Event>, e: Event, i: nat, now: real, rate: nat, ttl: real)
    requires e.Sweep? && i < |events| && Next(After(None, events, rate, ttl), e, rate, ttl) == After(None, events, rate, ttl)
    requires Level(After(None, events, rate, ttl), now, rate) == Remaining(events, i, now, rate, ttl)
    ensures Level(After(None, events + [e], rate, ttl), now, rate) == Remaining(events + [e], i, now, rate, ttl)
  {
    hide Level, Refill, Since, After, Next, Burst;
    AfterAppend(None, events, e, rate, ttl);
    OneMore(events, e, i, rate, ttl);
  }

  lemma SweepOrFull(b: Option<Bucket>, e: Event, now: real, rate: nat, ttl: real)
    requires e.Sweep? && Level(Next(b, e, rate, ttl), now, rate) < Burst(rate)
    ensures Next(b, e, rate, ttl) == b
  {
    hide Refill;
  }

  /**
   A bucket that is not full holds exactly what one that was full at some event
   would: nothing is lost but to admissions and to the brim.
   */
  lemma {:induction false} LevelFromFull(events: seq<Event>, now: real, rate: nat, ttl: real) returns (i: nat)
    requires rate > 0 && Level(After(None, events, rate, ttl), now, rate) < Burst(rate)
    ensures i < |events| && Level(After(None, events, rate, ttl), now, rate) == Remaining(events, i, now, rate, ttl)
    decreases |events|
  {
    if events == [] {
      assert false;
    } else {
      hide Level, Refill, Since, Next, Burst, Remaining, After;
      var n := |events| - 1;
      var front, e := events[..n], events[n];
      assert events == front + [e];
      var b := After(None, front, rate, ttl);
      AfterAppend(None, front, e, rate, ttl);
      if e.Sweep? {
        SweepOrFull(b, e, now, rate, ttl);
        i := LevelFromFull(front, now, rate, ttl);
        SweepKeeps(front, e, i, now, rate, ttl);
      } else if Level(b, e.at, rate) < Burst(rate) {
        i := LevelFromFull(front, e.at, rate, ttl);
        CarriedOver(front, e, i, now, rate, ttl);
      } else {
        i := n;
        NeverOverfull(b, e.at, rate);
        FullAtCall(front, e, now, rate, ttl);
      }
    }
  }

  /** From some event on, no call would have been left over for one more admission. */
  predicate Exhausted(events: seq<Event>, now: real, rate: nat, ttl: real) {
    exists i :: 0 <= i < |events| && Spent(events, i, now, rate, ttl)
  }

  predicate Spent(events: seq<Event>, i: nat, now: real, rate: nat, ttl: real)
    requires i < |events|
  {
    Since(events, i, rate, ttl) as real + 1.0 > Burst(rate) + Refill(now - events[i].at, rate)
  }

  /** An event's own window: what has been admitted since, and what is left, was there or has been refilled. */
  lemma NeverMore(events: seq<Event>, i: nat, now: real, rate: nat, ttl: real)
    requires rate > 0 && ttl >= BURST_SECONDS && i < |events| && Within(events, 0.0, now)
    ensures Level(After(None, events, rate, ttl), now, rate) <= Remaining(events, i, now, rate, ttl)
  {
    var before, since, at := events[..i], events[i..], events[i].at;
    assert before + since == events;
    assert Within(before, 0.0, at) && Within(since, at, now);
    assert Sound(None, 0.0, rate);
    hide Level, Refill, After, Admitted, Sound, Burst, Next;
    AfterSplit(None, before, since, rate, ttl);
    AfterSound(None, before, 0.0, at, rate, ttl);
    AdmittedFromLevel(After(None, before, rate, ttl), since, at, now, rate, ttl);
    NeverOverfull(After(None, before, rate, ttl), at, rate);
  }

  /** A call is refused exactly when, from some event on, one admission more would exceed the burst and the refill. */
  lemma RefusedExactly(events: seq<Event>, now: real, rate: nat, ttl: real)
    requires ttl >= BURST_SECONDS && Within(events, 0.0, now)
    ensures Allows(After(None, events, rate, ttl), now, rate) <==> rate == 0 || !Exhausted(events, now, rate, ttl)
  {
    hide Level, Refill, After, Since, Within, Burst;
    RefillZero(rate);
    if rate > 0 {
      if Level(After(None, events, rate, ttl), now, rate) < 1.0 {
        BurstAllows(rate);
        var i := LevelFromFull(events, now, rate, ttl);
        assert Spent(events, i, now, rate, ttl);
      } else if Exhausted(events, now, rate, ttl) {
        var i :| 0 <= i < |events| && Spent(events, i, now, rate, ttl);
        NeverMore(events, i, now, rate, ttl);
      }
    }
  }

  lemma BurstAllows(rate: nat)
    requires rate > 0
    ensures Burst(rate) >= 2.0
  {
    RefillZero(rate);
  }

  /** Whatever the lifetime, no call is refused without such an event. */
  lemma RefusedOnlyWhenSpent(events: seq<Event>, now: real, rate: nat, ttl: real)
    requires !Allows(After(None, events, rate, ttl), now, rate)
    ensures rate > 0 && Exhausted(events, now, rate, ttl)
  {
    hide Refill, After, Since, Burst, Level;
    BurstAllows(rate);
    var i := LevelFromFull(events, now, rate, ttl);
    assert Spent(events, i, now, rate, ttl);
  }

  // ----- A shorter session lifetime -----

  function Calls(n: nat, at: real): seq<Event> { if n == 0 then [] else [Call(at)] + Calls(n - 1, at) }

  /** As many immediate calls as there are tokens are all admitted. */
  lemma {:induction false} CallsAdmitted(b: Option<Bucket>, n: nat, at: real, rest: seq<Event>, rate: nat, ttl: real)
    requires rate > 0 && n > 0 && Sound(b, at, rate) && Level(b, at, rate) >= n as real
    ensures Admitted(b, Calls(n, at) + rest, rate, ttl) ==
      n + Admitted(Some(Bucket(Level(b, at, rate) - n as real, at)), rest, rate, ttl)
    decreases n
  {
    var events, level := Calls(n, at) + rest, Level(b, at, rate);
    var next := Next(b, Call(at), rate, ttl);
    assert events[0] == Call(at) && events[1..] == Calls(n - 1, at) + rest;
    NextSound(b, Call(at), rate, ttl);
    CallTakes(b, at, rate, ttl);
    hide Sound, Refill, Burst, Level;
    assert next == Some(Bucket(level - 1.0, at));
    if n == 1 {
      assert events[1..] == rest;
    } else {
      CallsAdmitted(next, n - 1, at, rest, rate, ttl);
    }
  }

  lemma {:induction false} AllAt(m: nat, at: real)
    ensures forall i :: 0 <= i < |Calls(m, at)| ==> Calls(m, at)[i].at == at
  {
    if m > 0 {
      AllAt(m - 1, at);
    }
  }

  lemma CallsWithin(n: nat, at: real, m: nat, later: real)
    requires at <= later
    ensures Within(Calls(n, at) + ([Sweep(later)] + Calls(m, later)), at, later)
  {
    AllAt(n, at);
    AllAt(m, later);
    var first, second := Calls(n, at), [Sweep(later)] + Calls(m, later);
    hide Calls;
    var events := first + second;
    forall i | 0 <= i < |events| ensures events[i].at == if i < |first| then at else later {}
  }

  /** With a lifetime below two seconds an owner gets a second burst too early. */
  lemma ShortLifetimeExceeds(rate: nat, ttl: real) returns (events: seq<Event>, length: real)
    requires rate > 0 && 0.0 <= ttl < BURST_SECONDS
    ensures Window([], events, 0.0, length) && !AtMost([], events, length, rate, ttl)
  {
    var n := 2 * rate;
    length := (ttl + BURST_SECONDS) / 2.0;
    var rest := [Sweep(length)] + Calls(n, length);
    events := Calls(n, 0.0) + rest;
    RefillZero(rate);
    RefillGrows(length, BURST_SECONDS, rate);
    CallsWithin(n, 0.0, n, length);
    hide Refill, Calls, Burst;
    CallsAdmitted(None, n, 0.0, rest, rate, ttl);
    assert rest[1..] == Calls(n, length) + [];
    CallsAdmitted(None, n, length, [], rate, ttl);
    Discarded(Bucket(Level(None, 0.0, rate) - n as real, 0.0), rest, length, rate, ttl);
    assert 0.0 + length == length;
  }

  lemma Discarded(b: Bucket, events: seq<Event>, now: real, rate: nat, ttl: real)
    requires events != [] && events[0] == Sweep(now) && now - b.updated > ttl
    ensures Admitted(Some(b), events, rate, ttl) == Admitted(None, events[1..], rate, ttl)
  {
  }

  /** The bound holds over every window of every history exactly when sessions live for at least two seconds. */
  lemma BoundedExactly(rate: nat, ttl: real)
    requires rate > 0 && ttl >= 0.0
    ensures (forall before, events, start, length :: Window(before, events, start, length) ==> AtMost(before, events, length, rate, ttl))
      <==> ttl >= BURST_SECONDS
  {
    hide Window, AtMost;
    if ttl >= BURST_SECONDS {
      forall before, events, start, length | Window(before, events, start, length)
        ensures AtMost(before, events, length, rate, ttl)
      {
        WindowBound(before, events, start, length, rate, ttl);
      }
    } else {
      var events, length := ShortLifetimeExceeds(rate, ttl);
    }
  }

  // ----- The program's table of budgets -----

  class Budgets {
    const rate: nat
    const ttl: real
    var budgets: map<string, Bucket>

    constructor (rate: nat, ttl: real)
      ensures this.rate == rate && this.ttl == ttl && budgets == map[]
    {
      this.rate, this.ttl, budgets := rate, ttl, map[];
    }

    function Of(owner: string): Option<Bucket>
      reads this
    {
      if owner in budgets then Some(budgets[owner]) else None
    }

    method AllowRevision(owner: string, now: real) returns (ok: bool)
      requires Sound(Of(owner), now, rate)
      modifies this
      ensures ok == Allows(old(Of(owner)), now, rate)
      ensures Of(owner) == Next(old(Of(owner)), Call(now), rate, ttl)
      ensures forall other :: other != owner ==> Of(other) == old(Of(other))
    {
      if rate == 0 {
        return true;
      }
      RefillZero(rate);
      LevelRange(Of(owner), now, rate);
      hide Refill;
      var burst := Burst(rate);
      var budget := if owner in budgets then budgets[owner] else Bucket(burst, now);
      assert now - now == 0.0;
      var tokens := Min(burst, budget.tokens + Refill(now - budget.updated, rate));
      assert tokens == Level(Of(owner), now, rate);
      ok := !(tokens < 1.0);
      budgets := budgets[owner := Bucket(if ok then tokens - 1.0 else tokens, now)];
    }

    /** The sweep that drops idle budgets together with expired sessions. */
    method Expire(now: real)
      modifies this
      ensures forall owner :: Of(owner) == Next(old(Of(owner)), Sweep(now), rate, ttl)
    {
      var left := budgets.Keys;
      while left != {}
        invariant left <= old(budgets).Keys
        invariant forall owner :: owner in left ==> owner in budgets && budgets[owner] == old(budgets)[owner]
        invariant forall owner :: owner !in left ==> Of(owner) == Next(old(Of(owner)), Sweep(now), rate, ttl)
        decreases left
      {
        var owner :| owner in left;
        left := left - {owner};
        if now - budgets[owner].updated > ttl {
          budgets := budgets - {owner};
        }
      }
    }
  }
}
