/** The process-wide session-ticket keys: a current key that seals, the previous one
    that still opens, rotated on the clock. Every loop thread uses them, one at a time
    under a mutex, so an execution is an interleaving of whole steps. */
module TicketKeys {
  import opened Common

  // Times are nanoseconds of the steady clock.
  const NS_PER_SEC := 1_000_000_000
  const KEY_LIFETIME_SEC := 3600
  const LIFETIME := KEY_LIFETIME_SEC * NS_PER_SEC

  /** A key is known by its name; random names do not repeat. */
  type Key = nat

  /** `None` is a key that was never generated. */
  datatype Keys = Keys(cur: Option<Key>, prev: Option<Key>, born: nat)

  const NO_KEYS := Keys(None, None, 0)

  /** Whole seconds since the current key was installed. */
  function AgeSeconds(k: Keys, now: nat): nat
    requires k.born <= now
  {
    (now - k.born) / NS_PER_SEC
  }

  /** `now`: the clock when the age is taken; `later`: when the new key is installed;
      `drawn`: what the random generator delivered, if anything. */
  function RotateIfDue(k: Keys, now: nat, later: nat, drawn: Option<Key>): Keys
    requires k.born <= now
  {
    if AgeSeconds(k, now) < KEY_LIFETIME_SEC then k
    else if drawn.None? then k
    else Keys(drawn, k.cur, later)
  }

  /** Install a first key if there is none. */
  function Heal(k: Keys, now: nat, drawn: Option<Key>): Keys
  {
    if k.cur.Some? || drawn.None? then k else Keys(drawn, k.prev, now)
  }

  /** A thread starts the process, ticks, seals a ticket (`ivOk`: the initialisation
      vector and the cipher were set up) or opens one. */
  datatype Action =
    | Init(drawn: Option<Key>)
    | Tick(drawn: Option<Key>)
    | Seal(first: Option<Key>, drawn: Option<Key>, ivOk: bool)
    | Open(first: Option<Key>, name: Key, ok: bool)

  /** One critical section of thread `thread`, holding the lock from `start` to `end`. */
  datatype Step = Step(thread: nat, start: nat, end: nat, act: Action)

  function Apply(k: Keys, s: Step): Keys
    requires k.born <= s.start <= s.end
  {
    match s.act
    case Init(drawn) => Heal(k, s.end, drawn)
    case Tick(drawn) => if k.cur.Some? then RotateIfDue(k, s.start, s.end, drawn) else k
    case Seal(first, drawn, _) =>
      var healed := Heal(k, s.start, first);
      if healed.cur.Some? then RotateIfDue(healed, s.start, s.end, drawn) else healed
    case Open(first, _, _) => Heal(k, s.start, first)
  }

  /** The key a seal step seals under, or `None` if it failed. */
  function SealedUnder(k: Keys, s: Step): Option<Key>
    requires k.born <= s.start <= s.end && s.act.Seal?
  {
    if s.act.ivOk then Apply(k, s).cur else None
  }

  /** 1: opened; 2: opened, to be sealed again under the current key; 0: no such key,
      a full handshake; -1: failure. */
  function OpenResult(k: Keys, s: Step): int
    requires k.born <= s.start <= s.end && s.act.Open?
  {
    var k' := Apply(k, s);
    if k'.cur.None? then -1
    else if Some(s.act.name) == k'.cur then (if s.act.ok then 1 else -1)
    else if Some(s.act.name) == k'.prev then (if s.act.ok then 2 else -1)
    else 0
  }

  // ---- executions ----------------------------------------------------------

  /** keys: the shared state; now: when the last critical section ended; births: when
      each key was installed; lastTick: when the last tick (or the start) began. */
  datatype World = World(keys: Keys, now: nat, births: map<Key, nat>, lastTick: nat)

  /** What opening answers: an error exactly when there is no key and none can be drawn,
      or the ticket names a kept key but does not verify; a full handshake exactly when it
      names neither key; a renewal exactly when it verifies under the previous key. */
  lemma {:induction false} OpenResultMeans(k: Keys, s: Step)
    requires k.born <= s.start <= s.end && s.act.Open? && (k.prev.Some? ==> k.cur.Some?) && k.prev != k.cur
    ensures var rv, named := OpenResult(k, s), s.act.name;
            && (rv < 0 <==> || (k.cur.None? && s.act.first.None?)
                            || (Apply(k, s).cur == Some(named) && !s.act.ok) || (k.prev == Some(named) && !s.act.ok))
            && (rv == 0 <==> Apply(k, s).cur.Some? && Apply(k, s).cur != Some(named) && k.prev != Some(named))
            && (rv == 2 <==> k.prev == Some(named) && s.act.ok)
            && (rv == 1 <==> Apply(k, s).cur == Some(named) && s.act.ok)
  {
  }

  /** A ticket is sealed exactly when there is a key or one can be drawn, and the
      initialisation vector can be drawn as well. */
  lemma {:induction false} SealsExactlyWhen(k: Keys, s: Step)
    requires k.born <= s.start <= s.end && s.act.Seal?
    ensures SealedUnder(k, s).Some? <==> s.act.ivOk && (k.cur.Some? || s.act.first.Some?)
  {
  }

  function NewWorld(now: nat): World
  {
    World(NO_KEYS.(born := now), now, map[], now)
  }

  function FreshKeys(s: Step): set<Key>
  {
    (if s.act.Open? || s.act.Seal? then Given(s.act.first) else {}) + (if s.act.Open? then {} else Given(s.act.drawn))
  }

  function Given(k: Option<Key>): set<Key>
  {
    if k.Some? then {k.value} else {}
  }

  /** Critical sections follow each other on the clock, the generator repeats no name,
      and the process starts once, before any ticket. */
  predicate Legal(w: World, s: Step)
  {
    && w.now <= s.start <= s.end
    && FreshKeys(s) !! w.births.Keys
    && (s.act.Init? ==> w.keys.cur.None?)
  }

  ghost predicate WorldInv(w: World)
  {
    && w.keys.born <= w.now && w.lastTick <= w.now
    && (w.keys.cur.Some? ==> w.keys.cur.value in w.births && w.births[w.keys.cur.value] == w.keys.born)
    && (w.keys.prev.Some? ==> w.keys.cur.Some? && w.keys.prev.value in w.births && w.keys.prev != w.keys.cur
                              && w.births[w.keys.prev.value] <= w.keys.born)
    && (w.keys.cur.None? ==> w.births == map[])
  }

  function Advance(w: World, s: Step): World
    requires w.keys.born <= w.now && Legal(w, s)
  {
    var k := Apply(w.keys, s);
    World(k, s.end,
          if k.cur.Some? && k.cur != w.keys.cur then w.births[k.cur.value := k.born] else w.births,
          if s.act.Tick? || s.act.Init? then s.start else w.lastTick)
  }

  lemma {:induction false} AgeInTime(k: Keys, now: nat)
    requires k.born <= now
    ensures AgeSeconds(k, now) < KEY_LIFETIME_SEC <==> now - k.born < LIFETIME
  {
  }

  lemma {:induction false} AdvanceKeeps(w: World, s: Step)
    requires WorldInv(w) && Legal(w, s)
    ensures WorldInv(Advance(w, s))
  {
  }

  function Run(w: World, steps: seq<Step>): (r: Option<World>)
    requires w.keys.born <= w.now
    ensures r.Some? ==> r.value.keys.born <= r.value.now
    decreases |steps|
  {
    if steps == [] then Some(w)
    else if !Legal(w, steps[0]) then None
    else Run(Advance(w, steps[0]), steps[1..])
  }

  lemma {:induction false} RunKeeps(w: World, steps: seq<Step>)
    requires WorldInv(w) && Run(w, steps).Some?
    ensures WorldInv(Run(w, steps).value)
    decreases |steps|
  {
    if steps != [] {
      AdvanceKeeps(w, steps[0]);
      RunKeeps(Advance(w, steps[0]), steps[1..]);
    }
  }

  // ---- how long a ticket stays openable --------------------------------------

  /** From when on a ticket sealed by `t` under a key born at `born` can be refused: its
      key may be replaced at its age limit, or at `t` if that is later, and is forgotten
      one lifetime after that at the earliest. */
  function Deadline(t: nat, born: nat): nat
  {
    (if t < born + LIFETIME then born + LIFETIME else t) + LIFETIME
  }

  /** Key `k` is still held: current since `b`, or previous to a key that is not yet due
      at `d`, or `d` has passed. */
  predicate Held(w: World, k: Key, b: nat, d: nat)
  {
    || (w.keys.cur == Some(k) && w.keys.born == b)
    || (w.keys.prev == Some(k) && w.keys.born + LIFETIME >= d)
    || w.now >= d
  }

  lemma {:induction false} AdvanceHolds(w: World, s: Step, k: Key, t: nat, b: nat)
    requires WorldInv(w) && Legal(w, s) && t <= w.now && Held(w, k, b, Deadline(t, b))
    ensures Held(Advance(w, s), k, b, Deadline(t, b))
  {
    AgeInTime(w.keys, s.start);
  }

  lemma {:induction false} RunHolds(w: World, steps: seq<Step>, k: Key, t: nat, b: nat)
    requires WorldInv(w) && t <= w.now && Held(w, k, b, Deadline(t, b)) && Run(w, steps).Some?
    ensures Held(Run(w, steps).value, k, b, Deadline(t, b))
    decreases |steps|
  {
    if steps != [] {
      AdvanceHolds(w, steps[0], k, t, b);
      AdvanceKeeps(w, steps[0]);
      RunHolds(Advance(w, steps[0]), steps[1..], k, t, b);
    }
  }

  /** From world `w`, after `steps`, some thread starts to open a ticket of key `k` at
      time `at`. */
  predicate OpensAt(w: World, k: Key, steps: seq<Step>, open: Step, at: nat)
    requires w.keys.born <= w.now
  {
    && Run(w, steps).Some? && Legal(Run(w, steps).value, open)
    && open.act.Open? && open.act.ok && open.act.name == k && open.start == at
  }

  /** What the opening thread is told: 1 while the key is current, 2 while it is the
      previous one. */
  predicate Accepted(w: World, open: Step)
    requires w.keys.born <= w.now && Legal(w, open) && open.act.Open?
  {
    var rv := OpenResult(w.keys, open);
    && (rv == 1 || rv == 2)
    && (rv == 1 <==> w.keys.cur == Some(open.act.name))
    && (rv == 2 <==> w.keys.prev == Some(open.act.name))
  }

  /** A ticket of the current key is opened by every thread in any step that starts
      before the deadline, whatever the threads do in between and however the random
      generator behaves. */
  lemma {:induction false} OpensBeforeDeadline(w: World, k: Key, steps: seq<Step>, open: Step, at: nat)
    requires WorldInv(w) && w.keys.cur == Some(k) && OpensAt(w, k, steps, open, at)
    requires at < Deadline(w.now, w.keys.born)
    ensures Accepted(Run(w, steps).value, open)
  {
    RunHolds(w, steps, k, w.now, w.keys.born);
    RunKeeps(w, steps);
  }

  lemma {:induction false} UnusedName(names: set<Key>) returns (n: Key)
    ensures forall k | k in names :: k < n
  {
    n := 0;
    if names != {} {
      var k :| k in names;
      var m := UnusedName(names - {k});
      n := if m <= k then k + 1 else m;
      forall j | j in names ensures j < n {
        assert j == k || j in names - {k};
      }
    }
  }

  lemma {:induction false} RotatesWhenDue(w: World, s: Step)
    requires WorldInv(w) && Legal(w, s) && w.keys.cur.Some?
    requires s.act.Tick? && s.act.drawn.Some? && s.start >= w.keys.born + LIFETIME
    ensures Advance(w, s).keys == Keys(s.act.drawn, w.keys.cur, s.end)
    ensures Advance(w, s).births == w.births[s.act.drawn.value := s.end]
  {
    AgeInTime(w.keys, s.start);
  }

  /** The deadline is sharp: from every world two ticks with a working generator, one as
      soon as the key can be replaced and one a lifetime later, make every thread refuse
      the ticket at the deadline and at any time after it. */
  lemma {:induction false} RefusedFromDeadline(w: World, k: Key, at: nat) returns (steps: seq<Step>, open: Step)
    requires WorldInv(w) && w.keys.cur == Some(k) && at >= Deadline(w.now, w.keys.born)
    ensures |steps| == 2 && forall i | 0 <= i < 2 :: steps[i].act.Tick? && steps[i].act.drawn.Some?
    ensures OpensAt(w, k, steps, open, at) && OpenResult(Run(w, steps).value.keys, open) == 0
  {
    var n := UnusedName(w.births.Keys);
    var d := Deadline(w.now, w.keys.born);
    var t1, t2 := Step(0, d - LIFETIME, d - LIFETIME, Tick(Some(n))), Step(0, d, d, Tick(Some(n + 1)));
    RotatesWhenDue(w, t1);
    AdvanceKeeps(w, t1);
    var w1 := Advance(w, t1);
    RotatesWhenDue(w1, t2);
    var w2 := Advance(w1, t2);
    steps, open := [t1, t2], Step(0, at, at, Open(None, k, true));
    assert steps[1..] == [t2] && [t2][1..] == [];
    assert Run(w, steps) == Run(w1, [t2]) == Run(w2, []);
  }

  /** Whenever a thread starts to open the ticket at `at`, it succeeds. */
  ghost predicate AlwaysOpens(w: World, k: Key, at: nat)
    requires w.keys.born <= w.now
  {
    forall steps: seq<Step>, open: Step :: OpensAt(w, k, steps, open, at) ==> Accepted(Run(w, steps).value, open)
  }

  /** Exactly how long a ticket is good for: opening it at `at` is guaranteed in every run
      if and only if `at` is before the deadline. */
  lemma {:induction false} OpensExactlyBeforeDeadline(w: World, k: Key, at: nat)
    requires WorldInv(w) && w.keys.cur == Some(k)
    ensures AlwaysOpens(w, k, at) <==> at < Deadline(w.now, w.keys.born)
  {
    if at < Deadline(w.now, w.keys.born) {
      forall steps: seq<Step>, open: Step | OpensAt(w, k, steps, open, at)
        ensures Accepted(Run(w, steps).value, open)
      {
        OpensBeforeDeadline(w, k, steps, open, at);
      }
    } else {
      var steps, open := RefusedFromDeadline(w, k, at);
    }
  }

  /** The state in which a ticket was just sealed, after any history. */
  predicate Seals(start: nat, before: seq<Step>, seal: Step)
  {
    && Run(NewWorld(start), before).Some?
    && var w := Run(NewWorld(start), before).value;
       seal.act.Seal? && Legal(w, seal) && SealedUnder(w.keys, seal).Some?
  }

  function Sealed(start: nat, before: seq<Step>, seal: Step): (w: World)
    requires Seals(start, before, seal)
    ensures w.keys.born <= w.now && w.keys.cur.Some?
  {
    Advance(Run(NewWorld(start), before).value, seal)
  }

  lemma {:induction false} SealedInv(start: nat, before: seq<Step>, seal: Step)
    requires Seals(start, before, seal)
    ensures WorldInv(Sealed(start, before, seal)) && Sealed(start, before, seal).now == seal.end
  {
    RunKeeps(NewWorld(start), before);
    AdvanceKeeps(Run(NewWorld(start), before).value, seal);
  }

  /** The promised window, whatever came before: with a working generator a ticket is
      opened throughout [t, t + LIFETIME], both ends included, where `t` is the clock the
      sealing thread read. Without one it is still opened at any time before a lifetime
      after the sealing section ended. */
  lemma {:induction false} TicketOpensForALifetime(start: nat, before: seq<Step>, seal: Step, at: nat)
    requires Seals(start, before, seal)
    requires at < seal.end + LIFETIME || (seal.act.drawn.Some? && at <= seal.start + LIFETIME)
    ensures var w := Sealed(start, before, seal); AlwaysOpens(w, w.keys.cur.value, at)
  {
    var w := Sealed(start, before, seal);
    SealedInv(start, before, seal);
    RunKeeps(NewWorld(start), before);
    AgeInTime(Heal(Run(NewWorld(start), before).value.keys, seal.start, seal.act.first), seal.start);
    OpensExactlyBeforeDeadline(w, w.keys.cur.value, at);
  }

  /** Counted from the end of the sealing section instead, the closed window is guaranteed
      exactly when the section ended before the sealing key was due. */
  lemma {:induction false} ClosedWindowFromTheEndIff(start: nat, before: seq<Step>, seal: Step)
    requires Seals(start, before, seal)
    ensures var w := Sealed(start, before, seal);
            AlwaysOpens(w, w.keys.cur.value, seal.end + LIFETIME) <==> seal.end < w.keys.born + LIFETIME
  {
    var w := Sealed(start, before, seal);
    SealedInv(start, before, seal);
    OpensExactlyBeforeDeadline(w, w.keys.cur.value, seal.end + LIFETIME);
  }

  /** Such a section exists: the age was taken just before the limit. */
  lemma {:induction false} SealingSectionCanOutlastItsKey()
    ensures var before := [Step(0, 0, 0, Init(Some(1)))];
            var seal := Step(0, LIFETIME - 1, LIFETIME, Seal(None, Some(2), true));
            Seals(0, before, seal) && seal.end >= Sealed(0, before, seal).keys.born + LIFETIME
  {
    var i := Step(0, 0, 0, Init(Some(1)));
    var w0 := NewWorld(0);
    assert Run(w0, [i]) == Run(Advance(w0, i), [i][1..]);
    AgeInTime(Advance(w0, i).keys, LIFETIME - 1);
  }

  // ---- and for no more than two ----------------------------------------------

  /** The loops tick often enough: whenever a critical section ends, the last tick began
      at most `d` before; and the random generator delivers on every tick. */
  predicate Ticking(w: World, s: Step, d: nat)
  {
    s.end <= w.lastTick + d && (s.act.Tick? ==> s.act.drawn.Some?)
  }

  ghost predicate AllTicking(w: World, steps: seq<Step>, d: nat)
    requires w.keys.born <= w.now
    decreases |steps|
  {
    steps == [] || (Legal(w, steps[0]) && Ticking(w, steps[0], d) && AllTicking(Advance(w, steps[0]), steps[1..], d))
  }

  /** The current key was not yet due at the last tick, so no key serves past one
      lifetime plus `d`, and the previous one was replaced in time too. */
  ghost predicate FreshInv(w: World, d: nat)
  {
    && (w.keys.cur.Some? ==> w.lastTick < w.keys.born + LIFETIME)
    && (w.keys.prev.Some? && w.keys.prev.value in w.births ==> w.keys.born < w.births[w.keys.prev.value] + LIFETIME + d)
  }

  lemma {:induction false} AdvanceFresh(w: World, s: Step, d: nat)
    requires WorldInv(w) && Legal(w, s) && FreshInv(w, d) && Ticking(w, s, d)
    ensures FreshInv(Advance(w, s), d)
  {
    AgeInTime(w.keys, s.start);
  }

  lemma {:induction false} RunFresh(w: World, steps: seq<Step>, d: nat)
    requires WorldInv(w) && FreshInv(w, d) && AllTicking(w, steps, d)
    ensures Run(w, steps).Some? && FreshInv(Run(w, steps).value, d)
    decreases |steps|
  {
    if steps != [] {
      AdvanceFresh(w, steps[0], d);
      AdvanceKeeps(w, steps[0]);
      RunFresh(Advance(w, steps[0]), steps[1..], d);
    }
  }

  /** Key `k` was installed by time `t`. */
  predicate BornBy(w: World, k: Key, t: nat)
  {
    k in w.births && w.births[k] <= t
  }

  lemma {:induction false} AdvanceBorn(w: World, s: Step, k: Key, t: nat)
    requires WorldInv(w) && Legal(w, s) && BornBy(w, k, t)
    ensures BornBy(Advance(w, s), k, t)
  {
  }

  lemma {:induction false} RunBorn(w: World, steps: seq<Step>, k: Key, t: nat)
    requires WorldInv(w) && BornBy(w, k, t) && Run(w, steps).Some?
    ensures BornBy(Run(w, steps).value, k, t)
    decreases |steps|
  {
    if steps != [] {
      AdvanceBorn(w, steps[0], k, t);
      AdvanceKeeps(w, steps[0]);
      RunBorn(Advance(w, steps[0]), steps[1..], k, t);
    }
  }

  /** Some thread opens a ticket after `steps`, in time after the last tick. */
  predicate OpensTicking(w: World, steps: seq<Step>, open: Step, d: nat)
    requires w.keys.born <= w.now
  {
    && Run(w, steps).Some?
    && var now := Run(w, steps).value; open.act.Open? && Legal(now, open) && Ticking(now, open, d)
  }

  lemma {:induction false} RefusedWhenOld(w: World, steps: seq<Step>, open: Step, d: nat)
    requires WorldInv(w) && FreshInv(w, d) && AllTicking(w, steps, d) && OpensTicking(w, steps, open, d)
    requires var now := Run(w, steps).value;
             open.act.name in now.births && open.end >= now.births[open.act.name] + 2 * LIFETIME + 2 * d
    ensures OpenResult(Run(w, steps).value.keys, open) == 0
  {
    RunKeeps(w, steps);
    RunFresh(w, steps, d);
  }

  /** With ticks at most `d` apart and a working generator, no thread opens a ticket in a
      step that ends two lifetimes and two tick gaps after its key was installed, or
      later. */
  lemma {:induction false} KeyRefusedAfterTwoLifetimes(start: nat, steps: seq<Step>, open: Step, d: nat)
    requires AllTicking(NewWorld(start), steps, d) && OpensTicking(NewWorld(start), steps, open, d)
    requires var now := Run(NewWorld(start), steps).value;
             open.act.name in now.births && open.end >= now.births[open.act.name] + 2 * LIFETIME + 2 * d
    ensures OpenResult(Run(NewWorld(start), steps).value.keys, open) == 0
  {
    RefusedWhenOld(NewWorld(start), steps, open, d);
  }

  /** So none is opened two lifetimes and two tick gaps after it was sealed, or later. */
  lemma {:induction false} TicketRefusedAfterTwoLifetimes(start: nat, before: seq<Step>, seal: Step, between: seq<Step>,
                                                          open: Step, d: nat)
    requires AllTicking(NewWorld(start), before, d) && Seals(start, before, seal)
    requires var w, sealed := Run(NewWorld(start), before).value, Sealed(start, before, seal);
             && Ticking(w, seal, d) && AllTicking(sealed, between, d) && OpensTicking(sealed, between, open, d)
             && Some(open.act.name) == SealedUnder(w.keys, seal) && open.end >= seal.end + 2 * LIFETIME + 2 * d
    ensures OpenResult(Run(Sealed(start, before, seal), between).value.keys, open) == 0
  {
    var k, w, sealed := open.act.name, Run(NewWorld(start), before).value, Sealed(start, before, seal);
    RunKeeps(NewWorld(start), before);
    RunFresh(NewWorld(start), before, d);
    SealedInv(start, before, seal);
    AdvanceFresh(w, seal, d);
    RunBorn(sealed, between, k, seal.end);
    RefusedWhenOld(sealed, between, open, d);
  }

  // ---- the object ----------------------------------------------------------

  /** The keys as the threads share them; each method is one critical section. */
  class TicketStore {
    var cur: Option<Key>
    var prev: Option<Key>
    var born: nat

    ghost function State(): Keys
      reads this
    {
      Keys(cur, prev, born)
    }

    constructor (now: nat)
      ensures State() == NO_KEYS.(born := now)
    {
      cur, prev, born := None, None, now;
    }

    /** Caller holds the lock. */
    method RotateDue(now: nat, later: nat, drawn: Option<Key>)
      requires born <= now
      modifies this
      ensures State() == RotateIfDue(old(State()), now, later, drawn)
    {
      var age := (now - born) / NS_PER_SEC;
      if age < KEY_LIFETIME_SEC {
        return;
      }
      if drawn.None? {
        return;
      }
      prev := cur;
      cur := drawn;
      born := later;
    }

    method TickKeys(ghost s: Step, now: nat, later: nat, drawn: Option<Key>)
      requires born <= now <= later && s == Step(s.thread, now, later, Tick(drawn))
      modifies this
      ensures State() == Apply(old(State()), s)
    {
      if cur.Some? {
        RotateDue(now, later, drawn);
      }
    }

    /** The callback with enc set: 1 and the key's name, or -1. */
    method SealTicket(ghost s: Step, now: nat, later: nat, first: Option<Key>, drawn: Option<Key>, ivOk: bool)
      returns (rv: int, name: Key)
      requires born <= now <= later && s == Step(s.thread, now, later, Seal(first, drawn, ivOk))
      modifies this
      ensures State() == Apply(old(State()), s)
      ensures (if rv == 1 then Some(name) else None) == SealedUnder(old(State()), s) && (rv == 1 || rv == -1)
    {
      name := 0;
      if cur.None? {
        if first.None? {
          return -1, 0;
        }
        cur := first;
        born := now;
      }
      RotateDue(now, later, drawn);
      if !ivOk {
        return -1, 0;
      }
      return 1, cur.value;
    }

    /** The callback with enc clear. */
    method OpenTicket(ghost s: Step, now: nat, later: nat, first: Option<Key>, name: Key, ok: bool) returns (rv: int)
      requires born <= now <= later && s == Step(s.thread, now, later, Open(first, name, ok))
      modifies this
      ensures State() == Apply(old(State()), s)
      ensures rv == OpenResult(old(State()), s)
    {
      if cur.None? {
        if first.None? {
          return -1;
        }
        cur := first;
        born := now;
      }
      rv := 1;
      if name != cur.value {
        if prev.Some? && name == prev.value {
          rv := 2;
        } else {
          return 0;
        }
      }
      if !ok {
        return -1;
      }
    }
  }
}
