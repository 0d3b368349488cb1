/** What an engine does with its connections, said of the connections themselves: whom a
    pump keeps and whom it reaps, where a connection ID leads, and that every listed
    connection is a run of a connection by itself. */
module EngineHistory {
  import opened Common
  import opened Connection
  import opened Engine
  import opened EngineRuns

  /** Where a connection ID leads. */
  function RouteOf(routes: map<Cid, nat>, cid: Cid): Option<nat>
  {
    if cid in routes then Some(routes[cid]) else None
  }

  // ---- connection IDs while a datagram is parsed ---------------------------

  /** What an event says of a connection ID: handed out, retired, nothing. */
  function Word(ev: Event, cid: Cid): Option<bool>
  {
    match ev
    case AddCid(x, ok) => if x == cid && ok then Some(true) else None
    case DropCid(x) => if x == cid then Some(false) else None
    case ConnEvent(_) => None
  }

  /** The last word on a connection ID, from event k on. */
  function LastWord(events: seq<Event>, k: nat, cid: Cid): Option<bool>
    requires k <= |events|
    decreases |events| - k
  {
    if k == |events| then None
    else
      var later := LastWord(events, k + 1, cid);
      if later.Some? then later else Word(events[k], cid)
  }

  /** The route that results: to `id` once handed out, none once retired. */
  function Rerouted(word: Option<bool>, id: nat, before: Option<nat>): Option<nat>
  {
    match word
    case None => before
    case Some(added) => if added then Some(id) else None
  }

  lemma {:induction false} FeedRoutes(cfg: Config, id: nat, c: Conn, routes: map<Cid, nat>, events: seq<Event>, k: nat,
                                      cid: Cid)
    requires Wf(c) && k <= |events| && FeedFrom(cfg, id, c, routes, events, k).Some?
    ensures RouteOf(FeedFrom(cfg, id, c, routes, events, k).value.1, cid)
            == Rerouted(LastWord(events, k, cid), id, RouteOf(routes, cid))
    decreases |events| - k
  {
    if k < |events| {
      var next := RouteAfter(routes, id, events[k]);
      FeedRoutes(cfg, id, Apply(cfg, c, StepOf(events[k])), next, events, k + 1, cid);
      assert RouteOf(next, cid) == Rerouted(Word(events[k], cid), id, RouteOf(routes, cid));
    }
  }

  /** The connection is ending: ngtcp2 is not given the datagram. */
  predicate Deaf(c: Conn)
  {
    c.life.wantClose || c.life.closed
  }

  lemma {:induction false} FeedAtRoutes(cfg: Config, e: EngineState, i: nat, events: seq<Event>, cid: Cid)
    requires i < |e.conns| && AllWf(e.conns) && FeedAt(cfg, e, i, events).Some?
    ensures var r := FeedAt(cfg, e, i, events).value;
            var word := if Deaf(e.conns[i].conn) then None else LastWord(events, 0, cid);
            RouteOf(r.byCid, cid) == Rerouted(word, e.conns[i].id, RouteOf(e.byCid, cid))
  {
    var begun := Apply(cfg, e.conns[i].conn, OnPacket(Begin));
    if begun.life.phase != Idle {
      FeedRoutes(cfg, e.conns[i].id, begun, e.byCid, events, 0, cid);
    }
  }

  /** The events of a datagram as connection steps, from event k on. */
  function Steps(events: seq<Event>, k: nat): seq<Step>
    requires k <= |events|
    decreases |events| - k
  {
    if k == |events| then [] else [StepOf(events[k])] + Steps(events, k + 1)
  }

  lemma {:induction false} FeedRuns(cfg: Config, id: nat, c: Conn, routes: map<Cid, nat>, events: seq<Event>, k: nat)
    requires Wf(c) && k <= |events| && FeedFrom(cfg, id, c, routes, events, k).Some?
    ensures Run(cfg, c, Steps(events, k)) == Some(FeedFrom(cfg, id, c, routes, events, k).value.0)
    decreases |events| - k
  {
    if k < |events| {
      FeedRuns(cfg, id, Apply(cfg, c, StepOf(events[k])), RouteAfter(routes, id, events[k]), events, k + 1);
      assert Steps(events, k)[1..] == Steps(events, k + 1);
    }
  }

  lemma {:induction false} FeedAtRuns(cfg: Config, e: EngineState, i: nat, events: seq<Event>)
    requires i < |e.conns| && AllWf(e.conns) && FeedAt(cfg, e, i, events).Some?
    ensures var r := FeedAt(cfg, e, i, events).value;
            && |r.conns| == |e.conns| && r.conns[i].id == e.conns[i].id
            && (forall j | 0 <= j < |e.conns| && j != i :: r.conns[j] == e.conns[j])
            && if Deaf(e.conns[i].conn) then r.conns[i] == e.conns[i]
               else Run(cfg, e.conns[i].conn, [OnPacket(Begin)] + Steps(events, 0)) == Some(r.conns[i].conn)
  {
    var c := e.conns[i].conn;
    var begun := Apply(cfg, c, OnPacket(Begin));
    if begun.life.phase != Idle {
      FeedRuns(cfg, e.conns[i].id, begun, e.byCid, events, 0);
      assert ([OnPacket(Begin)] + Steps(events, 0))[1..] == Steps(events, 0);
    }
  }

  /** A datagram that starts a connection: the connection is listed last under a fresh
      identity, and both its connection IDs lead to it, unless its own events retire
      them; every other connection and every other route is as before. A connection the
      application turns away is not given the datagram. */
  lemma {:induction false} NewConnectionIsReachable(cfg: Config, e: EngineState, dcid: Cid, acc: AcceptEnv,
                                                    events: seq<Event>, cid: Cid)
    requires EngineInv(cfg, e) && AllWf(e.conns) && dcid !in e.byCid
    requires acc.initial && acc.ready && (cfg.maxConnections != 0 ==> |e.conns| < cfg.maxConnections)
    requires Receive(cfg, e, ForId(dcid), acc, events).Some?
    ensures var r := Receive(cfg, e, ForId(dcid), acc, events).value;
            && |r.conns| == |e.conns| + 1 && r.conns[|e.conns|].id == e.next && !Listed(e.conns, e.next)
            && r.conns[..|e.conns|] == e.conns
            && (var c := Accept(cfg, acc.adm, acc.sendLeft);
                if acc.adm == Rejected then r.conns[|e.conns|].conn == c
                else Run(cfg, c, [OnPacket(Begin)] + Steps(events, 0)) == Some(r.conns[|e.conns|].conn))
            && RouteOf(r.byCid, cid)
               == Rerouted(if acc.adm == Rejected then None else LastWord(events, 0, cid), e.next,
                           if cid == dcid || cid == acc.scid then Some(e.next) else RouteOf(e.byCid, cid))
  {
    var admitted := Admit(cfg, e, dcid, acc);
    FeedAtRoutes(cfg, admitted, |e.conns|, events, cid);
    FeedAtRuns(cfg, admitted, |e.conns|, events);
    var r := Receive(cfg, e, ForId(dcid), acc, events).value;
    assert r == FeedAt(cfg, admitted, |e.conns|, events).value;
    assert forall i | 0 <= i < |e.conns| :: r.conns[i] == admitted.conns[i] == e.conns[i];
    forall i | 0 <= i < |e.conns|
      ensures e.conns[i].id != e.next
    {
      assert EntryInv(cfg, e.next, e.conns[i]);
    }
  }

  /** A datagram for a known connection ID: only the connection it leads to can change,
      and only its own events move routes. */
  lemma {:induction false} KnownIdIsDelivered(cfg: Config, e: EngineState, dcid: Cid, acc: AcceptEnv,
                                              events: seq<Event>, i: nat, cid: Cid)
    requires EngineInv(cfg, e) && AllWf(e.conns) && i < |e.conns|
    requires RouteOf(e.byCid, dcid) == Some(e.conns[i].id)
    requires Receive(cfg, e, ForId(dcid), acc, events).Some?
    ensures var r := Receive(cfg, e, ForId(dcid), acc, events).value;
            && |r.conns| == |e.conns| && r.conns[i].id == e.conns[i].id
            && (forall j | 0 <= j < |e.conns| && j != i :: r.conns[j] == e.conns[j])
            && RouteOf(r.byCid, cid)
               == Rerouted(if Deaf(e.conns[i].conn) then None else LastWord(events, 0, cid), e.conns[i].id,
                           RouteOf(e.byCid, cid))
            && if Deaf(e.conns[i].conn) then r.conns[i] == e.conns[i]
               else Run(cfg, e.conns[i].conn, [OnPacket(Begin)] + Steps(events, 0)) == Some(r.conns[i].conn)
  {
    FeedAtRoutes(cfg, e, i, events, cid);
    FeedAtRuns(cfg, e, i, events);
    var k := IndexOf(e.conns, e.conns[i].id);
    assert k == i;
  }

  /** A datagram that is not readable, and one for an unknown connection ID that cannot
      start a connection or meets a full engine, change nothing. */
  lemma {:induction false} OtherDatagramsChangeNothing(cfg: Config, e: EngineState, header: Header, acc: AcceptEnv,
                                                       events: seq<Event>)
    requires AllWf(e.conns)
    requires || header.Undecodable?
             || (&& header.ForId? && header.dcid !in e.byCid
                 && (!acc.initial || !acc.ready || 0 < cfg.maxConnections <= |e.conns|))
    ensures Receive(cfg, e, header, acc, events) == Some(e)
  {
  }

  /** An application call reaches its connection and no other. */
  lemma {:induction false} CallIsDelivered(cfg: Config, e: EngineState, at: nat, a: AppStep)
    requires AllWf(e.conns) && StepOnce(cfg, e, Call(at, a)).Some?
    ensures var r := StepOnce(cfg, e, Call(at, a)).value;
            && r == e.(conns := r.conns) && at < |e.conns| == |r.conns|
            && (forall j | 0 <= j < |e.conns| && j != at :: r.conns[j] == e.conns[j])
            && r.conns[at].id == e.conns[at].id
            && Run(cfg, e.conns[at].conn, [OnCall(a)]) == Some(r.conns[at].conn)
  {
    assert [OnCall(a)][1..] == [];
  }

  // ---- pumping -------------------------------------------------------------

  /** A connection stays when it is neither closed nor draining nor in ngtcp2's closing or
      draining period. */
  predicate Stays(l: Life, inPeriod: bool)
  {
    !l.closed && !l.draining && !inPeriod
  }

  /** Connection i before the pump, against the engine `r` after it: written, and then
      kept with all its routes, or gone, with on_conn_close called exactly if it still has
      a context. */
  ghost predicate KeptOrReaped(x: Entry, written: Option<Conn>, inPeriod: bool, routes: map<Cid, nat>, r: EngineState)
  {
    && written.Some?
    && if Stays(written.value.life, inPeriod) then
         && Entry(x.id, written.value) in r.conns && x.id !in r.closeLog
         && (forall k | 0 <= k < |r.conns| && r.conns[k].id == x.id :: r.conns[k].conn == written.value)
         && (forall cid | cid in routes && routes[cid] == x.id :: RouteOf(r.byCid, cid) == Some(x.id))
       else
         && !Listed(r.conns, x.id) && (x.id in r.closeLog <==> written.value.life.hasUd)
         && (forall cid | cid in r.byCid :: r.byCid[cid] != x.id)
  }

  /** A pump keeps exactly the living connections, as the write loop left them and under
      their identities, keeps every route to them, and calls on_conn_close for exactly the
      reaped ones that still have a context. */
  lemma {:induction false} PumpKeepsExactlyTheLiving(cfg: Config, e: EngineState, scripts: seq<WriteScript>,
                                                     periods: seq<bool>, i: nat)
    requires EngineInv(cfg, e) && AllWf(e.conns) && PumpAll(e, scripts, periods).Some? && i < |e.conns|
    ensures KeptOrReaped(e.conns[i], Write(e.conns[i].conn, scripts[i]), periods[i],
                         RoutesAfterWrites(e.byCid, e.conns, scripts, 0), PumpAll(e, scripts, periods).value)
  {
    var written := WriteAll(e.conns, scripts).value;
    WriteAllAt(e.conns, scripts, i);
    WrittenInv(cfg, e, scripts, written);
    SurvivorsExactly(written, periods);
    var routes := RoutesAfterWrites(e.byCid, e.conns, scripts, 0);
    var r := PumpAll(e, scripts, periods).value;
    assert e.conns[i].id !in e.closeLog by {
      assert Listed(e.conns, e.conns[i].id);
    }
    if Stays(written[i].conn.life, periods[i]) {
      StaysListed(written, periods, i, r.conns);
      StaysUncalled(written, periods, i);
      StaysRouted(written, periods, i, routes, r.byCid);
    } else {
      GoneUnlisted(written, periods, i, r.conns);
      GoneCalled(written, periods, i);
      GoneUnrouted(written, periods, i, routes, r.byCid);
    }
  }

  lemma {:induction false} StaysListed(all: seq<Entry>, periods: seq<bool>, i: nat, kept: seq<Entry>)
    requires |periods| == |all| && Distinct(all) && i < |all| && Stays(all[i].conn.life, periods[i])
    requires kept == Survivors(all, periods)
    ensures all[i] in kept
    ensures forall k | 0 <= k < |kept| && kept[k].id == all[i].id :: kept[k].conn == all[i].conn
  {
    SurvivorsExactly(all, periods);
    forall k | 0 <= k < |kept| && kept[k].id == all[i].id
      ensures kept[k].conn == all[i].conn
    {
      assert kept[k] in kept;
      var j :| 0 <= j < |all| && all[j] == kept[k];
      assert j == i;
    }
  }

  lemma {:induction false} StaysUncalled(all: seq<Entry>, periods: seq<bool>, i: nat)
    requires |periods| == |all| && Distinct(all) && i < |all| && Stays(all[i].conn.life, periods[i])
    ensures all[i].id !in CloseCalls(all, periods)
  {
    if all[i].id in CloseCalls(all, periods) {
      var j := CloseCallsDue(all, periods, all[i].id);
    }
  }

  lemma {:induction false} StaysRouted(all: seq<Entry>, periods: seq<bool>, i: nat, routes: map<Cid, nat>,
                                       left: map<Cid, nat>)
    requires |periods| == |all| && Distinct(all) && i < |all| && Stays(all[i].conn.life, periods[i])
    requires left == EraseRoutes(routes, DeadIds(all, periods))
    ensures forall cid | cid in routes && routes[cid] == all[i].id :: RouteOf(left, cid) == Some(all[i].id)
  {
    assert all[i].id !in DeadIds(all, periods);
  }

  lemma {:induction false} GoneUnlisted(all: seq<Entry>, periods: seq<bool>, i: nat, kept: seq<Entry>)
    requires |periods| == |all| && Distinct(all) && i < |all| && !Stays(all[i].conn.life, periods[i])
    requires kept == Survivors(all, periods)
    ensures !Listed(kept, all[i].id)
  {
    SurvivorsExactly(all, periods);
    forall k | 0 <= k < |kept|
      ensures kept[k].id != all[i].id
    {
      assert kept[k] in kept;
      var j :| 0 <= j < |all| && all[j] == kept[k] && !Dead(all[j].conn, periods[j]);
      assert j != i;
    }
  }

  lemma {:induction false} GoneCalled(all: seq<Entry>, periods: seq<bool>, i: nat)
    requires |periods| == |all| && Distinct(all) && i < |all| && !Stays(all[i].conn.life, periods[i])
    ensures all[i].id in CloseCalls(all, periods) <==> all[i].conn.life.hasUd
  {
    if all[i].conn.life.hasUd {
      CalledAt(all, periods, i);
    } else if all[i].id in CloseCalls(all, periods) {
      var j := CloseCallsDue(all, periods, all[i].id);
    }
  }

  lemma {:induction false} CalledAt(all: seq<Entry>, periods: seq<bool>, i: nat)
    requires |periods| == |all| && i < |all| && !Stays(all[i].conn.life, periods[i]) && all[i].conn.life.hasUd
    ensures all[i].id in CloseCalls(all, periods)
  {
    if i > 0 {
      CalledAt(all[1..], periods[1..], i - 1);
    }
  }

  lemma {:induction false} GoneUnrouted(all: seq<Entry>, periods: seq<bool>, i: nat, routes: map<Cid, nat>,
                                        left: map<Cid, nat>)
    requires |periods| == |all| && i < |all| && !Stays(all[i].conn.life, periods[i])
    requires left == EraseRoutes(routes, DeadIds(all, periods))
    ensures forall cid | cid in left :: left[cid] != all[i].id
  {
    assert all[i].id in DeadIds(all, periods);
  }

  /** Rounds k to n of the write loop as connection steps. */
  function RoundSteps(rounds: seq<WriteStep>, k: nat, n: nat): seq<Step>
    requires k <= n <= |rounds|
    decreases n - k
  {
    if k == n then [] else [OnWrite(rounds[k])] + RoundSteps(rounds, k + 1, n)
  }

  lemma {:induction false} RoundsRun(cfg: Config, c: Conn, rounds: seq<WriteStep>, k: nat) returns (n: nat)
    requires Wf(c) && k <= |rounds| && Rounds(c, rounds, k).Some?
    ensures k <= n <= |rounds| && Run(cfg, c, RoundSteps(rounds, k, n)) == Rounds(c, rounds, k)
    ensures Rounds(c, rounds, k).value.life.phase != InWrite && (c.life.phase != InWrite <==> n == k)
    decreases |rounds| - k
  {
    n := k;
    if c.life.phase == InWrite {
      var d := ApplyWrite(c, rounds[k]);
      n := RoundsRun(cfg, d, rounds, k + 1);
      assert Apply(cfg, c, OnWrite(rounds[k])) == d;
      assert RoundSteps(rounds, k, n)[1..] == RoundSteps(rounds, k + 1, n);
    }
  }

  /** A connection's share of a pump is its write call and then round after round until
      the write loop returns. */
  lemma {:induction false} WriteFollowsItsRounds(cfg: Config, c: Conn, script: WriteScript) returns (n: nat)
    requires Wf(c) && Write(c, script).Some?
    ensures n <= |script.rounds| && Write(c, script).value.life.phase != InWrite
    ensures Run(cfg, c, [OnWrite(Start(script.emitted))] + RoundSteps(script.rounds, 0, n)) == Write(c, script)
  {
    var start := OnWrite(Start(script.emitted));
    n := RoundsRun(cfg, ApplyWrite(c, Start(script.emitted)), script.rounds, 0);
    assert Apply(cfg, c, start) == ApplyWrite(c, Start(script.emitted));
    assert ([start] + RoundSteps(script.rounds, 0, n))[1..] == RoundSteps(script.rounds, 0, n);
  }

  /** A pump lists, calls and routes nothing else. */
  lemma {:induction false} PumpAddsNothing(cfg: Config, e: EngineState, scripts: seq<WriteScript>,
                                           periods: seq<bool>)
    requires EngineInv(cfg, e) && AllWf(e.conns) && PumpAll(e, scripts, periods).Some?
    ensures var r := PumpAll(e, scripts, periods).value;
            && (forall k | 0 <= k < |r.conns| :: Listed(e.conns, r.conns[k].id))
            && e.closeLog <= r.closeLog
            && (forall k | |e.closeLog| <= k < |r.closeLog| :: Listed(e.conns, r.closeLog[k]))
            && (forall cid | cid in r.byCid ::
                  RouteOf(RoutesAfterWrites(e.byCid, e.conns, scripts, 0), cid) == Some(r.byCid[cid]))
  {
    var written, r := WriteAll(e.conns, scripts).value, PumpAll(e, scripts, periods).value;
    WrittenInv(cfg, e, scripts, written);
    SurvivorsInv(cfg, e.next, written, periods);
    forall k | 0 <= k < |r.conns|
      ensures Listed(e.conns, r.conns[k].id)
    {
      assert Listed(r.conns, r.conns[k].id);
      SameIdsListed(written, e.conns, r.conns[k].id);
    }
    forall k | |e.closeLog| <= k < |r.closeLog|
      ensures Listed(e.conns, r.closeLog[k])
    {
      assert r.closeLog[k] == CloseCalls(written, periods)[k - |e.closeLog|];
      CalledIsGone(written, periods, r.closeLog[k]);
      SameIdsListed(written, e.conns, r.closeLog[k]);
    }
  }

  // ---- connection IDs handed out while writing -----------------------------

  lemma {:induction false} AddedRoute(routes: map<Cid, nat>, id: nat, cids: seq<Cid>, cid: Cid)
    ensures RouteOf(AddRoutes(routes, id, cids), cid) == if cid in cids then Some(id) else RouteOf(routes, cid)
    decreases |cids|
  {
    if cids != [] {
      AddedRoute(routes[cids[0] := id], id, cids[1..], cid);
      assert cids == [cids[0]] + cids[1..];
    }
  }

  /** The connection that was the last to hand out a connection ID, from i on. */
  function LastHander(scripts: seq<WriteScript>, i: nat, cid: Cid): (r: Option<nat>)
    requires i <= |scripts|
    ensures r.Some? ==> r.value < |scripts| && cid in scripts[r.value].cids
    ensures r.Some? ==> forall k | r.value < k < |scripts| :: cid !in scripts[k].cids
    ensures r.None? ==> forall k | i <= k < |scripts| :: cid !in scripts[k].cids
    decreases |scripts| - i
  {
    if i == |scripts| then None
    else
      var later := LastHander(scripts, i + 1, cid);
      if later.Some? then later else if cid in scripts[i].cids then Some(i) else None
  }

  /** A connection ID handed out while writing leads to the connection that did it last;
      every other one leads where it led. */
  lemma {:induction false} HandedOutIdsLeadBack(routes: map<Cid, nat>, conns: seq<Entry>, scripts: seq<WriteScript>,
                                                i: nat, cid: Cid)
    requires |scripts| == |conns| && i <= |conns|
    ensures RouteOf(RoutesAfterWrites(routes, conns, scripts, i), cid)
            == match LastHander(scripts, i, cid)
               case Some(j) => Some(conns[j].id)
               case None => RouteOf(routes, cid)
    decreases |conns| - i
  {
    if i < |conns| {
      AddedRoute(routes, conns[i].id, scripts[i].cids, cid);
      HandedOutIdsLeadBack(AddRoutes(routes, conns[i].id, scripts[i].cids), conns, scripts, i + 1, cid);
    }
  }

  // ---- every connection is a run -------------------------------------------

  ghost predicate IsRun(cfg: Config, c: Conn)
  {
    exists adm: Admission, sendLeft: nat, steps: seq<Step> :: Reaches(cfg, adm, sendLeft, steps, c)
  }

  predicate Reaches(cfg: Config, adm: Admission, sendLeft: nat, steps: seq<Step>, c: Conn)
  {
    Run(cfg, Accept(cfg, adm, sendLeft), steps) == Some(c)
  }

  lemma {:induction false} RunMore(cfg: Config, c: Conn, steps: seq<Step>, step: Step)
    requires Wf(c) && Run(cfg, c, steps).Some? && Legal(Run(cfg, c, steps).value, step)
    ensures Run(cfg, c, steps + [step]) == Some(Apply(cfg, Run(cfg, c, steps).value, step))
    decreases |steps|
  {
    if steps == [] {
      assert (steps + [step])[1..] == [];
    } else {
      assert (steps + [step])[1..] == steps[1..] + [step];
      RunMore(cfg, Apply(cfg, c, steps[0]), steps[1..], step);
    }
  }

  lemma {:induction false} StepIsRun(cfg: Config, c: Conn, step: Step)
    requires IsRun(cfg, c) && Wf(c) && Legal(c, step)
    ensures IsRun(cfg, Apply(cfg, c, step))
  {
    var adm: Admission, sendLeft: nat, steps: seq<Step> :| Reaches(cfg, adm, sendLeft, steps, c);
    RunMore(cfg, Accept(cfg, adm, sendLeft), steps, step);
    assert Reaches(cfg, adm, sendLeft, steps + [step], Apply(cfg, c, step));
  }

  lemma {:induction false} RunIsRun(cfg: Config, c: Conn, steps: seq<Step>)
    requires IsRun(cfg, c) && Wf(c) && Run(cfg, c, steps).Some?
    ensures IsRun(cfg, Run(cfg, c, steps).value)
    decreases |steps|
  {
    if steps != [] {
      StepIsRun(cfg, c, steps[0]);
      RunIsRun(cfg, Apply(cfg, c, steps[0]), steps[1..]);
    }
  }

  lemma {:induction false} AcceptIsRun(cfg: Config, adm: Admission, sendLeft: nat)
    ensures IsRun(cfg, Accept(cfg, adm, sendLeft))
  {
    assert Reaches(cfg, adm, sendLeft, [], Accept(cfg, adm, sendLeft));
  }

  lemma {:induction false} WriteIsRun(cfg: Config, c: Conn, script: WriteScript)
    requires IsRun(cfg, c) && Wf(c) && Write(c, script).Some?
    ensures IsRun(cfg, Write(c, script).value)
  {
    var n := WriteFollowsItsRounds(cfg, c, script);
    RunIsRun(cfg, c, [OnWrite(Start(script.emitted))] + RoundSteps(script.rounds, 0, n));
  }

  ghost predicate AllRuns(cfg: Config, conns: seq<Entry>)
  {
    forall i | 0 <= i < |conns| :: IsRun(cfg, conns[i].conn)
  }

  lemma {:induction false} FeedIsRun(cfg: Config, e: EngineState, i: nat, events: seq<Event>)
    requires AllRuns(cfg, e.conns) && i < |e.conns| && AllWf(e.conns) && FeedAt(cfg, e, i, events).Some?
    ensures AllRuns(cfg, FeedAt(cfg, e, i, events).value.conns)
  {
    FeedAtRuns(cfg, e, i, events);
    if !Deaf(e.conns[i].conn) {
      RunIsRun(cfg, e.conns[i].conn, [OnPacket(Begin)] + Steps(events, 0));
    }
  }

  lemma {:induction false} ReceiveIsRun(cfg: Config, e: EngineState, header: Header, acc: AcceptEnv,
                                        events: seq<Event>)
    requires AllRuns(cfg, e.conns) && AllWf(e.conns) && Receive(cfg, e, header, acc, events).Some?
    ensures AllRuns(cfg, Receive(cfg, e, header, acc, events).value.conns)
  {
    if header.ForId? {
      if header.dcid in e.byCid {
        FeedIsRun(cfg, e, IndexOf(e.conns, e.byCid[header.dcid]), events);
      } else if acc.initial && !Full(cfg, e) && acc.ready {
        AcceptIsRun(cfg, acc.adm, acc.sendLeft);
        FeedIsRun(cfg, Admit(cfg, e, header.dcid, acc), |e.conns|, events);
      }
    }
  }

  lemma {:induction false} PumpIsRun(cfg: Config, e: EngineState, scripts: seq<WriteScript>, periods: seq<bool>)
    requires AllRuns(cfg, e.conns) && AllWf(e.conns) && PumpAll(e, scripts, periods).Some?
    ensures AllRuns(cfg, PumpAll(e, scripts, periods).value.conns)
  {
    var written, kept := WriteAll(e.conns, scripts).value, PumpAll(e, scripts, periods).value.conns;
    SurvivorsOf(written, periods);
    forall k | 0 <= k < |kept|
      ensures IsRun(cfg, kept[k].conn)
    {
      assert kept[k] in written;
      var i :| 0 <= i < |written| && written[i] == kept[k];
      WriteAllAt(e.conns, scripts, i);
      WriteIsRun(cfg, e.conns[i].conn, scripts[i]);
    }
  }

  lemma {:induction false} ExpiryIsRun(cfg: Config, e: EngineState, now: nat, expiries: seq<nat>, failed: seq<bool>)
    requires AllRuns(cfg, e.conns) && EngineInv(cfg, e) && |failed| == |expiries| == |e.conns|
    ensures AllRuns(cfg, ExpireAll(e.conns, now, expiries, failed))
  {
    var r := ExpireAll(e.conns, now, expiries, failed);
    forall i | 0 <= i < |r|
      ensures IsRun(cfg, r[i].conn)
    {
      assert EntryInv(cfg, e.next, e.conns[i]);
      if expiries[i] <= now && failed[i] {
        StepIsRun(cfg, e.conns[i].conn, ExpiryFailed);
        assert r[i].conn == Apply(cfg, e.conns[i].conn, ExpiryFailed);
      } else {
        assert r[i] == e.conns[i];
      }
    }
  }

  lemma {:induction false} EngineStepIsRun(cfg: Config, e: EngineState, step: EngineStep)
    requires AllRuns(cfg, e.conns) && EngineInv(cfg, e) && AllWf(e.conns) && StepOnce(cfg, e, step).Some?
    ensures AllRuns(cfg, StepOnce(cfg, e, step).value.conns)
  {
    match step
    case Recv(header, acc, events) => ReceiveIsRun(cfg, e, header, acc, events);
    case Pump(scripts, periods) => PumpIsRun(cfg, e, scripts, periods);
    case Expiry(now, expiries, failed) => ExpiryIsRun(cfg, e, now, expiries, failed);
    case Call(at, a) => StepIsRun(cfg, e.conns[at].conn, OnCall(a));
  }

  lemma {:induction false} EngineRunIsRun(cfg: Config, e: EngineState, steps: seq<EngineStep>)
    requires AllRuns(cfg, e.conns) && EngineInv(cfg, e) && AllWf(e.conns) && RunAll(cfg, e, steps).Some?
    ensures AllRuns(cfg, RunAll(cfg, e, steps).value.conns)
    decreases |steps|
  {
    if steps != [] {
      var e1 := StepOnce(cfg, e, steps[0]).value;
      EngineStepIsRun(cfg, e, steps[0]);
      StepKeepsEngine(cfg, e, steps[0]);
      EngineRunIsRun(cfg, e1, steps[1..]);
    }
  }

  /** Every connection listed after any run of the engine is itself a run from accepting
      it, so that everything that holds of every such run holds of it. */
  lemma {:induction false} EveryConnectionIsARun(cfg: Config, steps: seq<EngineStep>, i: nat)
      returns (adm: Admission, sendLeft: nat, own: seq<Step>)
    requires RunAll(cfg, NEW_ENGINE, steps).Some? && i < |RunAll(cfg, NEW_ENGINE, steps).value.conns|
    ensures Run(cfg, Accept(cfg, adm, sendLeft), own) == Some(RunAll(cfg, NEW_ENGINE, steps).value.conns[i].conn)
  {
    EngineRunIsRun(cfg, NEW_ENGINE, steps);
    var c := RunAll(cfg, NEW_ENGINE, steps).value.conns[i].conn;
    adm, sendLeft, own :| Reaches(cfg, adm, sendLeft, own, c);
  }

  // ---- expiry --------------------------------------------------------------

  /** Timers end exactly the connections that are due and that ngtcp2 gives up on, and
      change nothing else. */
  lemma {:induction false} ExpiryEndsExactlyTheDue(cfg: Config, e: EngineState, now: nat, expiries: seq<nat>,
                                                   failed: seq<bool>, i: nat)
    requires EngineInv(cfg, e) && AllWf(e.conns) && i < |e.conns|
    requires StepOnce(cfg, e, Expiry(now, expiries, failed)).Some?
    ensures var r := StepOnce(cfg, e, Expiry(now, expiries, failed)).value;
            && r == e.(conns := r.conns) && |r.conns| == |e.conns| && r.conns[i].id == e.conns[i].id
            && (r.conns[i].conn.life.closed <==> e.conns[i].conn.life.closed || (expiries[i] <= now && failed[i]))
            && r.conns[i].conn == if expiries[i] <= now && failed[i] then Apply(cfg, e.conns[i].conn, ExpiryFailed)
                                  else e.conns[i].conn
  {
    assert EntryInv(cfg, e.next, e.conns[i]);
  }

  // ---- version negotiation -------------------------------------------------

  function Replies(steps: seq<EngineStep>): nat
    decreases |steps|
  {
    if steps == [] then 0
    else (if steps[0].Recv? && steps[0].header == OtherVersion(true) then 1 else 0) + Replies(steps[1..])
  }

  /** One version negotiation packet goes out for every datagram of another version that
      can be answered, and for nothing else. */
  lemma {:induction false} RepliesFollowTheSteps(cfg: Config, e: EngineState, steps: seq<EngineStep>)
    requires AllWf(e.conns) && RunAll(cfg, e, steps).Some?
    ensures RunAll(cfg, e, steps).value.replies == e.replies + Replies(steps)
    decreases |steps|
  {
    if steps != [] {
      RepliesFollowTheSteps(cfg, StepOnce(cfg, e, steps[0]).value, steps[1..]);
    }
  }
}
