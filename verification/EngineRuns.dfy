/** What holds of an engine after every sequence of receive, pump, expiry and
    application calls. */
module EngineRuns {
  import opened Common
  import opened Connection
  import opened Engine
  import R = ConnectionRuns
  import S = StreamSend

  ghost predicate Distinct(conns: seq<Entry>)
  {
    forall i, j | 0 <= i < j < |conns| :: conns[i].id != conns[j].id
  }

  /** A listed connection between calls: known identity, at rest, and keeping everything
      a connection keeps. */
  ghost predicate EntryInv(cfg: Config, next: nat, x: Entry)
  {
    x.id < next && x.conn.life.phase == Idle && Wf(x.conn) && R.Inv(cfg, x.conn)
  }

  ghost predicate ListInv(cfg: Config, next: nat, conns: seq<Entry>)
  {
    Distinct(conns) && forall i | 0 <= i < |conns| :: EntryInv(cfg, next, conns[i])
  }

  /** Every route leads to a listed connection. */
  ghost predicate RoutesInv(routes: map<Cid, nat>, conns: seq<Entry>)
  {
    forall cid | cid in routes :: Listed(conns, routes[cid])
  }

  ghost predicate NoRepeat(ids: seq<nat>)
  {
    forall i, j | 0 <= i < j < |ids| :: ids[i] != ids[j]
  }

  /** on_conn_close was called at most once per connection, and only for connections
      that are gone. */
  ghost predicate LogInv(e: EngineState)
  {
    && NoRepeat(e.closeLog)
    && (forall id | id in e.closeLog :: id < e.next && !Listed(e.conns, id))
  }

  ghost predicate EngineInv(cfg: Config, e: EngineState)
  {
    && ListInv(cfg, e.next, e.conns)
    && RoutesInv(e.byCid, e.conns)
    && (cfg.maxConnections != 0 ==> |e.conns| <= cfg.maxConnections)
    && LogInv(e)
  }

  // ---- receiving -----------------------------------------------------------

  /** A datagram keeps the connection's invariants, can only drop its application
      context, and adds routes only to this connection. */
  lemma {:induction false} FeedKeeps(cfg: Config, id: nat, c: Conn, routes: map<Cid, nat>, events: seq<Event>, k: nat)
    requires Wf(c) && R.Inv(cfg, c) && k <= |events| && FeedFrom(cfg, id, c, routes, events, k).Some?
    ensures var (c', routes') := FeedFrom(cfg, id, c, routes, events, k).value;
            && R.Inv(cfg, c') && (c'.life.hasUd ==> c.life.hasUd)
            && forall cid | cid in routes' :: routes'[cid] == id || (cid in routes && routes'[cid] == routes[cid])
    decreases |events| - k
  {
    if k < |events| {
      var step := StepOf(events[k]);
      R.StepKeeps(cfg, c, step);
      R.StepAdvances(cfg, c, step);
      FeedKeeps(cfg, id, Apply(cfg, c, step), RouteAfter(routes, id, events[k]), events, k + 1);
    }
  }

  lemma {:induction false} UpdateListed(conns: seq<Entry>, i: nat, x: Entry, id: nat)
    requires i < |conns| && x.id == conns[i].id
    ensures Listed(conns[i := x], id) == Listed(conns, id)
  {
    var upd := conns[i := x];
    assert forall j | 0 <= j < |conns| :: upd[j].id == conns[j].id;
  }

  lemma {:induction false} FeedAtKeeps(cfg: Config, e: EngineState, i: nat, events: seq<Event>)
    requires EngineInv(cfg, e) && i < |e.conns| && AllWf(e.conns) && FeedAt(cfg, e, i, events).Some?
    ensures EngineInv(cfg, FeedAt(cfg, e, i, events).value)
  {
    var entry, e' := e.conns[i], FeedAt(cfg, e, i, events).value;
    assert EntryInv(cfg, e.next, entry);
    var begun := Apply(cfg, entry.conn, OnPacket(Begin));
    if begun.life.phase != Idle {
      R.StepKeeps(cfg, entry.conn, OnPacket(Begin));
      FeedKeeps(cfg, entry.id, begun, e.byCid, events, 0);
      forall id
        ensures Listed(e'.conns, id) == Listed(e.conns, id)
      {
        UpdateListed(e.conns, i, e'.conns[i], id);
      }
      assert Listed(e.conns, entry.id);
    }
  }

  lemma {:induction false} AdmitKeeps(cfg: Config, e: EngineState, dcid: Cid, acc: AcceptEnv)
    requires EngineInv(cfg, e) && AllWf(e.conns) && !Full(cfg, e)
    ensures EngineInv(cfg, Admit(cfg, e, dcid, acc))
  {
    var e' := Admit(cfg, e, dcid, acc);
    R.AcceptInv(cfg, acc.adm, acc.sendLeft);
    assert e'.conns[|e.conns|].id == e.next;
    assert Listed(e'.conns, e.next);
    forall id
      ensures Listed(e'.conns, id) <==> Listed(e.conns, id) || id == e.next
    {
      assert forall j | 0 <= j < |e.conns| :: e'.conns[j] == e.conns[j];
    }
    assert forall j | 0 <= j < |e.conns| :: EntryInv(cfg, e.next, e.conns[j]);
  }

  // ---- pumping -------------------------------------------------------------

  /** The write loop ends at rest, and an abrupt close that was pending is done. */
  ghost predicate Flushed(l: Life)
  {
    l.phase == Idle && (l.wantClose ==> l.closed)
  }

  lemma {:induction false} RoundKeeps(c: Conn, w: WriteStep)
    requires Wf(c) && c.life.phase == InWrite && !c.life.wantClose && WriteLegal(c, w)
    ensures ApplyWrite(c, w).life.phase == InWrite || Flushed(ApplyWrite(c, w).life)
  {
    match w
    case ReadBody(id) => R.OfferLife(c, id, S.ReadBody);
    case Frame(id, n) => R.OfferLife(c, id, S.Frame(n));
    case More(id, n, fin) => R.TakeLife(c, id, n, fin);
    case Blocked(id) => R.OfferLife(c, id, S.RefuseBlocked);
    case Shut(id) => R.OfferLife(c, id, S.RefuseShut);
    case Packet(id, n, fin, sendOk) => R.TakeLife(c, id, n, fin);
    case H3Broke(rv, emitted) => assert SendClose(FailConn(CallH3(c.life), rv), emitted).closed;
    case _ =>
  }

  lemma {:induction false} RoundsKeep(cfg: Config, c: Conn, rounds: seq<WriteStep>, k: nat)
    requires Wf(c) && R.Inv(cfg, c) && (c.life.phase == InWrite || Flushed(c.life))
    requires k <= |rounds| && Rounds(c, rounds, k).Some?
    ensures var c' := Rounds(c, rounds, k).value;
            R.Inv(cfg, c') && Flushed(c'.life) && (c'.life.hasUd ==> c.life.hasUd)
    decreases |rounds| - k
  {
    if c.life.phase == InWrite {
      var w := rounds[k];
      R.StepKeeps(cfg, c, OnWrite(w));
      R.StepAdvances(cfg, c, OnWrite(w));
      RoundKeeps(c, w);
      RoundsKeep(cfg, ApplyWrite(c, w), rounds, k + 1);
    }
  }

  lemma {:induction false} WriteKeeps(cfg: Config, c: Conn, s: WriteScript)
    requires Wf(c) && R.Inv(cfg, c) && Write(c, s).Some?
    ensures var c' := Write(c, s).value;
            R.Inv(cfg, c') && Flushed(c'.life) && (c'.life.hasUd ==> c.life.hasUd)
  {
    var start := OnWrite(Start(s.emitted));
    R.StepKeeps(cfg, c, start);
    R.StepAdvances(cfg, c, start);
    RoundsKeep(cfg, ApplyWrite(c, Start(s.emitted)), s.rounds, 0);
  }

  lemma {:induction false} WriteAllAt(conns: seq<Entry>, scripts: seq<WriteScript>, i: nat)
    requires AllWf(conns) && |scripts| == |conns| && WriteAll(conns, scripts).Some? && i < |conns|
    ensures var out := WriteAll(conns, scripts).value;
            out[i].id == conns[i].id && Write(conns[i].conn, scripts[i]) == Some(out[i].conn)
  {
    assert AllWf(conns[1..]);
    if i > 0 {
      WriteAllAt(conns[1..], scripts[1..], i - 1);
    }
  }

  lemma {:induction false} AddRoutesValues(routes: map<Cid, nat>, id: nat, cids: seq<Cid>)
    ensures var r := AddRoutes(routes, id, cids);
            forall cid | cid in r :: r[cid] == id || (cid in routes && r[cid] == routes[cid])
    decreases |cids|
  {
    if cids != [] {
      var more := routes[cids[0] := id];
      AddRoutesValues(more, id, cids[1..]);
      var r := AddRoutes(routes, id, cids);
      assert r == AddRoutes(more, id, cids[1..]);
      forall cid | cid in r
        ensures r[cid] == id || (cid in routes && r[cid] == routes[cid])
      {
        assert r[cid] == id || (cid in more && r[cid] == more[cid]);
      }
    }
  }

  /** Which connections survive: exactly the ones that are not dead, each once. */
  lemma {:induction false} SurvivorsExactly(conns: seq<Entry>, periods: seq<bool>)
    requires |periods| == |conns| && Distinct(conns)
    ensures Distinct(Survivors(conns, periods))
    ensures forall x :: x in Survivors(conns, periods)
                        <==> exists i | 0 <= i < |conns| :: conns[i] == x && !Dead(conns[i].conn, periods[i])
  {
    if conns != [] {
      var rest := Survivors(conns[1..], periods[1..]);
      assert Distinct(conns[1..]);
      SurvivorsExactly(conns[1..], periods[1..]);
      forall x
        ensures x in Survivors(conns, periods)
                <==> exists i | 0 <= i < |conns| :: conns[i] == x && !Dead(conns[i].conn, periods[i])
      {
        if x in rest {
          var i :| 0 <= i < |conns[1..]| && conns[1..][i] == x && !Dead(conns[1..][i].conn, periods[1..][i]);
          assert conns[i + 1] == x && !Dead(conns[i + 1].conn, periods[i + 1]);
        }
        if i :| 0 <= i < |conns| && conns[i] == x && !Dead(conns[i].conn, periods[i]) {
          if i > 0 {
            assert conns[1..][i - 1] == x && !Dead(conns[1..][i - 1].conn, periods[1..][i - 1]);
          }
        }
      }
      forall k | 0 <= k < |rest|
        ensures rest[k].id != conns[0].id
      {
        assert rest[k] in rest;
        var i :| 0 <= i < |conns[1..]| && conns[1..][i] == rest[k];
        assert conns[i + 1] == rest[k];
      }
    }
  }

  /** How many of the first i connections stay: the place connection i gets. */
  function Place(conns: seq<Entry>, periods: seq<bool>, i: nat): nat
    requires |periods| == |conns| && i <= |conns|
    decreases i
  {
    if i == 0 then 0
    else Place(conns, periods, i - 1) + if Dead(conns[i - 1].conn, periods[i - 1]) then 0 else 1
  }

  lemma {:induction false} PlaceInTail(conns: seq<Entry>, periods: seq<bool>, i: nat)
    requires |periods| == |conns| && 0 < i <= |conns|
    ensures Place(conns, periods, i)
            == Place(conns[1..], periods[1..], i - 1) + if Dead(conns[0].conn, periods[0]) then 0 else 1
    decreases i
  {
    if i == 1 {
      assert Place(conns, periods, 0) == 0;
    } else {
      PlaceInTail(conns, periods, i - 1);
    }
  }

  lemma {:induction false} SurvivorAtPlace(conns: seq<Entry>, periods: seq<bool>, i: nat)
    requires |periods| == |conns| && i < |conns| && !Dead(conns[i].conn, periods[i])
    ensures Place(conns, periods, i) < |Survivors(conns, periods)|
    ensures Survivors(conns, periods)[Place(conns, periods, i)] == conns[i]
  {
    if i > 0 {
      PlaceInTail(conns, periods, i);
      SurvivorAtPlace(conns[1..], periods[1..], i - 1);
    }
  }

  lemma {:induction false} PlaceGrows(conns: seq<Entry>, periods: seq<bool>, i: nat, j: nat)
    requires |periods| == |conns| && i < j <= |conns| && !Dead(conns[i].conn, periods[i])
    ensures Place(conns, periods, i) < Place(conns, periods, j)
    decreases j
  {
    if i < j - 1 {
      PlaceGrows(conns, periods, i, j - 1);
    }
  }

  /** They keep their order: of two that stay, the earlier one stays earlier. */
  lemma {:induction false} SurvivorsKeepOrder(conns: seq<Entry>, periods: seq<bool>, i: nat, j: nat)
    requires |periods| == |conns| && i < j < |conns|
    requires !Dead(conns[i].conn, periods[i]) && !Dead(conns[j].conn, periods[j])
    ensures var k, l := Place(conns, periods, i), Place(conns, periods, j);
            && k < l < |Survivors(conns, periods)|
            && Survivors(conns, periods)[k] == conns[i] && Survivors(conns, periods)[l] == conns[j]
  {
    PlaceGrows(conns, periods, i, j);
    SurvivorAtPlace(conns, periods, i);
    SurvivorAtPlace(conns, periods, j);
  }

  /** Connection i is reaped with its context: on_conn_close is due for `id`. */
  predicate CloseDue(conns: seq<Entry>, periods: seq<bool>, i: nat, id: nat)
    requires |periods| == |conns| && i < |conns|
  {
    conns[i].id == id && Dead(conns[i].conn, periods[i]) && conns[i].conn.life.hasUd
  }

  lemma {:induction false} CloseCallsDue(conns: seq<Entry>, periods: seq<bool>, id: nat) returns (i: nat)
    requires |periods| == |conns| && id in CloseCalls(conns, periods)
    ensures i < |conns| && CloseDue(conns, periods, i, id)
  {
    var rest := CloseCalls(conns[1..], periods[1..]);
    if id in rest {
      i := CloseCallsDue(conns[1..], periods[1..], id);
      i := i + 1;
    } else {
      i := 0;
    }
  }

  /** on_conn_close is called once for each dead connection that has a context. */
  lemma {:induction false} CloseCallsOnce(conns: seq<Entry>, periods: seq<bool>)
    requires |periods| == |conns| && Distinct(conns)
    ensures NoRepeat(CloseCalls(conns, periods))
  {
    if conns != [] {
      var rest := CloseCalls(conns[1..], periods[1..]);
      assert Distinct(conns[1..]);
      CloseCallsOnce(conns[1..], periods[1..]);
      forall k | 0 <= k < |rest|
        ensures rest[k] != conns[0].id
      {
        var i := CloseCallsDue(conns[1..], periods[1..], rest[k]);
        assert conns[i + 1].id == rest[k];
      }
    }
  }

  /** After the write pass every connection keeps its invariants and is flushed. */
  lemma {:induction false} WrittenInv(cfg: Config, e: EngineState, scripts: seq<WriteScript>, written: seq<Entry>)
    requires ListInv(cfg, e.next, e.conns) && AllWf(e.conns) && |scripts| == |e.conns|
    requires WriteAll(e.conns, scripts) == Some(written)
    ensures ListInv(cfg, e.next, written)
    ensures forall i | 0 <= i < |written| :: written[i].id == e.conns[i].id && Flushed(written[i].conn.life)
                                             && (written[i].conn.life.hasUd ==> e.conns[i].conn.life.hasUd)
  {
    forall i | 0 <= i < |written|
      ensures written[i].id == e.conns[i].id && Flushed(written[i].conn.life) && EntryInv(cfg, e.next, written[i])
      ensures written[i].conn.life.hasUd ==> e.conns[i].conn.life.hasUd
    {
      WriteAllAt(e.conns, scripts, i);
      assert EntryInv(cfg, e.next, e.conns[i]);
      WriteKeeps(cfg, e.conns[i].conn, scripts[i]);
    }
  }

  /** Survivors are listed connections, with what they keep. */
  lemma {:induction false} SurvivorsInv(cfg: Config, next: nat, conns: seq<Entry>, periods: seq<bool>)
    requires ListInv(cfg, next, conns) && |periods| == |conns|
    ensures ListInv(cfg, next, Survivors(conns, periods))
    ensures forall id | Listed(Survivors(conns, periods), id) :: Listed(conns, id)
  {
    var kept := Survivors(conns, periods);
    SurvivorsExactly(conns, periods);
    forall k | 0 <= k < |kept|
      ensures EntryInv(cfg, next, kept[k]) && Listed(conns, kept[k].id)
    {
      assert kept[k] in kept;
      var i :| 0 <= i < |conns| && conns[i] == kept[k];
      assert EntryInv(cfg, next, conns[i]);
    }
  }

  /** A connection on_conn_close is called for was listed and does not survive. */
  lemma {:induction false} CalledIsGone(conns: seq<Entry>, periods: seq<bool>, id: nat)
    requires Distinct(conns) && |periods| == |conns| && id in CloseCalls(conns, periods)
    ensures Listed(conns, id) && !Listed(Survivors(conns, periods), id)
  {
    var i := CloseCallsDue(conns, periods, id);
    var kept := Survivors(conns, periods);
    SurvivorsExactly(conns, periods);
    forall k | 0 <= k < |kept|
      ensures kept[k].id != id
    {
      assert kept[k] in kept;
      var j :| 0 <= j < |conns| && conns[j] == kept[k] && !Dead(conns[j].conn, periods[j]);
      assert j != i;
    }
  }

  lemma {:induction false} SameIdsListed(a: seq<Entry>, b: seq<Entry>, id: nat)
    requires |a| == |b| && forall i | 0 <= i < |a| :: a[i].id == b[i].id
    ensures Listed(a, id) == Listed(b, id)
  {
  }

  lemma {:induction false} PumpLog(cfg: Config, e: EngineState, written: seq<Entry>, periods: seq<bool>)
    requires EngineInv(cfg, e) && |written| == |e.conns| == |periods| && ListInv(cfg, e.next, written)
    requires forall i | 0 <= i < |written| :: written[i].id == e.conns[i].id
    ensures LogInv(e.(conns := Survivors(written, periods), closeLog := e.closeLog + CloseCalls(written, periods)))
  {
    var calls := CloseCalls(written, periods);
    CloseCallsOnce(written, periods);
    SurvivorsInv(cfg, e.next, written, periods);
    forall id | id in calls
      ensures id !in e.closeLog && id < e.next && !Listed(Survivors(written, periods), id)
    {
      CalledIsGone(written, periods, id);
      SameIdsListed(written, e.conns, id);
      var i :| 0 <= i < |written| && written[i].id == id;
      assert EntryInv(cfg, e.next, written[i]);
    }
    forall id | id in e.closeLog
      ensures !Listed(Survivors(written, periods), id)
    {
      SameIdsListed(written, e.conns, id);
    }
    LogGrows(e.closeLog, calls);
  }

  /** Writing adds routes only to listed connections. */
  lemma {:induction false} RoutesStay(routes: map<Cid, nat>, conns: seq<Entry>, scripts: seq<WriteScript>, i: nat,
                                      all: seq<Entry>)
    requires |scripts| == |conns| && i <= |conns|
    requires RoutesInv(routes, all)
    requires forall j | 0 <= j < |conns| :: Listed(all, conns[j].id)
    ensures RoutesInv(RoutesAfterWrites(routes, conns, scripts, i), all)
    decreases |conns| - i
  {
    if i < |conns| {
      var more := AddRoutes(routes, conns[i].id, scripts[i].cids);
      AddRoutesValues(routes, conns[i].id, scripts[i].cids);
      forall cid | cid in more
        ensures Listed(all, more[cid])
      {
        assert more[cid] == conns[i].id || (cid in routes && more[cid] == routes[cid]);
      }
      RoutesStay(more, conns, scripts, i + 1, all);
    }
  }

  /** A listed connection that was not reaped is a survivor. */
  lemma {:induction false} NotReapedIsKept(all: seq<Entry>, periods: seq<bool>, id: nat)
    requires |periods| == |all| && Distinct(all) && Listed(all, id) && id !in DeadIds(all, periods)
    ensures Listed(Survivors(all, periods), id)
  {
    SurvivorsExactly(all, periods);
    var i :| 0 <= i < |all| && all[i].id == id;
    assert all[i] in Survivors(all, periods);
  }

  /** Erasing the routes to the reaped connections leaves only routes to listed ones. */
  lemma {:induction false} PumpRoutes(e: EngineState, scripts: seq<WriteScript>, written: seq<Entry>,
                                      periods: seq<bool>)
    requires RoutesInv(e.byCid, e.conns) && Distinct(written) && |written| == |e.conns| == |periods| == |scripts|
    requires forall i | 0 <= i < |written| :: written[i].id == e.conns[i].id
    ensures var routes := RoutesAfterWrites(e.byCid, e.conns, scripts, 0);
            RoutesInv(EraseRoutes(routes, DeadIds(written, periods)), Survivors(written, periods))
  {
    var routes := RoutesAfterWrites(e.byCid, e.conns, scripts, 0);
    RoutesStay(e.byCid, e.conns, scripts, 0, e.conns);
    var kept := EraseRoutes(routes, DeadIds(written, periods));
    forall cid | cid in kept
      ensures Listed(Survivors(written, periods), kept[cid])
    {
      SameIdsListed(written, e.conns, kept[cid]);
      NotReapedIsKept(written, periods, kept[cid]);
    }
  }

  /** What a pump leaves keeps everything: routes only to listed connections, and one
      more on_conn_close for exactly the reaped ones that still had a context. */
  lemma {:induction false} PumpKeeps(cfg: Config, e: EngineState, scripts: seq<WriteScript>, periods: seq<bool>)
    requires EngineInv(cfg, e) && AllWf(e.conns) && PumpAll(e, scripts, periods).Some?
    ensures EngineInv(cfg, PumpAll(e, scripts, periods).value)
  {
    var written := WriteAll(e.conns, scripts).value;
    WrittenInv(cfg, e, scripts, written);
    SurvivorsInv(cfg, e.next, written, periods);
    PumpLog(cfg, e, written, periods);
    PumpRoutes(e, scripts, written, periods);
  }

  lemma {:induction false} LogGrows(log: seq<nat>, calls: seq<nat>)
    requires NoRepeat(log) && NoRepeat(calls)
    requires forall id | id in calls :: id !in log
    ensures NoRepeat(log + calls)
  {
    var all := log + calls;
    forall i, j | 0 <= i < j < |all|
      ensures all[i] != all[j]
    {
      if i < |log| <= j {
        assert all[i] in log && all[j] in calls;
      }
    }
  }

  /** After a pump no listed connection is closing, closed, draining, or waiting to emit
      a close. */
  lemma {:induction false} PumpReapsEveryEndingConnection(cfg: Config, e: EngineState, scripts: seq<WriteScript>,
                                                          periods: seq<bool>, k: nat)
    requires EngineInv(cfg, e) && AllWf(e.conns) && PumpAll(e, scripts, periods).Some?
    requires k < |PumpAll(e, scripts, periods).value.conns|
    ensures var l := PumpAll(e, scripts, periods).value.conns[k].conn.life;
            !l.closed && !l.draining && !l.wantClose && l.phase == Idle
    ensures var x := PumpAll(e, scripts, periods).value.conns[k];
            exists i | 0 <= i < |periods| :: !periods[i] && e.conns[i].id == x.id
  {
    var written := WriteAll(e.conns, scripts).value;
    var x := PumpAll(e, scripts, periods).value.conns[k];
    WrittenInv(cfg, e, scripts, written);
    SurvivorsExactly(written, periods);
    assert x in Survivors(written, periods);
    var i :| 0 <= i < |written| && written[i] == x && !Dead(written[i].conn, periods[i]);
    assert Flushed(written[i].conn.life);
    assert !periods[i] && e.conns[i].id == x.id;
  }

  // ---- every run -----------------------------------------------------------

  lemma {:induction false} StepKeepsEngine(cfg: Config, e: EngineState, step: EngineStep)
    requires EngineInv(cfg, e) && AllWf(e.conns) && StepOnce(cfg, e, step).Some?
    ensures EngineInv(cfg, StepOnce(cfg, e, step).value)
  {
    match step
    case Recv(header, acc, events) => ReceiveKeeps(cfg, e, header, acc, events);
    case Pump(scripts, periods) => PumpKeeps(cfg, e, scripts, periods);
    case Expiry(now, expiries, failed) => ExpiryKeeps(cfg, e, now, expiries, failed);
    case Call(at, a) => CallKeeps(cfg, e, at, a);
  }

  lemma {:induction false} ReceiveKeeps(cfg: Config, e: EngineState, header: Header, acc: AcceptEnv, events: seq<Event>)
    requires EngineInv(cfg, e) && AllWf(e.conns) && Receive(cfg, e, header, acc, events).Some?
    ensures EngineInv(cfg, Receive(cfg, e, header, acc, events).value)
  {
    if header.ForId? {
      var dcid := header.dcid;
      if dcid in e.byCid {
        FeedAtKeeps(cfg, e, IndexOf(e.conns, e.byCid[dcid]), events);
      } else if acc.initial && !Full(cfg, e) && acc.ready {
        AdmitKeeps(cfg, e, dcid, acc);
        FeedAtKeeps(cfg, Admit(cfg, e, dcid, acc), |e.conns|, events);
      }
    }
  }

  lemma {:induction false} ExpiryKeeps(cfg: Config, e: EngineState, now: nat, expiries: seq<nat>, failed: seq<bool>)
    requires EngineInv(cfg, e) && |failed| == |expiries| == |e.conns|
    ensures EngineInv(cfg, e.(conns := ExpireAll(e.conns, now, expiries, failed)))
  {
    var conns := ExpireAll(e.conns, now, expiries, failed);
    forall i | 0 <= i < |conns|
      ensures conns[i].id == e.conns[i].id && EntryInv(cfg, e.next, conns[i])
    {
      assert EntryInv(cfg, e.next, e.conns[i]);
      R.StepKeeps(cfg, e.conns[i].conn, ExpiryFailed);
    }
    forall id
      ensures Listed(conns, id) == Listed(e.conns, id)
    {
    }
  }

  lemma {:induction false} CallKeeps(cfg: Config, e: EngineState, at: nat, a: AppStep)
    requires EngineInv(cfg, e) && AllWf(e.conns) && at < |e.conns| && Legal(e.conns[at].conn, OnCall(a))
    ensures var x := e.conns[at].(conn := Apply(cfg, e.conns[at].conn, OnCall(a)));
            EngineInv(cfg, e.(conns := e.conns[at := x]))
  {
    var x := e.conns[at].(conn := Apply(cfg, e.conns[at].conn, OnCall(a)));
    assert EntryInv(cfg, e.next, e.conns[at]);
    R.StepKeeps(cfg, e.conns[at].conn, OnCall(a));
    CallStaysIdle(cfg, e.conns[at].conn, a);
    forall id
      ensures Listed(e.conns[at := x], id) == Listed(e.conns, id)
    {
      UpdateListed(e.conns, at, x, id);
    }
  }

  lemma {:induction false} CallStaysIdle(cfg: Config, c: Conn, a: AppStep)
    requires Wf(c) && Legal(c, OnCall(a)) && c.life.phase == Idle
    ensures Apply(cfg, c, OnCall(a)).life.phase == Idle
  {
    R.CallKeepsPhase(c, a);
  }

  lemma {:induction false} EngineRunKeeps(cfg: Config, e: EngineState, steps: seq<EngineStep>)
    requires EngineInv(cfg, e) && AllWf(e.conns) && RunAll(cfg, e, steps).Some?
    ensures EngineInv(cfg, RunAll(cfg, e, steps).value)
    decreases |steps|
  {
    if steps != [] {
      StepKeepsEngine(cfg, e, steps[0]);
      EngineRunKeeps(cfg, StepOnce(cfg, e, steps[0]).value, steps[1..]);
    }
  }

  /** Routing soundness in every reachable engine: each connection ID leads to a listed
      connection, so a lookup never meets one that was reaped; the list respects a
      configured limit; no connection is listed twice; and on_conn_close was called at
      most once per connection, and only for connections that are gone. */
  lemma {:induction false} RoutingIsSound(cfg: Config, steps: seq<EngineStep>)
    requires RunAll(cfg, NEW_ENGINE, steps).Some?
    ensures var e := RunAll(cfg, NEW_ENGINE, steps).value;
            && (forall cid | cid in e.byCid :: IndexOf(e.conns, e.byCid[cid]) < |e.conns|)
            && (cfg.maxConnections != 0 ==> |e.conns| <= cfg.maxConnections)
            && Distinct(e.conns)
            && LogInv(e)
  {
    EngineRunKeeps(cfg, NEW_ENGINE, steps);
    var e := RunAll(cfg, NEW_ENGINE, steps).value;
    forall cid | cid in e.byCid
      ensures IndexOf(e.conns, e.byCid[cid]) < |e.conns|
    {
      assert Listed(e.conns, e.byCid[cid]);
    }
  }

  // ---- no callback into a freed context --------------------------------------

  /** on_conn_close has not been called for `id`, and can no longer be. */
  ghost predicate Released(e: EngineState, id: nat)
  {
    && id < e.next && id !in e.closeLog
    && forall i | 0 <= i < |e.conns| && e.conns[i].id == id :: !e.conns[i].conn.life.hasUd
  }

  lemma {:induction false} FeedAtReleased(cfg: Config, e: EngineState, i: nat, events: seq<Event>, id: nat)
    requires EngineInv(cfg, e) && AllWf(e.conns) && i < |e.conns| && Released(e, id)
    requires FeedAt(cfg, e, i, events).Some?
    ensures Released(FeedAt(cfg, e, i, events).value, id)
  {
    var entry := e.conns[i];
    assert EntryInv(cfg, e.next, entry);
    var begun := Apply(cfg, entry.conn, OnPacket(Begin));
    if begun.life.phase != Idle {
      R.StepKeeps(cfg, entry.conn, OnPacket(Begin));
      FeedKeeps(cfg, entry.id, begun, e.byCid, events, 0);
    }
  }

  lemma {:induction false} NotCalledWithoutContext(conns: seq<Entry>, periods: seq<bool>, id: nat)
    requires |periods| == |conns| && forall i | 0 <= i < |conns| && conns[i].id == id :: !conns[i].conn.life.hasUd
    ensures id !in CloseCalls(conns, periods)
  {
    if conns != [] {
      NotCalledWithoutContext(conns[1..], periods[1..], id);
    }
  }

  lemma {:induction false} PumpReleased(cfg: Config, e: EngineState, scripts: seq<WriteScript>, periods: seq<bool>,
                                        id: nat)
    requires EngineInv(cfg, e) && AllWf(e.conns) && Released(e, id) && PumpAll(e, scripts, periods).Some?
    ensures Released(PumpAll(e, scripts, periods).value, id)
  {
    var written := WriteAll(e.conns, scripts).value;
    var e' := PumpAll(e, scripts, periods).value;
    WrittenInv(cfg, e, scripts, written);
    SurvivorsExactly(written, periods);
    NotCalledWithoutContext(written, periods, id);
    forall k | 0 <= k < |e'.conns| && e'.conns[k].id == id
      ensures !e'.conns[k].conn.life.hasUd
    {
      assert e'.conns[k] in e'.conns;
      var i :| 0 <= i < |written| && written[i] == e'.conns[k];
      assert e.conns[i].id == id;
    }
  }

  lemma {:induction false} AdmitReleased(cfg: Config, e: EngineState, dcid: Cid, acc: AcceptEnv, id: nat)
    requires AllWf(e.conns) && Released(e, id)
    ensures Released(Admit(cfg, e, dcid, acc), id)
  {
  }

  lemma {:induction false} ReceiveReleased(cfg: Config, e: EngineState, header: Header, acc: AcceptEnv,
                                           events: seq<Event>, id: nat)
    requires EngineInv(cfg, e) && AllWf(e.conns) && Released(e, id) && Receive(cfg, e, header, acc, events).Some?
    ensures Released(Receive(cfg, e, header, acc, events).value, id)
  {
    if header.ForId? {
      var dcid := header.dcid;
      if dcid in e.byCid {
        FeedAtReleased(cfg, e, IndexOf(e.conns, e.byCid[dcid]), events, id);
      } else if acc.initial && !Full(cfg, e) && acc.ready {
        AdmitKeeps(cfg, e, dcid, acc);
        AdmitReleased(cfg, e, dcid, acc, id);
        FeedAtReleased(cfg, Admit(cfg, e, dcid, acc), |e.conns|, events, id);
      }
    }
  }

  lemma {:induction false} CallReleased(cfg: Config, e: EngineState, at: nat, a: AppStep, id: nat)
    requires EngineInv(cfg, e) && AllWf(e.conns) && Released(e, id) && StepOnce(cfg, e, Call(at, a)).Some?
    ensures Released(StepOnce(cfg, e, Call(at, a)).value, id)
  {
    assert EntryInv(cfg, e.next, e.conns[at]);
    R.StepAdvances(cfg, e.conns[at].conn, OnCall(a));
  }

  lemma {:induction false} StepReleased(cfg: Config, e: EngineState, step: EngineStep, id: nat)
    requires EngineInv(cfg, e) && AllWf(e.conns) && Released(e, id) && StepOnce(cfg, e, step).Some?
    ensures Released(StepOnce(cfg, e, step).value, id)
  {
    match step
    case Recv(header, acc, events) => ReceiveReleased(cfg, e, header, acc, events, id);
    case Pump(scripts, periods) => PumpReleased(cfg, e, scripts, periods, id);
    case Expiry(_, _, _) =>
    case Call(at, a) => CallReleased(cfg, e, at, a, id);
  }

  lemma {:induction false} RunReleased(cfg: Config, e: EngineState, steps: seq<EngineStep>, id: nat)
    requires EngineInv(cfg, e) && AllWf(e.conns) && Released(e, id) && RunAll(cfg, e, steps).Some?
    ensures Released(RunAll(cfg, e, steps).value, id)
    decreases |steps|
  {
    if steps != [] {
      StepReleased(cfg, e, steps[0], id);
      StepKeepsEngine(cfg, e, steps[0]);
      RunReleased(cfg, StepOnce(cfg, e, steps[0]).value, steps[1..], id);
    }
  }

  predicate IsHardClose(step: Step)
  {
    step.OnCall? && step.a.CloseAbrupt?
  }

  /** The connection a datagram is given to, if it is given to one. */
  function FedId(cfg: Config, e: EngineState, header: Header, acc: AcceptEnv): Option<nat>
  {
    if !header.ForId? then None
    else if header.dcid in e.byCid then
      var i := IndexOf(e.conns, e.byCid[header.dcid]);
      if i < |e.conns| && !Ending(e.conns[i].conn) then Some(e.conns[i].id) else None
    else if acc.initial && !Full(cfg, e) && acc.ready && !acc.adm.Rejected? then Some(e.next)
    else None
  }

  predicate Ending(c: Conn)
  {
    c.life.wantClose || c.life.closed
  }

  /** The application calls vq_conn_close on connection `id` in this step: between
      datagrams, or from inside a callback of the datagram the connection is fed. */
  predicate HardCloses(cfg: Config, e: EngineState, step: EngineStep, id: nat)
  {
    match step
    case Call(at, a) => at < |e.conns| && e.conns[at].id == id && IsHardClose(OnCall(a))
    case Recv(header, acc, events) =>
      && FedId(cfg, e, header, acc) == Some(id)
      && exists k | 0 <= k < |events| :: IsHardClose(StepOf(events[k]))
    case _ => false
  }

  /** A hard close while the datagram is parsed leaves no context at its end. */
  lemma {:induction false} FeedReleases(cfg: Config, id: nat, c: Conn, routes: map<Cid, nat>, events: seq<Event>,
                                        k: nat, at: nat)
    requires Wf(c) && R.Inv(cfg, c) && k <= at < |events| && FeedFrom(cfg, id, c, routes, events, k).Some?
    requires IsHardClose(StepOf(events[at]))
    ensures !FeedFrom(cfg, id, c, routes, events, k).value.0.life.hasUd
    decreases |events| - k
  {
    var step := StepOf(events[k]);
    R.StepKeeps(cfg, c, step);
    var c1, routes1 := Apply(cfg, c, step), RouteAfter(routes, id, events[k]);
    if k == at {
      FeedKeeps(cfg, id, c1, routes1, events, k + 1);
    } else {
      FeedReleases(cfg, id, c1, routes1, events, k + 1, at);
    }
  }

  lemma {:induction false} FeedAtReleases(cfg: Config, e: EngineState, i: nat, events: seq<Event>, k: nat)
    requires EngineInv(cfg, e) && AllWf(e.conns) && i < |e.conns| && FeedAt(cfg, e, i, events).Some?
    requires !Ending(e.conns[i].conn) && k < |events| && IsHardClose(StepOf(events[k]))
    ensures Released(FeedAt(cfg, e, i, events).value, e.conns[i].id)
  {
    var entry := e.conns[i];
    assert EntryInv(cfg, e.next, entry);
    assert Listed(e.conns, entry.id);
    R.StepKeeps(cfg, entry.conn, OnPacket(Begin));
    FeedReleases(cfg, entry.id, Apply(cfg, entry.conn, OnPacket(Begin)), e.byCid, events, 0, k);
  }

  lemma {:induction false} CallReleases(cfg: Config, e: EngineState, at: nat, code: nat)
    requires EngineInv(cfg, e) && AllWf(e.conns) && at < |e.conns|
    requires StepOnce(cfg, e, Call(at, CloseAbrupt(code))).Some?
    ensures Released(StepOnce(cfg, e, Call(at, CloseAbrupt(code))).value, e.conns[at].id)
  {
    assert EntryInv(cfg, e.next, e.conns[at]);
    assert Listed(e.conns, e.conns[at].id);
  }

  lemma {:induction false} ReceiveReleases(cfg: Config, e: EngineState, header: Header, acc: AcceptEnv,
                                           events: seq<Event>, k: nat)
    requires EngineInv(cfg, e) && AllWf(e.conns) && Receive(cfg, e, header, acc, events).Some?
    requires FedId(cfg, e, header, acc).Some? && k < |events| && IsHardClose(StepOf(events[k]))
    ensures Released(Receive(cfg, e, header, acc, events).value, FedId(cfg, e, header, acc).value)
  {
    var dcid := header.dcid;
    if dcid in e.byCid {
      FeedAtReleases(cfg, e, IndexOf(e.conns, e.byCid[dcid]), events, k);
    } else {
      AdmitKeeps(cfg, e, dcid, acc);
      FeedAtReleases(cfg, Admit(cfg, e, dcid, acc), |e.conns|, events, k);
    }
  }

  lemma {:induction false} HardCloseReleases(cfg: Config, e: EngineState, step: EngineStep, id: nat)
    requires EngineInv(cfg, e) && AllWf(e.conns) && HardCloses(cfg, e, step, id) && StepOnce(cfg, e, step).Some?
    ensures Released(StepOnce(cfg, e, step).value, id)
  {
    if step.Call? {
      CallReleases(cfg, e, step.at, step.a.code);
    } else {
      var k :| 0 <= k < |step.events| && IsHardClose(StepOf(step.events[k]));
      ReceiveReleases(cfg, e, step.header, step.acc, step.events, k);
    }
  }

  /** vq_conn_close frees the application's context: wherever it is called, and however
      the engine runs on, on_conn_close is never called for that connection. */
  lemma {:induction false} NoCloseCallbackAfterHardClose(cfg: Config, before: seq<EngineStep>, step: EngineStep,
                                                         id: nat, after: seq<EngineStep>)
    requires RunAll(cfg, NEW_ENGINE, before).Some?
    requires var e := RunAll(cfg, NEW_ENGINE, before).value;
             var closed := StepOnce(cfg, e, step);
             HardCloses(cfg, e, step, id) && closed.Some? && RunAll(cfg, closed.value, after).Some?
    ensures var e := RunAll(cfg, NEW_ENGINE, before).value;
            id !in RunAll(cfg, StepOnce(cfg, e, step).value, after).value.closeLog
  {
    EngineRunKeeps(cfg, NEW_ENGINE, before);
    var e := RunAll(cfg, NEW_ENGINE, before).value;
    StepKeepsEngine(cfg, e, step);
    HardCloseReleases(cfg, e, step, id);
    RunReleased(cfg, StepOnce(cfg, e, step).value, after, id);
  }

  // ---- no datagram for a connection that is ending ---------------------------

  lemma {:induction false} FeedAtLeaves(cfg: Config, e: EngineState, j: nat, events: seq<Event>, i: nat)
    requires AllWf(e.conns) && j < |e.conns| && i < |e.conns| && Ending(e.conns[i].conn)
    requires FeedAt(cfg, e, j, events).Some?
    ensures var e' := FeedAt(cfg, e, j, events).value; |e'.conns| == |e.conns| && e'.conns[i] == e.conns[i]
  {
  }

  lemma {:induction false} ReceiveLeaves(cfg: Config, e: EngineState, header: Header, acc: AcceptEnv,
                                         events: seq<Event>, i: nat)
    requires AllWf(e.conns) && i < |e.conns| && Ending(e.conns[i].conn) && Receive(cfg, e, header, acc, events).Some?
    ensures var e' := Receive(cfg, e, header, acc, events).value; i < |e'.conns| && e'.conns[i] == e.conns[i]
  {
    if header.ForId? {
      var dcid := header.dcid;
      if dcid in e.byCid {
        FeedAtLeaves(cfg, e, IndexOf(e.conns, e.byCid[dcid]), events, i);
      } else if acc.initial && !Full(cfg, e) && acc.ready {
        FeedAtLeaves(cfg, Admit(cfg, e, dcid, acc), |e.conns|, events, i);
      }
    }
  }

  /** In every reachable engine a connection whose reset count is past the budget, that
      wants to close or that is closed, is left exactly as it is by any datagram. */
  lemma {:induction false} EndingConnectionIsNotFed(cfg: Config, steps: seq<EngineStep>, i: nat, header: Header,
                                                    acc: AcceptEnv,
                                                    events: seq<Event>)
    requires RunAll(cfg, NEW_ENGINE, steps).Some?
    requires var e := RunAll(cfg, NEW_ENGINE, steps).value;
             && i < |e.conns| && Receive(cfg, e, header, acc, events).Some?
             && (Ending(e.conns[i].conn) || (cfg.maxResetStreams > 0
               && e.conns[i].conn.resetCount > cfg.maxResetStreams))
    ensures var e := RunAll(cfg, NEW_ENGINE, steps).value;
            var e' := Receive(cfg, e, header, acc, events).value;
            i < |e'.conns| && e'.conns[i] == e.conns[i]
  {
    EngineRunKeeps(cfg, NEW_ENGINE, steps);
    var e := RunAll(cfg, NEW_ENGINE, steps).value;
    assert EntryInv(cfg, e.next, e.conns[i]);
    ReceiveLeaves(cfg, e, header, acc, events, i);
  }
}
