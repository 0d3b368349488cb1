/** The engine object: the list of connection objects and the table that routes to them,
    changed in place by receive, pump and expiry, proved against the engine's steps. */
module EngineObject {
  import opened Common
  import opened Connection
  import opened Engine
  import opened ConnObject
  import ER = EngineRuns
  import R = ConnectionRuns
  import T = TicketKeys

  // ---- objects and what they stand for -------------------------------------

  ghost function EntryOf(c: VqConn): Entry
    reads c
  {
    Entry(c.id, c.State())
  }

  ghost predicate StandsFor(c: VqConn, x: Entry)
    reads c
  {
    EntryOf(c) == x
  }

  ghost function Entries(conns: seq<VqConn>): (r: seq<Entry>)
    reads conns
    ensures |r| == |conns| && forall i | 0 <= i < |conns| :: r[i] == EntryOf(conns[i])
  {
    seq(|conns|, i requires 0 <= i < |conns| reads conns => EntryOf(conns[i]))
  }

  ghost function Routes(byCid: map<Cid, VqConn>): map<Cid, nat>
  {
    map cid | cid in byCid :: byCid[cid].id
  }

  ghost predicate RoutesInto(byCid: map<Cid, VqConn>, conns: seq<VqConn>)
  {
    forall cid {:trigger cid in byCid} | cid in byCid :: byCid[cid] in conns
  }

  /** The objects are different ones, at rest and valid. */
  ghost predicate AtRest(cfg: Config, conns: seq<VqConn>)
    reads conns
  {
    NoAlias(conns) && forall i: nat {:trigger RestsAt(cfg, conns, i)} | i < |conns| :: RestsAt(cfg, conns, i)
  }

  ghost predicate NoAlias(conns: seq<VqConn>)
  {
    forall i: nat, j: nat {:trigger Apart(conns, i, j)} | i < j < |conns| :: Apart(conns, i, j)
  }

  ghost predicate Apart(conns: seq<VqConn>, i: nat, j: nat)
    requires i < |conns| && j < |conns|
  {
    conns[i] != conns[j]
  }

  ghost predicate RestsAt(cfg: Config, conns: seq<VqConn>, i: nat)
    requires i < |conns|
    reads conns[i]
  {
    conns[i].Valid(cfg) && conns[i].phase == Idle
  }

  /** No two of the objects share an identity. */
  ghost predicate OwnIds(conns: seq<VqConn>)
  {
    forall a, b {:trigger OwnId(a, b)} | a in conns && b in conns :: OwnId(a, b)
  }

  ghost predicate OwnId(a: VqConn, b: VqConn)
  {
    a.id == b.id ==> a == b
  }

  class VqEngine {
    var conns: seq<VqConn>
    var byCid: map<Cid, VqConn>
    ghost var next: nat
    ghost var closeLog: seq<nat>
    ghost var replies: nat

    ghost function State(): EngineState
      reads this, conns
    {
      EngineState(Entries(conns), Routes(byCid), next, closeLog, replies)
    }

    /** What every step keeps: the engine's invariants, and routes to listed objects. */
    ghost predicate Valid(cfg: Config)
      reads this, conns
    {
      ER.EngineInv(cfg, State()) && AllWf(State().conns) && RoutesInto(byCid, conns)
    }

    constructor (ghost cfg: Config)
      ensures Valid(cfg) && State() == NEW_ENGINE && conns == []
    {
      conns, byCid, next, closeLog, replies := [], map[], 0, [], 0;
      new;
      assert Entries([]) == [] && Routes(map[]) == map[];
    }

    // ---- receiving ---------------------------------------------------------

    /** One callback of the datagram being parsed, or a call made from inside it. */
    method Handle(cfg: Config, c: VqConn, ev: Event)
      requires c.Valid(cfg) && IsCallback(StepOf(ev)) && Legal(c.State(), StepOf(ev))
      modifies c, this`byCid
      ensures c.Valid(cfg) && c.State() == Apply(cfg, old(c.State()), StepOf(ev))
      ensures Routes(byCid) == RouteAfter(old(Routes(byCid)), c.id, ev)
      ensures forall cid | cid in byCid :: byCid[cid] == c || (cid in old(byCid) && byCid[cid] == old(byCid)[cid])
    {
      match ev
      case ConnEvent(OnPacket(p)) => c.Callback(cfg, p);
      case ConnEvent(OnCall(a)) => c.AppCall(cfg, a);
      case AddCid(cid, ok) =>
        c.Callback(cfg, CidCallback(ok));
        if ok {
          byCid := byCid[cid := c];
        }
      case DropCid(cid) =>
        c.Callback(cfg, CidCallback(true));
        byCid := byCid - {cid};
    }

    /** Give the datagram to connection object `c`, listed at i, unless it is ending. */
    method FeedConn(cfg: Config, ghost i: nat, c: VqConn, events: seq<Event>)
      requires NoAlias(conns) && RoutesInto(byCid, conns) && AllWf(Entries(conns))
      requires i < |conns| && conns[i] == c && RestsAt(cfg, conns, i) && FeedAt(cfg, State(), i, events).Some?
      modifies c, this`byCid
      ensures RoutesInto(byCid, conns) && Some(State()) == old(FeedAt(cfg, State(), i, events))
    {
      OthersApart(conns, i);
      if c.wantClose || c.closed {
        return;
      }
      c.Callback(cfg, Begin);
      FeedEvents(cfg, c, events);
      assert Entries(conns) == old(Entries(conns))[i := EntryOf(c)];
    }

    /** Its callbacks in order. */
    method FeedEvents(cfg: Config, c: VqConn, events: seq<Event>)
      requires c.Valid(cfg) && Feed(cfg, c.id, c.State(), Routes(byCid), events).Some?
      requires RoutesInto(byCid, conns) && c in conns
      modifies c, this`byCid
      ensures c.Valid(cfg) && RoutesInto(byCid, conns)
      ensures Some((c.State(), Routes(byCid))) == old(Feed(cfg, c.id, c.State(), Routes(byCid), events))
    {
      for k := 0 to |events|
        invariant c.Valid(cfg) && RoutesInto(byCid, conns)
        invariant FeedFrom(cfg, c.id, c.State(), Routes(byCid), events, k)
                  == old(FeedFrom(cfg, c.id, c.State(), Routes(byCid), events, 0))
      {
        Handle(cfg, c, events[k]);
      }
    }

    /** Route the client's first connection ID and our own to a new connection, and list it. */
    method Register(c: VqConn, dcid: Cid, scid: Cid)
      requires c !in conns && NoAlias(conns) && RoutesInto(byCid, conns)
      modifies this`conns, this`byCid
      ensures conns == old(conns) + [c] && NoAlias(conns) && RoutesInto(byCid, conns)
      ensures Routes(byCid) == old(Routes(byCid))[dcid := c.id][scid := c.id]
    {
      StillNoAlias(conns, c);
      RoutesPut(byCid, dcid, c, conns + [c]);
      byCid := byCid[dcid := c];
      RoutesPut(byCid, scid, c, conns + [c]);
      byCid := byCid[scid := c];
      conns := conns + [c];
    }

    method NewConn(cfg: Config, ghost id: nat, acc: AcceptEnv) returns (c: VqConn)
      ensures fresh(c) && c.id == id && c.State() == Accept(cfg, acc.adm, acc.sendLeft)
    {
      c := new VqConn(cfg, id, acc.adm, acc.sendLeft);
    }

    /** The admitting part of acceptConn. */
    method AcceptConn(cfg: Config, dcid: Cid, acc: AcceptEnv) returns (c: VqConn)
      requires NoAlias(conns) && RoutesInto(byCid, conns) && AllWf(Entries(conns))
      modifies this
      ensures NoAlias(conns) && RoutesInto(byCid, conns)
      ensures State() == old(Admit(cfg, State(), dcid, acc))
      ensures fresh(c) && conns == old(conns) + [c] && c.State() == Accept(cfg, acc.adm, acc.sendLeft)
    {
      c := NewConn(cfg, next, acc);
      EntriesAppend(conns, c);
      Register(c, dcid, acc.scid);
      next := next + 1;
    }

    method AcceptAndFeed(cfg: Config, dcid: Cid, acc: AcceptEnv, events: seq<Event>)
      requires NoAlias(conns) && RoutesInto(byCid, conns) && AllWf(Entries(conns))
      requires FeedAt(cfg, Admit(cfg, State(), dcid, acc), |conns|, events).Some?
      modifies this
      ensures RoutesInto(byCid, conns)
      ensures Some(State()) == old(FeedAt(cfg, Admit(cfg, State(), dcid, acc), |conns|, events))
      ensures forall c | c in conns :: c in old(conns) || fresh(c)
    {
      var c := AcceptConn(cfg, dcid, acc);
      R.AcceptInv(cfg, acc.adm, acc.sendLeft);
      FeedConn(cfg, |conns| - 1, c, events);
    }

    method Deliver(cfg: Config, dcid: Cid, acc: AcceptEnv, events: seq<Event>)
      requires AtRest(cfg, conns) && OwnIds(conns) && RoutesInto(byCid, conns) && AllWf(Entries(conns))
      requires Receive(cfg, State(), ForId(dcid), acc, events).Some?
      modifies this, conns
      ensures RoutesInto(byCid, conns) && Some(State()) == old(Receive(cfg, State(), ForId(dcid), acc, events))
      ensures forall c | c in conns :: c in old(conns) || fresh(c)
    {
      if dcid in byCid {
        ghost var i := RoutedAt(byCid, conns, dcid);
        assert RestsAt(cfg, conns, i);
        FeedConn(cfg, i, byCid[dcid], events);
        return;
      }
      if !acc.initial || (cfg.maxConnections != 0 && |conns| >= cfg.maxConnections) || !acc.ready {
        return;
      }
      AcceptAndFeed(cfg, dcid, acc, events);
    }

    /** vq_engine_recv. */
    method Recv(cfg: Config, header: Header, acc: AcceptEnv, events: seq<Event>)
      requires Valid(cfg) && Receive(cfg, State(), header, acc, events).Some?
      modifies this, conns
      ensures Valid(cfg) && Some(State()) == old(Receive(cfg, State(), header, acc, events))
      ensures forall c | c in conns :: c in old(conns) || fresh(c)
    {
      ER.ReceiveKeeps(cfg, State(), header, acc, events);
      ObjectsOf(this, cfg);
      match header
      case OtherVersion(emitted) =>
        if emitted {
          replies := replies + 1;
        }
      case Undecodable =>
      case ForId(dcid) => Deliver(cfg, dcid, acc, events);
    }

    // ---- the application's calls --------------------------------------------

    /** A call the application makes on a listed connection between datagrams. */
    method CallConn(ghost cfg: Config, ghost at: nat, c: VqConn, a: AppStep)
      requires Valid(cfg) && at < |conns| && conns[at] == c && StepOnce(cfg, State(), Call(at, a)).Some?
      modifies c
      ensures Valid(cfg) && Some(State()) == old(StepOnce(cfg, State(), Call(at, a)))
    {
      ER.CallKeeps(cfg, State(), at, a);
      ObjectsOf(this, cfg);
      OthersApart(conns, at);
      assert RestsAt(cfg, conns, at);
      c.AppCall(cfg, a);
      assert Entries(conns) == old(Entries(conns))[at := EntryOf(c)];
    }

    // ---- timers ------------------------------------------------------------

    /** The connections' timers: `failed[i]` says ngtcp2 gives up on connection i. */
    method ExpireConns(ghost cfg: Config, now: nat, expiries: seq<nat>, failed: seq<bool>)
      requires AtRest(cfg, conns) && |failed| == |expiries| == |conns|
      modifies conns
      ensures Entries(conns) == ExpireAll(old(Entries(conns)), now, expiries, failed)
    {
      for i := 0 to |conns|
        invariant forall j | 0 <= j < i ::
                    EntryOf(conns[j]) == Expired(old(EntryOf(conns[j])), now, expiries[j], failed[j])
        invariant forall j | i <= j < |conns| :: EntryOf(conns[j]) == old(EntryOf(conns[j]))
      {
        if expiries[i] <= now && failed[i] {
          OthersApart(conns, i);
          assert old(RestsAt(cfg, conns, i));
          conns[i].Expire(cfg);
        }
      }
    }

    method ExpireAllConns(ghost cfg: Config, now: nat, expiries: seq<nat>, failed: seq<bool>)
      requires Valid(cfg) && |failed| == |expiries| == |conns|
      modifies conns
      ensures Valid(cfg) && State() == old(State().(conns := ExpireAll(Entries(conns), now, expiries, failed)))
    {
      ER.ExpiryKeeps(cfg, State(), now, expiries, failed);
      ObjectsOf(this, cfg);
      ExpireConns(cfg, now, expiries, failed);
    }

    /** vq_engine_handle_expiry: the shared ticket keys tick first. */
    method HandleExpiry(ghost cfg: Config, tickets: T.TicketStore, ghost tick: T.Step, clock: nat, later: nat,
                        drawn: Option<T.Key>, now: nat, expiries: seq<nat>, failed: seq<bool>)
      requires Valid(cfg) && |failed| == |expiries| == |conns|
      requires tickets.born <= clock <= later && tick == T.Step(tick.thread, clock, later, T.Tick(drawn))
      modifies conns, tickets
      ensures Valid(cfg) && State() == old(State().(conns := ExpireAll(Entries(conns), now, expiries, failed)))
      ensures tickets.State() == T.Apply(old(tickets.State()), tick)
    {
      tickets.TickKeys(tick, clock, later, drawn);
      ExpireAllConns(cfg, now, expiries, failed);
    }

    // ---- pumping -----------------------------------------------------------

    /** The connection IDs a connection hands out while it writes. */
    method AddCids(c: VqConn, cids: seq<Cid>)
      modifies this`byCid
      ensures Routes(byCid) == AddRoutes(old(Routes(byCid)), c.id, cids)
      ensures forall cid | cid in byCid :: byCid[cid] == c || (cid in old(byCid) && byCid[cid] == old(byCid)[cid])
    {
      ghost var routes := Routes(byCid);
      for k := 0 to |cids|
        invariant AddRoutes(Routes(byCid), c.id, From(cids, k)) == AddRoutes(routes, c.id, cids)
        invariant forall cid | cid in byCid :: byCid[cid] == c || (cid in old(byCid) && byCid[cid] == old(byCid)[cid])
      {
        PopFront(cids, From(cids, k), k);
        ghost var before := Routes(byCid);
        byCid := byCid[cids[k] := c];
        assert Routes(byCid) == before[cids[k] := c.id];
      }
    }

    method WriteOne(ghost cfg: Config, c: VqConn, script: WriteScript)
      requires c.Valid(cfg) && Write(c.State(), script).Some?
      modifies c, this`byCid
      ensures Some(c.State()) == old(Write(c.State(), script))
      ensures Routes(byCid) == AddRoutes(old(Routes(byCid)), c.id, script.cids)
      ensures forall cid | cid in byCid :: byCid[cid] == c || (cid in old(byCid) && byCid[cid] == old(byCid)[cid])
    {
      c.WriteConn(cfg, script);
      AddCids(c, script.cids);
    }

    /** First half of vq_engine_pump: every connection writes what it can. */
    method WritePass(ghost cfg: Config, scripts: seq<WriteScript>)
      requires AtRest(cfg, conns) && RoutesInto(byCid, conns)
      requires |scripts| == |conns| && AllWf(Entries(conns)) && WriteAll(Entries(conns), scripts).Some?
      modifies conns, this`byCid
      ensures Some(Entries(conns)) == WriteAll(old(Entries(conns)), scripts)
      ensures Routes(byCid) == RoutesAfterWrites(old(Routes(byCid)), old(Entries(conns)), scripts, 0)
      ensures RoutesInto(byCid, conns)
    {
      ghost var was := Entries(conns);
      ghost var all := WriteAll(was, scripts).value;
      for i := 0 to |conns|
        invariant RoutesInto(byCid, conns)
        invariant forall j | 0 <= j < |conns| :: StandsFor(conns[j], if j < i then all[j] else was[j])
        invariant RoutesAfterWrites(Routes(byCid), was, scripts, i)
                  == RoutesAfterWrites(old(Routes(byCid)), was, scripts, 0)
      {
        ER.WriteAllAt(was, scripts, i);
        OthersApart(conns, i);
        assert old(RestsAt(cfg, conns, i)) && StandsFor(conns[i], was[i]);
        WriteOne(cfg, conns[i], scripts[i]);
      }
      assert Entries(conns) == all;
    }

    /** Tell the application, if it is still attached, and drop the connection and its routes. */
    method EraseAt(i: nat)
      requires i < |conns| && forall cid | cid in byCid && byCid[cid].id == conns[i].id :: byCid[cid] == conns[i]
      modifies this`conns, this`byCid, this`closeLog
      ensures Entries(conns) == old(Entries(conns)[..i] + Entries(conns)[i + 1..])
      ensures forall c | c in conns :: c in old(conns)
      ensures Routes(byCid) == WithoutId(old(Routes(byCid)), old(conns)[i].id)
      ensures forall cid | cid in byCid :: cid in old(byCid) && byCid[cid] == old(byCid)[cid]
      ensures closeLog == old(if conns[i].hasUd then closeLog + [conns[i].id] else closeLog)
    {
      var c := conns[i];
      if c.hasUd {
        closeLog := closeLog + [c.id];
      }
      EntriesErase(conns, i);
      byCid := map cid | cid in byCid && byCid[cid] != c :: byCid[cid];
      conns := conns[..i] + conns[i + 1..];
    }

    /** One step of the walk: erase connection i if it is dead. */
    method Visit(i: nat, inPeriod: bool, ghost all: seq<VqConn>) returns (gone: bool)
      requires i < |conns| && OwnIds(all) && RoutesInto(byCid, all) && forall c | c in conns :: c in all
      modifies this`conns, this`byCid, this`closeLog
      ensures RoutesInto(byCid, all) && forall c | c in conns :: c in all
      ensures gone == Dead(old(conns[i].State()), inPeriod)
      ensures !gone ==> conns == old(conns) && byCid == old(byCid) && closeLog == old(closeLog)
      ensures gone ==> Entries(conns) == old(Entries(conns)[..i] + Entries(conns)[i + 1..])
                       && Routes(byCid) == WithoutId(old(Routes(byCid)), old(conns)[i].id)
                       && closeLog == old(if conns[i].hasUd then closeLog + [conns[i].id] else closeLog)
    {
      var c := conns[i];
      gone := c.closed || c.draining || inPeriod;
      if gone {
        OnlyRoutesTo(byCid, all, c);
        EraseAt(i);
      }
    }

    method ReapOne(ghost all: seq<Entry>, periods: seq<bool>, ghost log0: seq<nat>, ghost routes: map<Cid, nat>, k: nat,
                   i: nat, ghost objects: seq<VqConn>) returns (next: nat)
      requires |periods| == |all| && k < |all| && i < |conns|
      requires Reaped(all, periods, log0, routes, k, i, Entries(conns), closeLog, Routes(byCid))
      requires OwnIds(objects) && RoutesInto(byCid, objects) && forall c | c in conns :: c in objects
      modifies this`conns, this`byCid, this`closeLog
      ensures next <= |conns| && RoutesInto(byCid, objects) && forall c | c in conns :: c in objects
      ensures Reaped(all, periods, log0, routes, k + 1, next, Entries(conns), closeLog, Routes(byCid))
    {
      ghost var list, log, left := Entries(conns), closeLog, Routes(byCid);
      var gone := Visit(i, periods[k], objects);
      next := if gone then i else i + 1;
      ReapNext(all, periods, log0, routes, k, i, list, log, left, Entries(conns), closeLog, Routes(byCid));
    }

    /** Second half of vq_engine_pump: erase the dead connections from the list while
        walking it, with their routes, and tell the application once. */
    method ReapPass(periods: seq<bool>)
      requires |periods| == |conns| && OwnIds(conns) && RoutesInto(byCid, conns)
      modifies this`conns, this`byCid, this`closeLog
      ensures Entries(conns) == Survivors(old(Entries(conns)), periods)
      ensures closeLog == old(closeLog) + CloseCalls(old(Entries(conns)), periods)
      ensures Without(Routes(byCid), old(Routes(byCid)), DeadIds(old(Entries(conns)), periods))
      ensures RoutesInto(byCid, old(conns)) && forall c | c in conns :: c in old(conns)
    {
      ghost var all, log, routes := Entries(conns), closeLog, Routes(byCid);
      ghost var list, left := all, routes;
      var i, k := 0, 0;
      ReapStarts(all, periods, log, routes);
      while i < |conns|
        invariant list == Entries(conns) && left == Routes(byCid)
        invariant 0 <= i <= |list| && 0 <= k <= |all|
        invariant Reaped(all, periods, log, routes, k, i, list, closeLog, left)
        invariant RoutesInto(byCid, old(conns)) && forall c | c in conns :: c in old(conns)
        decreases |all| - k
      {
        ReapHere(all, periods, log, routes, k, i, list, closeLog, left);
        i := ReapOne(all, periods, log, routes, k, i, old(conns));
        list, left, k := Entries(conns), Routes(byCid), k + 1;
      }
      ReapEnds(all, periods, log, routes, k, i, list, closeLog, left);
    }

    method PumpConns(ghost cfg: Config, scripts: seq<WriteScript>, periods: seq<bool>)
      requires AtRest(cfg, conns) && OwnIds(conns) && RoutesInto(byCid, conns) && AllWf(Entries(conns))
      requires PumpAll(State(), scripts, periods).Some?
      modifies this, conns
      ensures Some(State()) == old(PumpAll(State(), scripts, periods))
      ensures RoutesInto(byCid, old(conns)) && forall c | c in conns :: c in old(conns)
    {
      WritePass(cfg, scripts);
      ghost var written, routes := Entries(conns), Routes(byCid);
      ReapPass(periods);
      ErasedIs(Routes(byCid), routes, DeadIds(written, periods));
    }

    /** vq_engine_pump. */
    method Pump(ghost cfg: Config, scripts: seq<WriteScript>, periods: seq<bool>)
      requires Valid(cfg) && PumpAll(State(), scripts, periods).Some?
      modifies this, conns
      ensures Valid(cfg) && Some(State()) == old(PumpAll(State(), scripts, periods))
      ensures forall c | c in conns :: c in old(conns)
    {
      ER.PumpKeeps(cfg, State(), scripts, periods);
      ObjectsOf(this, cfg);
      PumpConns(cfg, scripts, periods);
      RoutedAreListed(byCid, conns, old(conns));
    }
  }

  lemma {:induction false} ObjectsOf(e: VqEngine, cfg: Config)
    requires e.Valid(cfg)
    ensures AtRest(cfg, e.conns) && OwnIds(e.conns)
  {
    var conns, list := e.conns, Entries(e.conns);
    forall i: nat, j: nat | i < j < |conns|
      ensures conns[i].id != conns[j].id && Apart(conns, i, j)
    {
      assert list[i].id != list[j].id;
    }
    forall i: nat | i < |conns|
      ensures RestsAt(cfg, conns, i)
    {
      assert ER.EntryInv(cfg, e.next, list[i]);
    }
    forall a, b | a in conns && b in conns
      ensures OwnId(a, b)
    {
      var i, j :| 0 <= i < |conns| && 0 <= j < |conns| && conns[i] == a && conns[j] == b;
    }
  }

  /** Changing connection i leaves the others as they are. */
  lemma {:induction false} OthersApart(conns: seq<VqConn>, i: nat)
    requires NoAlias(conns) && i < |conns|
    ensures forall j | 0 <= j < |conns| && j != i :: conns[j] != conns[i]
  {
    forall j: nat | j < |conns| && j != i
      ensures conns[j] != conns[i]
    {
      assert if i < j then Apart(conns, i, j) else Apart(conns, j, i);
    }
  }

  lemma {:induction false} StillNoAlias(conns: seq<VqConn>, c: VqConn)
    requires NoAlias(conns) && c !in conns
    ensures NoAlias(conns + [c])
  {
    var more := conns + [c];
    forall i: nat, j: nat | i < j < |more|
      ensures Apart(more, i, j)
    {
      assert j < |conns| ==> Apart(conns, i, j);
    }
  }

  /** Where a routed object is listed. */
  lemma {:induction false} RoutedAt(byCid: map<Cid, VqConn>, conns: seq<VqConn>, cid: Cid) returns (i: nat)
    requires OwnIds(conns) && RoutesInto(byCid, conns) && cid in byCid
    ensures i < |conns| && conns[i] == byCid[cid] && i == IndexOf(Entries(conns), byCid[cid].id)
  {
    i := IndexOf(Entries(conns), byCid[cid].id);
    var j :| 0 <= j < |conns| && conns[j] == byCid[cid];
    assert Entries(conns)[j].id == byCid[cid].id;
    assert OwnId(conns[i], byCid[cid]);
  }

  lemma {:induction false} OnlyRoutesTo(byCid: map<Cid, VqConn>, all: seq<VqConn>, c: VqConn)
    requires OwnIds(all) && RoutesInto(byCid, all) && c in all
    ensures forall cid | cid in byCid && byCid[cid].id == c.id :: byCid[cid] == c
  {
    forall cid | cid in byCid && byCid[cid].id == c.id
      ensures byCid[cid] == c
    {
      assert OwnId(byCid[cid], c);
    }
  }

  lemma {:induction false} EntriesAppend(conns: seq<VqConn>, c: VqConn)
    ensures Entries(conns + [c]) == Entries(conns) + [EntryOf(c)]
  {
  }

  lemma {:induction false} RoutesPut(byCid: map<Cid, VqConn>, cid: Cid, c: VqConn, conns: seq<VqConn>)
    ensures Routes(byCid[cid := c]) == Routes(byCid)[cid := c.id]
    ensures c in conns && (forall x | x in byCid :: byCid[x] in conns) ==> RoutesInto(byCid[cid := c], conns)
  {
  }

  lemma {:induction false} EntriesErase(conns: seq<VqConn>, i: nat)
    requires i < |conns|
    ensures Entries(conns[..i] + conns[i + 1..]) == Entries(conns)[..i] + Entries(conns)[i + 1..]
  {
  }

  /** A routed object whose identity is listed is a listed object. */
  lemma {:induction false} RoutedAreListed(byCid: map<Cid, VqConn>, conns: seq<VqConn>, all: seq<VqConn>)
    requires OwnIds(all) && RoutesInto(byCid, all) && forall c | c in conns :: c in all
    requires ER.RoutesInv(Routes(byCid), Entries(conns))
    ensures RoutesInto(byCid, conns)
  {
    forall cid | cid in byCid
      ensures byCid[cid] in conns
    {
      assert Listed(Entries(conns), Routes(byCid)[cid]);
      var i :| 0 <= i < |conns| && Entries(conns)[i].id == byCid[cid].id;
      assert OwnId(conns[i], byCid[cid]);
    }
  }

  /** What is still to be walked: the list from i on is the old list from k on. */
  ghost predicate Rest(conns: seq<Entry>, i: nat, all: seq<Entry>, k: nat)
  {
    && i <= |conns| && k <= |all| && |conns| - i == |all| - k
    && forall j: nat {:trigger RestAt(conns, i, all, k, j)} | j < |conns| - i :: RestAt(conns, i, all, k, j)
  }

  predicate RestAt(conns: seq<Entry>, i: nat, all: seq<Entry>, k: nat, j: nat)
    requires i + j < |conns| && k + j < |all|
  {
    conns[i + j] == all[k + j]
  }

  lemma {:induction false} RestAfterKeep(conns: seq<Entry>, i: nat, all: seq<Entry>, k: nat)
    requires Rest(conns, i, all, k) && i < |conns|
    ensures Rest(conns, i + 1, all, k + 1)
  {
    var i1, k1 := i + 1, k + 1;
    forall j: nat | j < |conns| - i1
      ensures RestAt(conns, i1, all, k1, j)
    {
      assert RestAt(conns, i, all, k, j + 1);
    }
  }

  lemma {:induction false} RestAfterErase(conns: seq<Entry>, i: nat, all: seq<Entry>, k: nat)
    requires Rest(conns, i, all, k) && i < |conns|
    ensures var shorter := conns[..i] + conns[i + 1..]; shorter[..i] == conns[..i] && Rest(shorter, i, all, k + 1)
  {
    var shorter, k1 := conns[..i] + conns[i + 1..], k + 1;
    forall j: nat | j < |shorter| - i
      ensures RestAt(shorter, i, all, k1, j)
    {
      assert RestAt(conns, i, all, k, j + 1);
    }
  }

  /** Erase the routes to one connection. */
  function WithoutId(byCid: map<Cid, nat>, id: nat): map<Cid, nat>
  {
    map cid | cid in byCid && byCid[cid] != id :: byCid[cid]
  }

  lemma {:induction false} WithoutOneMore(byCid: map<Cid, nat>, routes: map<Cid, nat>, gone: set<nat>, id: nat)
    requires Without(byCid, routes, gone)
    ensures Without(WithoutId(byCid, id), routes, gone + {id})
  {
    var fewer, more := WithoutId(byCid, id), gone + {id};
    forall cid
      ensures WithoutAt(fewer, routes, more, cid)
    {
      assert WithoutAt(byCid, routes, gone, cid);
    }
  }

  /** Where the walk stands: `conns[..i]` is kept, the rest is the old list from k on, and
      log and routes are right for the first k. */
  ghost predicate Reaped(all: seq<Entry>, periods: seq<bool>, log0: seq<nat>, routes: map<Cid, nat>, k: nat, i: nat,
                         conns: seq<Entry>, log: seq<nat>, byCid: map<Cid, nat>)
    requires |periods| == |all| && k <= |all| && i <= |conns|
  {
    && Rest(conns, i, all, k)
    && Walked(all, periods, log0, k, conns[..i], log)
    && Without(byCid, routes, DeadIds(all[..k], periods[..k]))
  }

  lemma {:induction false} ReapStarts(all: seq<Entry>, periods: seq<bool>, log: seq<nat>, routes: map<Cid, nat>)
    requires |periods| == |all|
    ensures Reaped(all, periods, log, routes, 0, 0, all, log, routes)
  {
    forall j: nat | j < |all|
      ensures RestAt(all, 0, all, 0, j)
    {
    }
    assert all[..0] == [] && [] + Survivors(all, periods) == Survivors(all, periods);
    ghost var none := DeadIds(all[..0], periods[..0]);
    forall cid
      ensures WithoutAt(routes, routes, none, cid)
    {
    }
  }

  lemma {:induction false} ReapStep(all: seq<Entry>, periods: seq<bool>, log0: seq<nat>, routes: map<Cid, nat>,
                                    k: nat, i: nat, conns: seq<Entry>, log: seq<nat>, byCid: map<Cid, nat>)
    requires |periods| == |all| && k <= |all| && i < |conns|
    requires Reaped(all, periods, log0, routes, k, i, conns, log, byCid)
    ensures k < |all| && conns[i] == all[k]
    ensures var x := conns[i];
            if Dead(x.conn, periods[k]) then
              Reaped(all, periods, log0, routes, k + 1, i, conns[..i] + conns[i + 1..],
                     if x.conn.life.hasUd then log + [x.id] else log, WithoutId(byCid, x.id))
            else Reaped(all, periods, log0, routes, k + 1, i + 1, conns, log, byCid)
  {
    assert RestAt(conns, i, all, k, 0);
    WalkOn(all, periods, log0, k, conns[..i], log);
    DeadIdsStep(all, periods, k);
    if Dead(conns[i].conn, periods[k]) {
      RestAfterErase(conns, i, all, k);
      WithoutOneMore(byCid, routes, DeadIds(all[..k], periods[..k]), conns[i].id);
    } else {
      RestAfterKeep(conns, i, all, k);
      assert conns[..i + 1] == conns[..i] + [conns[i]];
      assert DeadIds(all[..k + 1], periods[..k + 1]) == DeadIds(all[..k], periods[..k]);
    }
  }

  /** The walk looks at old connection k next. */
  lemma {:induction false} ReapHere(all: seq<Entry>, periods: seq<bool>, log0: seq<nat>, routes: map<Cid, nat>, k: nat,
                                    i: nat, conns: seq<Entry>, log: seq<nat>, byCid: map<Cid, nat>)
    requires |periods| == |all| && k <= |all| && i < |conns|
    requires Reaped(all, periods, log0, routes, k, i, conns, log, byCid)
    ensures k < |all| && conns[i] == all[k]
  {
    assert RestAt(conns, i, all, k, 0);
  }

  /** What the walk leaves after connection k, erased or passed by. */
  lemma {:induction false} ReapNext(all: seq<Entry>, periods: seq<bool>, log0: seq<nat>, routes: map<Cid, nat>, k: nat,
                                    i: nat, conns: seq<Entry>, log: seq<nat>, byCid: map<Cid, nat>,
                                    conns': seq<Entry>, log': seq<nat>, byCid': map<Cid, nat>)
    requires |periods| == |all| && k < |all| && i < |conns|
    requires Reaped(all, periods, log0, routes, k, i, conns, log, byCid)
    requires if Dead(conns[i].conn, periods[k])
             then conns' == conns[..i] + conns[i + 1..] && byCid' == WithoutId(byCid, conns[i].id)
                  && log' == if conns[i].conn.life.hasUd then log + [conns[i].id] else log
             else conns' == conns && byCid' == byCid && log' == log
    ensures var i' := if Dead(conns[i].conn, periods[k]) then i else i + 1;
            i' <= |conns'| && Reaped(all, periods, log0, routes, k + 1, i', conns', log', byCid')
  {
    ReapStep(all, periods, log0, routes, k, i, conns, log, byCid);
  }

  lemma {:induction false} ReapEnds(all: seq<Entry>, periods: seq<bool>, log0: seq<nat>, routes: map<Cid, nat>,
                                    k: nat, i: nat, conns: seq<Entry>, log: seq<nat>, byCid: map<Cid, nat>)
    requires |periods| == |all| && k <= |all| && i == |conns|
    requires Reaped(all, periods, log0, routes, k, i, conns, log, byCid)
    ensures conns == Survivors(all, periods) && log == log0 + CloseCalls(all, periods)
    ensures Without(byCid, routes, DeadIds(all, periods))
  {
    assert conns[..i] == conns && all[..k] == all && periods[..k] == periods;
    assert conns + [] == conns && log + [] == log;
  }

  /** `byCid` is `routes` with the routes to `gone` erased. */
  ghost predicate Without(byCid: map<Cid, nat>, routes: map<Cid, nat>, gone: set<nat>)
  {
    forall cid {:trigger WithoutAt(byCid, routes, gone, cid)} :: WithoutAt(byCid, routes, gone, cid)
  }

  predicate WithoutAt(byCid: map<Cid, nat>, routes: map<Cid, nat>, gone: set<nat>, cid: Cid)
  {
    && (cid in byCid <==> cid in routes && routes[cid] !in gone)
    && (cid in byCid ==> byCid[cid] == routes[cid])
  }

  lemma {:induction false} DeadIdsStep(all: seq<Entry>, periods: seq<bool>, k: nat)
    requires |periods| == |all| && k < |all|
    ensures DeadIds(all[..k + 1], periods[..k + 1])
            == DeadIds(all[..k], periods[..k]) + if Dead(all[k].conn, periods[k]) then {all[k].id} else {}
  {
    var more, p := all[..k + 1], periods[..k + 1];
    forall i | 0 <= i < k + 1
      ensures more[i] == all[i] && p[i] == periods[i]
    {
    }
    assert forall i | 0 <= i < k :: all[..k][i] == more[i] && periods[..k][i] == p[i];
  }

  /** After k entries: what is kept and logged so far completes to the whole answer. */
  ghost predicate Walked(all: seq<Entry>, periods: seq<bool>, log0: seq<nat>, k: nat, kept: seq<Entry>, log: seq<nat>)
    requires |periods| == |all| && k <= |all|
  {
    && kept + Survivors(From(all, k), From(periods, k)) == Survivors(all, periods)
    && log + CloseCalls(From(all, k), From(periods, k)) == log0 + CloseCalls(all, periods)
  }

  lemma {:induction false} WalkOn(all: seq<Entry>, periods: seq<bool>, log0: seq<nat>, k: nat, kept: seq<Entry>,
                                  log: seq<nat>)
    requires |periods| == |all| && k < |all| && Walked(all, periods, log0, k, kept, log)
    ensures if Dead(all[k].conn, periods[k])
            then Walked(all, periods, log0, k + 1, kept, if all[k].conn.life.hasUd then log + [all[k].id] else log)
            else Walked(all, periods, log0, k + 1, kept + [all[k]], log)
  {
    PopFront(all, From(all, k), k);
    PopFront(periods, From(periods, k), k);
    var conns, p := From(all, k + 1), From(periods, k + 1);
    assert kept + ([all[k]] + Survivors(conns, p)) == (kept + [all[k]]) + Survivors(conns, p);
    assert log + ([all[k].id] + CloseCalls(conns, p)) == (log + [all[k].id]) + CloseCalls(conns, p);
    assert log + [] == log;
  }

  /** That is the table a pump leaves. */
  lemma {:induction false} ErasedIs(byCid: map<Cid, nat>, routes: map<Cid, nat>, gone: set<nat>)
    requires Without(byCid, routes, gone)
    ensures byCid == EraseRoutes(routes, gone)
  {
    var left := EraseRoutes(routes, gone);
    forall cid
      ensures cid in byCid <==> cid in left
      ensures cid in byCid ==> byCid[cid] == left[cid]
    {
      assert WithoutAt(byCid, routes, gone, cid);
    }
  }
}
