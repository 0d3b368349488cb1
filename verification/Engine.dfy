/** One loop thread's engine: the list of connections, the table that routes a
    connection ID to one of them, and the calls that feed, pump and reap them. */
module Engine {
  import opened Common
  import opened Connection

  /** A connection ID, compared as the bytes on the wire. */
  datatype Cid = Cid(raw: bytes)

  datatype Entry = Entry(id: nat, conn: Conn)

  /** conns: the live list; byCid: the routes; next: the next fresh identity;
      closeLog: the connections on_conn_close was called for, in order; replies: how
      many version negotiation packets were sent. */
  datatype EngineState = EngineState(conns: seq<Entry>, byCid: map<Cid, nat>, next: nat, closeLog: seq<nat>,
                                     replies: nat)

  const NEW_ENGINE := EngineState([], map[], 0, [], 0)

  /** What happens while a datagram is parsed: a connection step, or ngtcp2 asking for a
      new connection ID or retiring one. */
  datatype Event = ConnEvent(step: Step) | AddCid(cid: Cid, ok: bool) | DropCid(cid: Cid)

  /** What the front of a datagram says: nothing readable, a version we do not speak
      (`emitted`: a reply could be written), or a connection ID. */
  datatype Header = Undecodable | OtherVersion(emitted: bool) | ForId(dcid: Cid)

  /** initial: the packet can start a connection; ready: TLS and ngtcp2 set it up. */
  datatype AcceptEnv = AcceptEnv(initial: bool, ready: bool, scid: Cid, adm: Admission, sendLeft: nat)

  /** One connection's share of a pump, with the connection IDs it hands out. */
  datatype WriteScript = WriteScript(emitted: bool, rounds: seq<WriteStep>, cids: seq<Cid>)

  /** `periods[i]`: ngtcp2 has connection i in its closing or draining period;
      `expiries[i]`: when its timer is due; `failed[i]`: ngtcp2 gives up if it is asked. */
  datatype EngineStep =
    | Recv(header: Header, acc: AcceptEnv, events: seq<Event>)
    | Pump(scripts: seq<WriteScript>, periods: seq<bool>)
    | Expiry(now: nat, expiries: seq<nat>, failed: seq<bool>)
    | Call(at: nat, a: AppStep)

  // ---- receiving -----------------------------------------------------------

  function StepOf(ev: Event): Step
  {
    match ev
    case ConnEvent(step) => step
    case AddCid(_, ok) => OnPacket(CidCallback(ok))
    case DropCid(_) => OnPacket(CidCallback(true))
  }

  function RouteAfter(routes: map<Cid, nat>, id: nat, ev: Event): map<Cid, nat>
  {
    match ev
    case ConnEvent(_) => routes
    case AddCid(cid, ok) => if ok then routes[cid := id] else routes
    case DropCid(cid) => routes - {cid}
  }

  /** What can happen inside a datagram. */
  predicate IsCallback(step: Step)
  {
    (step.OnPacket? && step.p != Begin) || step.OnCall?
  }

  /** Drive the callbacks of one datagram from event k on, and the calls the application
      makes from inside them. */
  function FeedFrom(cfg: Config, id: nat, c: Conn, routes: map<Cid, nat>, events: seq<Event>,
                    k: nat): (r: Option<(Conn, map<Cid, nat>)>)
    requires Wf(c) && k <= |events|
    ensures r.Some? ==> Wf(r.value.0)
    decreases |events| - k
  {
    if k == |events| then Some((c, routes))
    else
      var step := StepOf(events[k]);
      if IsCallback(step) && Legal(c, step)
      then FeedFrom(cfg, id, Apply(cfg, c, step), RouteAfter(routes, id, events[k]), events, k + 1)
      else None
  }

  function Feed(cfg: Config, id: nat, c: Conn, routes: map<Cid, nat>,
                events: seq<Event>): (r: Option<(Conn, map<Cid, nat>)>)
    requires Wf(c)
    ensures r.Some? ==> Wf(r.value.0)
  {
    FeedFrom(cfg, id, c, routes, events, 0)
  }

  predicate AllWf(conns: seq<Entry>)
  {
    forall i | 0 <= i < |conns| :: Wf(conns[i].conn)
  }

  /** Offer a datagram to connection i: ngtcp2 reads it unless the connection is ending. */
  function FeedAt(cfg: Config, e: EngineState, i: nat, events: seq<Event>): (r: Option<EngineState>)
    requires i < |e.conns| && AllWf(e.conns)
    ensures r.Some? ==> AllWf(r.value.conns)
  {
    var entry := e.conns[i];
    if !Legal(entry.conn, OnPacket(Begin)) then None
    else
      var begun := Apply(cfg, entry.conn, OnPacket(Begin));
      if begun.life.phase == Idle then Some(e)
      else
        match Feed(cfg, entry.id, begun, e.byCid, events)
        case None => None
        case Some((c, routes)) =>
          if c.life.phase == Idle then Some(e.(conns := e.conns[i := entry.(conn := c)], byCid := routes)) else None
  }

  /** Position of identity `id` in the list, or its length. */
  function IndexOf(conns: seq<Entry>, id: nat): (i: nat)
    ensures i <= |conns|
    ensures i < |conns| ==> conns[i].id == id
    ensures i == |conns| <==> forall j | 0 <= j < |conns| :: conns[j].id != id
  {
    if conns == [] then 0
    else if conns[0].id == id then 0
    else
      var k := IndexOf(conns[1..], id);
      assert forall j | 0 < j < |conns| :: conns[j] == conns[1..][j - 1];
      k + 1
  }

  function Admit(cfg: Config, e: EngineState, dcid: Cid, acc: AcceptEnv): (r: EngineState)
    requires AllWf(e.conns)
    ensures AllWf(r.conns)
  {
    e.(conns := e.conns + [Entry(e.next, Accept(cfg, acc.adm, acc.sendLeft))],
       byCid := e.byCid[dcid := e.next][acc.scid := e.next],
       next := e.next + 1)
  }

  predicate Full(cfg: Config, e: EngineState)
  {
    cfg.maxConnections != 0 && |e.conns| >= cfg.maxConnections
  }

  function Receive(cfg: Config, e: EngineState, header: Header, acc: AcceptEnv,
                   events: seq<Event>): (r: Option<EngineState>)
    requires AllWf(e.conns)
    ensures r.Some? ==> AllWf(r.value.conns)
  {
    match header
    case Undecodable => Some(e)
    case OtherVersion(emitted) => Some(if emitted then e.(replies := e.replies + 1) else e)
    case ForId(dcid) =>
      if dcid in e.byCid then
        var i := IndexOf(e.conns, e.byCid[dcid]);
        if i < |e.conns| then FeedAt(cfg, e, i, events) else None
      else if !acc.initial || Full(cfg, e) || !acc.ready then Some(e)
      else FeedAt(cfg, Admit(cfg, e, dcid, acc), |e.conns|, events)
  }

  // ---- pumping -------------------------------------------------------------

  /** The rounds of the write loop from round k on, until it returns. */
  function Rounds(c: Conn, rounds: seq<WriteStep>, k: nat): (r: Option<Conn>)
    requires Wf(c) && k <= |rounds|
    ensures r.Some? ==> Wf(r.value)
    decreases |rounds| - k
  {
    if c.life.phase != InWrite then Some(c)
    else if k == |rounds| then None
    else if !WriteLegal(c, rounds[k]) then None
    else Rounds(ApplyWrite(c, rounds[k]), rounds, k + 1)
  }

  function Write(c: Conn, s: WriteScript): (r: Option<Conn>)
    requires Wf(c)
    ensures r.Some? ==> Wf(r.value)
  {
    if !WriteLegal(c, Start(s.emitted)) then None else Rounds(ApplyWrite(c, Start(s.emitted)), s.rounds, 0)
  }

  function WriteAll(conns: seq<Entry>, scripts: seq<WriteScript>): (r: Option<seq<Entry>>)
    requires AllWf(conns) && |scripts| == |conns|
    ensures r.Some? ==> AllWf(r.value) && |r.value| == |conns|
  {
    if conns == [] then Some([])
    else
      var first := Write(conns[0].conn, scripts[0]);
      assert AllWf(conns[1..]);
      var rest := WriteAll(conns[1..], scripts[1..]);
      if first.None? || rest.None? then None else Some([conns[0].(conn := first.value)] + rest.value)
  }

  function AddRoutes(routes: map<Cid, nat>, id: nat, cids: seq<Cid>): map<Cid, nat>
    decreases |cids|
  {
    if cids == [] then routes else AddRoutes(routes[cids[0] := id], id, cids[1..])
  }

  /** The routes after the connections from i on wrote. */
  function RoutesAfterWrites(routes: map<Cid, nat>, conns: seq<Entry>, scripts: seq<WriteScript>, i: nat): map<Cid, nat>
    requires |scripts| == |conns| && i <= |conns|
    decreases |conns| - i
  {
    if i == |conns| then routes
    else RoutesAfterWrites(AddRoutes(routes, conns[i].id, scripts[i].cids), conns, scripts, i + 1)
  }

  predicate Dead(c: Conn, inPeriod: bool)
  {
    c.life.closed || c.life.draining || inPeriod
  }

  /** The connections that stay, in order. */
  function Survivors(conns: seq<Entry>, periods: seq<bool>): (r: seq<Entry>)
    requires |periods| == |conns|
    ensures |r| <= |conns|
  {
    if conns == [] then []
    else
      var rest := Survivors(conns[1..], periods[1..]);
      if Dead(conns[0].conn, periods[0]) then rest else [conns[0]] + rest
  }

  /** The reaped connections that still have an application context, in order. */
  function CloseCalls(conns: seq<Entry>, periods: seq<bool>): seq<nat>
    requires |periods| == |conns|
  {
    if conns == [] then []
    else
      var rest := CloseCalls(conns[1..], periods[1..]);
      if Dead(conns[0].conn, periods[0]) && conns[0].conn.life.hasUd then [conns[0].id] + rest else rest
  }

  predicate Listed(conns: seq<Entry>, id: nat)
  {
    exists i | 0 <= i < |conns| :: conns[i].id == id
  }

  /** The identities of the reaped connections. */
  ghost function DeadIds(conns: seq<Entry>, periods: seq<bool>): set<nat>
    requires |periods| == |conns|
  {
    set i | 0 <= i < |conns| && Dead(conns[i].conn, periods[i]) :: conns[i].id
  }

  /** Erase the routes to these connections. */
  ghost function EraseRoutes(routes: map<Cid, nat>, gone: set<nat>): map<Cid, nat>
  {
    map cid | cid in routes && routes[cid] !in gone :: routes[cid]
  }

  ghost function PumpAll(e: EngineState, scripts: seq<WriteScript>, periods: seq<bool>): (r: Option<EngineState>)
    requires AllWf(e.conns)
    ensures r.Some? ==> AllWf(r.value.conns)
  {
    if |scripts| != |e.conns| || |periods| != |e.conns| then None
    else
      match WriteAll(e.conns, scripts)
      case None => None
      case Some(written) =>
        var routes := RoutesAfterWrites(e.byCid, e.conns, scripts, 0);
        var kept := Survivors(written, periods);
        SurvivorsOf(written, periods);
        Some(e.(conns := kept, byCid := EraseRoutes(routes, DeadIds(written, periods)),
                closeLog := e.closeLog + CloseCalls(written, periods)))
  }

  lemma {:induction false} SurvivorsOf(conns: seq<Entry>, periods: seq<bool>)
    requires |periods| == |conns|
    ensures forall k | 0 <= k < |Survivors(conns, periods)| :: Survivors(conns, periods)[k] in conns
    ensures AllWf(conns) ==> AllWf(Survivors(conns, periods))
  {
    if conns != [] {
      SurvivorsOf(conns[1..], periods[1..]);
      forall k | 0 <= k < |Survivors(conns, periods)|
        ensures Survivors(conns, periods)[k] in conns
      {
        var rest := Survivors(conns[1..], periods[1..]);
        assert forall x | x in conns[1..] :: x in conns;
      }
    }
  }

  // ---- the machine ---------------------------------------------------------

  /** A connection whose timer is due and that ngtcp2 gives up on is dropped. */
  function Expired(x: Entry, now: nat, expiry: nat, failed: bool): Entry
  {
    if expiry <= now && failed then x.(conn := x.conn.(life := x.conn.life.(closed := true))) else x
  }

  function ExpireAll(conns: seq<Entry>, now: nat, expiries: seq<nat>, failed: seq<bool>): (r: seq<Entry>)
    requires |failed| == |expiries| == |conns|
    ensures |r| == |conns|
  {
    seq(|conns|, i requires 0 <= i < |conns| => Expired(conns[i], now, expiries[i], failed[i]))
  }

  ghost function StepOnce(cfg: Config, e: EngineState, step: EngineStep): (r: Option<EngineState>)
    requires AllWf(e.conns)
    ensures r.Some? ==> AllWf(r.value.conns)
  {
    match step
    case Recv(header, acc, events) => Receive(cfg, e, header, acc, events)
    case Pump(scripts, periods) => PumpAll(e, scripts, periods)
    case Expiry(now, expiries, failed) =>
      if |failed| != |e.conns| || |expiries| != |e.conns| then None
      else Some(e.(conns := ExpireAll(e.conns, now, expiries, failed)))
    case Call(at, a) =>
      if at >= |e.conns| || !Legal(e.conns[at].conn, OnCall(a)) then None
      else Some(e.(conns := e.conns[at := e.conns[at].(conn := Connection.Apply(cfg, e.conns[at].conn, OnCall(a)))]))
  }

  ghost function RunAll(cfg: Config, e: EngineState, steps: seq<EngineStep>): (r: Option<EngineState>)
    requires AllWf(e.conns)
    ensures r.Some? ==> AllWf(r.value.conns)
    decreases |steps|
  {
    if steps == [] then Some(e)
    else
      match StepOnce(cfg, e, steps[0])
      case None => None
      case Some(e1) => RunAll(cfg, e1, steps[1..])
  }
}
