/**
 * What the connected clients show, and whether it matches the server.
 *
 * A client keeps no authoritative state: its canvas is rebuilt from `redraw`, extended by
 * `draw` and by the lines it draws itself, and its cursor layer is replaced by every
 * `cursorsUpdate`. `InSync` says that every connected client shows exactly the server's
 * history and cursor map; the lemmas prove which events keep that true.
 */
module Replicas {
  import opened Wrappers
  import opened DrawingState
  import opened Sync

  /** One client's view: the segments on its main canvas, in drawing order, and the last
    * cursor map it received. */
  datatype Replica = Replica(lines: seq<Segment>, cursors: map<ClientId, Cursor>)

  /** The segments a canvas shows after replaying `ops`. */
  function Picture(ops: seq<Operation>): (p: seq<Segment>)
    ensures |p| == |ops|
    ensures forall i :: 0 <= i < |ops| ==> p[i] == ops[i].segment
  {
    seq(|ops|, i requires 0 <= i < |ops| => ops[i].segment)
  }

  /** A page that has just loaded: nothing drawn, no cursors. */
  const Blank := Replica([], map[])

  /** The client's reaction to one inbound message: `redraw` wipes the canvas and replays
    * the history it carries, `draw` adds one segment on top, and `cursorsUpdate` replaces
    * the cursor layer and leaves the canvas alone. */
  function Apply(r: Replica, m: Message): (r': Replica)
    ensures m.Redraw? ==> r'.lines == Picture(m.ops) && r'.cursors == r.cursors
    ensures m.DrawOp? ==> r'.lines == r.lines + [m.op.segment] && r'.cursors == r.cursors
    ensures m.CursorsUpdate? ==> r'.lines == r.lines && r'.cursors == m.cursors
  {
    match m
    case Redraw(ops) => r.(lines := Picture(ops))
    case DrawOp(op) => r.(lines := r.lines + [op.segment])
    case CursorsUpdate(cs) => r.(cursors := cs)
  }

  /** One emit reaches the clients in its recipient set; the others keep their view. */
  function DeliverOne(views: map<ClientId, Replica>, o: Outbound): (v: map<ClientId, Replica>)
    ensures v.Keys == views.Keys
    ensures forall d :: d in views && d in o.to ==> v[d] == Apply(views[d], o.msg)
    ensures forall d :: d in views && d !in o.to ==> v[d] == views[d]
  {
    map d | d in views :: if d in o.to then Apply(views[d], o.msg) else views[d]
  }

  /** The emits of one handler, delivered in the order they were made. */
  function Deliver(views: map<ClientId, Replica>, out: seq<Outbound>): (v: map<ClientId, Replica>)
    ensures v.Keys == views.Keys
    decreases |out|
  {
    if out == [] then views else Deliver(DeliverOne(views, out[0]), out[1..])
  }

  /** The clients' views after event `e` of client `c` and the emits `out` it caused: a
    * newcomer starts blank, a client that disconnects drops out, and the sender of a
    * `draw` has already drawn its line locally. */
  function Observe(views: map<ClientId, Replica>, c: ClientId, e: Event, out: seq<Outbound>): (v: map<ClientId, Replica>)
    ensures v.Keys ==
      (if e.Connect? then views.Keys + {c} else if e.Disconnect? then views.Keys - {c} else views.Keys)
  {
    match e
    case Connect => Deliver(views[c := Blank], out)
    case Disconnect => Deliver(views - {c}, out)
    case Draw(line, _) =>
      if c in views then Deliver(views[c := views[c].(lines := views[c].lines + [line.segment])], out)
      else Deliver(views, out)
    case _ => Deliver(views, out)
  }

  /** Every connected client has a view, and every view is the server's state. */
  predicate InSync(s: Server, views: map<ClientId, Replica>)
  {
    && views.Keys == s.clients
    && forall d :: d in views ==> views[d] == Replica(Picture(s.log.history), s.cursors)
  }

  lemma DeliverSingle(views: map<ClientId, Replica>, o: Outbound)
    ensures Deliver(views, [o]) == DeliverOne(views, o)
  {
    assert [o][1..] == [];
  }

  lemma DeliverPair(views: map<ClientId, Replica>, o1: Outbound, o2: Outbound)
    ensures Deliver(views, [o1, o2]) == DeliverOne(DeliverOne(views, o1), o2)
  {
    assert [o1, o2][1..] == [o2];
    DeliverSingle(DeliverOne(views, o1), o2);
  }

  /** An emit to every client of a uniform set of views leaves them uniform. */
  lemma BroadcastUniform(views: map<ClientId, Replica>, o: Outbound, r: Replica)
    requires views.Keys <= o.to
    requires forall d :: d in views ==> views[d] == r
    ensures Deliver(views, [o]).Keys == views.Keys
    ensures forall d :: d in views ==> Deliver(views, [o])[d] == Apply(r, o.msg)
  {
    DeliverSingle(views, o);
  }

  /** Every event keeps every client in sync, except a redo with an empty redo stack while
    * the history is not empty (the case `RedoWipesReplicas` covers). */
  lemma HandleKeepsInSync(s: Server, views: map<ClientId, Replica>, c: ClientId, e: Event)
    requires Admits(s, c, e) && InSync(s, views)
    requires !(e.Redo? && s.log.redo == [] && s.log.history != [])
    ensures InSync(Handle(s, c, e).0, Observe(views, c, e, Handle(s, c, e).1))
  {
    var (s', out) := Handle(s, c, e);
    var r := Replica(Picture(s.log.history), s.cursors);
    var r' := Replica(Picture(s'.log.history), s'.cursors);
    match e
    case Connect =>
      DeliverPair(views[c := Blank], out[0], out[1]);
      assert out == [out[0], out[1]];
    case Draw(line, stamp) =>
      var v0 := views[c := r'];
      assert Picture(s'.log.history) == Picture(s.log.history) + [line.segment];
      assert views[c].(lines := views[c].lines + [line.segment]) == r';
      DeliverSingle(v0, out[0]);
    case CursorMove(data) =>
      BroadcastUniform(views, out[0], r);
    case Undo =>
      BroadcastUniform(views, out[0], r);
      if s.log.history != [] {
        var n := |s.log.history|;
        assert Picture(s'.log.history) == Picture(s.log.history)[..n - 1];
      }
    case Redo =>
      BroadcastUniform(views, out[0], r);
      if s.log.redo != [] {
        var n := |s.log.redo|;
        assert Picture(s'.log.history) == Picture(s.log.history) + [s.log.redo[n - 1].segment];
      }
    case Clear =>
      BroadcastUniform(views, out[0], r);
    case Disconnect =>
      BroadcastUniform(views - {c}, out[0], r);
  }

  /** As the code is written, a redo with nothing to redo wipes every client's canvas while
    * the server keeps a non-empty history: clients and server disagree. */
  lemma RedoWipesReplicas(s: Server, views: map<ClientId, Replica>, c: ClientId)
    requires c in s.clients && InSync(s, views)
    requires s.log.history != [] && s.log.redo == []
    ensures var (s', out) := Handle(s, c, Redo);
      && s'.log == s.log
      && (forall d :: d in Observe(views, c, Redo, out) ==> Observe(views, c, Redo, out)[d].lines == [])
      && !InSync(s', Observe(views, c, Redo, out))
  {
    var (s', out) := Handle(s, c, Redo);
    BroadcastUniform(views, out[0], Replica(Picture(s.log.history), s.cursors));
    assert c in Observe(views, c, Redo, out);
    assert |Picture(s.log.history)| > 0;
  }

  /** The smallest case: one client draws one line and then presses redo. */
  lemma DrawThenRedoScenario(c: ClientId, line: Line, stamp: real)
    ensures
      var s0 := Server({}, map[], Log([], []));
      var (s1, out1) := Handle(s0, c, Connect);
      var v1 := Observe(map[], c, Connect, out1);
      var (s2, out2) := Handle(s1, c, Draw(line, stamp));
      var v2 := Observe(v1, c, Draw(line, stamp), out2);
      var (s3, out3) := Handle(s2, c, Redo);
      var v3 := Observe(v2, c, Redo, out3);
      && InSync(s2, v2)
      && s3.log.history == [Stamped(line, stamp)]
      && v3[c].lines == []
  {
    var s0 := Server({}, map[], Log([], []));
    var (s1, out1) := Handle(s0, c, Connect);
    var v1 := Observe(map[], c, Connect, out1);
    HandleKeepsInSync(s0, map[], c, Connect);
    var (s2, out2) := Handle(s1, c, Draw(line, stamp));
    var v2 := Observe(v1, c, Draw(line, stamp), out2);
    HandleKeepsInSync(s1, v1, c, Draw(line, stamp));
    RedoWipesReplicas(s2, v2, c);
  }

  /** With the corrected redo, every event keeps every client in sync. */
  lemma CorrectedKeepsInSync(s: Server, views: map<ClientId, Replica>, c: ClientId, e: Event)
    requires Admits(s, c, e) && InSync(s, views)
    ensures InSync(HandleCorrected(s, c, e).0, Observe(views, c, e, HandleCorrected(s, c, e).1))
  {
    if e.Redo? {
      var (s', out) := HandleCorrected(s, c, e);
      BroadcastUniform(views, out[0], Replica(Picture(s.log.history), s.cursors));
      if s.log.redo != [] {
        HandleKeepsInSync(s, views, c, e);
      }
    } else {
      HandleKeepsInSync(s, views, c, e);
    }
  }

  /** A sequence of events, each from a client the transport would deliver it from, handled
    * by `HandleCorrected`. Unlike `Sync.AdmissibleTrace`, which replays the as-written
    * handlers from the last event backwards for the cursor registry, this run goes forwards
    * so that it can carry the client views from one event to the next. */
  predicate Admissible(s: Server, trace: seq<(ClientId, Event)>)
    decreases |trace|
  {
    trace == [] ||
    (Admits(s, trace[0].0, trace[0].1) &&
     Admissible(HandleCorrected(s, trace[0].0, trace[0].1).0, trace[1..]))
  }

  /** The server and the clients after handling `trace` in arrival order. */
  function Run(s: Server, views: map<ClientId, Replica>, trace: seq<(ClientId, Event)>): (Server, map<ClientId, Replica>)
    requires Admissible(s, trace)
    decreases |trace|
  {
    if trace == [] then (s, views)
    else
      var (c, e) := trace[0];
      var (s', out) := HandleCorrected(s, c, e);
      Run(s', Observe(views, c, e, out), trace[1..])
  }

  /** With the corrected redo, any admissible run keeps every client showing the server's
    * history and cursors. */
  lemma {:induction false} RunKeepsInSync(s: Server, views: map<ClientId, Replica>, trace: seq<(ClientId, Event)>)
    requires Admissible(s, trace) && InSync(s, views)
    ensures InSync(Run(s, views, trace).0, Run(s, views, trace).1)
    decreases |trace|
  {
    if trace != [] {
      var (c, e) := trace[0];
      var (s', out) := HandleCorrected(s, c, e);
      CorrectedKeepsInSync(s, views, c, e);
      RunKeepsInSync(s', Observe(views, c, e, out), trace[1..]);
    }
  }
}
