/**
 * The synchronisation coordinator of the whiteboard server: the socket handlers that apply
 * each client event to the shared state (connected clients, cursor registry, operation log)
 * and decide which messages go to which clients.
 *
 * Each handler is a pure function from the old state to the new state and the list of
 * outbound messages, in the order the code emits them; the class `Coordinator` holds the
 * state the server mutates in place and is proved against those functions.
 */
module Sync {
  import opened Wrappers
  import opened DrawingState

  /** A socket id, assigned by the transport on connect. */
  type ClientId = string

  /** A cursor entry `{ x, y, color }`. */
  datatype Cursor = Cursor(x: real, y: real, color: string)

  /** The three outbound events: `redraw`, `draw` and `cursorsUpdate`. */
  datatype Message =
    | Redraw(ops: seq<Operation>)
    | DrawOp(op: Operation)
    | CursorsUpdate(cursors: map<ClientId, Cursor>)

  /** One emit: the set of clients it reaches and what it carries. */
  datatype Outbound = Outbound(to: set<ClientId>, msg: Message)

  /** Everything the handlers read or write: the connected sockets, `userCursors` and
    * the operation log. */
  datatype Server = Server(clients: set<ClientId>, cursors: map<ClientId, Cursor>, log: Log)

  /** The only clients with a cursor entry are connected ones. */
  predicate Wf(s: Server)
  {
    s.cursors.Keys <= s.clients
  }

  /** An inbound transport event. `stamp` is the clock reading the server turns into an id. */
  datatype Event =
    | Connect
    | Draw(line: Line, stamp: real)
    | CursorMove(data: Cursor)
    | Undo
    | Redo
    | Clear
    | Disconnect

  /** The transport connects a socket id once, and delivers events only from connected ones. */
  predicate Admits(s: Server, c: ClientId, e: Event)
  {
    if e.Connect? then c !in s.clients else c in s.clients
  }

  /** `connection`: the newcomer alone gets the history, then the cursor map. */
  function HandleConnect(s: Server, c: ClientId): (r: (Server, seq<Outbound>))
    requires c !in s.clients
    ensures r.0.clients == s.clients + {c} && r.0.cursors == s.cursors && r.0.log == s.log
    ensures |r.1| == 2
    ensures r.1[0] == Outbound({c}, Redraw(s.log.history))
    ensures r.1[1] == Outbound({c}, CursorsUpdate(s.cursors))
    ensures Wf(s) ==> c !in r.1[1].msg.cursors
  {
    (s.(clients := s.clients + {c}),
     [Outbound({c}, Redraw(s.log.history)), Outbound({c}, CursorsUpdate(s.cursors))])
  }

  /** `draw`: the line is committed, and the operation that now ends the history is sent to
    * every connected client but the sender. */
  function HandleDraw(s: Server, c: ClientId, line: Line, stamp: real): (r: (Server, seq<Outbound>))
    requires c in s.clients
    ensures r.0.clients == s.clients && r.0.cursors == s.cursors
    ensures r.0.log == AddLineStep(s.log, line, stamp).1
    ensures |r.1| == 1 && r.1[0].to == s.clients - {c} && c !in r.1[0].to
    ensures r.1[0].msg == DrawOp(Last(r.0.log.history))
    ensures r.1[0].msg.op.segment == line.segment
  {
    var (op, log) := AddLineStep(s.log, line, stamp);
    (s.(log := log), [Outbound(s.clients - {c}, DrawOp(op))])
  }

  function Last(h: seq<Operation>): Operation
    requires h != []
  {
    h[|h| - 1]
  }

  /** `cursorMove`: the sender's entry becomes exactly the payload's `{x, y, color}`, all
    * other entries stay, and the whole map goes to every client, the sender included. */
  function HandleCursorMove(s: Server, c: ClientId, data: Cursor): (r: (Server, seq<Outbound>))
    requires c in s.clients
    ensures r.0.clients == s.clients && r.0.log == s.log
    ensures r.0.cursors.Keys == s.cursors.Keys + {c}
    ensures r.0.cursors[c] == Cursor(data.x, data.y, data.color)
    ensures forall d :: d in s.cursors && d != c ==> r.0.cursors[d] == s.cursors[d]
    ensures r.1 == [Outbound(s.clients, CursorsUpdate(r.0.cursors))]
  {
    var cursors := s.cursors[c := Cursor(data.x, data.y, data.color)];
    (s.(cursors := cursors), [Outbound(s.clients, CursorsUpdate(cursors))])
  }

  /** `undo`: every client gets the new history, or the empty sequence (`newHistory || []`)
    * when the log had nothing to undo. */
  function HandleUndo(s: Server, c: ClientId): (r: (Server, seq<Outbound>))
    requires c in s.clients
    ensures r.0.clients == s.clients && r.0.cursors == s.cursors
    ensures r.0.log == UndoStep(s.log).1
    ensures r.1 == [Outbound(s.clients, Redraw(if s.log.history == [] then [] else r.0.log.history))]
  {
    var (h, log) := UndoStep(s.log);
    (s.(log := log), [Outbound(s.clients, Redraw(if h.Some? then h.value else []))])
  }

  /** `redo`: every client gets the new history, or the empty sequence when the log had
    * nothing to redo, although the history itself is then unchanged. */
  function HandleRedo(s: Server, c: ClientId): (r: (Server, seq<Outbound>))
    requires c in s.clients
    ensures r.0.clients == s.clients && r.0.cursors == s.cursors
    ensures r.0.log == RedoStep(s.log).1
    ensures r.1 == [Outbound(s.clients, Redraw(if s.log.redo == [] then [] else r.0.log.history))]
  {
    var (h, log) := RedoStep(s.log);
    (s.(log := log), [Outbound(s.clients, Redraw(if h.Some? then h.value else []))])
  }

  /** Redo that broadcasts the current, unchanged history when there is nothing to redo. */
  function HandleRedoCorrected(s: Server, c: ClientId): (r: (Server, seq<Outbound>))
    requires c in s.clients
    ensures r.0.clients == s.clients && r.0.cursors == s.cursors
    ensures r.0.log == RedoStep(s.log).1
    ensures r.1 == [Outbound(s.clients, Redraw(r.0.log.history))]
  {
    var (h, log) := RedoStep(s.log);
    (s.(log := log), [Outbound(s.clients, Redraw(if h.Some? then h.value else s.log.history))])
  }

  /** `clear`: the log empties and every client gets the empty history. */
  function HandleClear(s: Server, c: ClientId): (r: (Server, seq<Outbound>))
    requires c in s.clients
    ensures r.0.clients == s.clients && r.0.cursors == s.cursors
    ensures r.0.log == Log([], [])
    ensures r.1 == [Outbound(s.clients, Redraw([]))]
  {
    var (h, log) := ClearStep(s.log);
    (s.(log := log), [Outbound(s.clients, Redraw(h))])
  }

  /** `disconnect`: the sender's cursor entry goes (if it had one), nothing else changes,
    * and the remaining clients get the updated map. */
  function HandleDisconnect(s: Server, c: ClientId): (r: (Server, seq<Outbound>))
    requires c in s.clients
    ensures r.0.clients == s.clients - {c} && r.0.log == s.log
    ensures r.0.cursors.Keys == s.cursors.Keys - {c}
    ensures forall d :: d in r.0.cursors ==> r.0.cursors[d] == s.cursors[d]
    ensures c !in s.cursors ==> r.0.cursors == s.cursors
    ensures r.1 == [Outbound(r.0.clients, CursorsUpdate(r.0.cursors))]
  {
    var cursors := s.cursors - {c};
    var clients := s.clients - {c};
    (Server(clients, cursors, s.log), [Outbound(clients, CursorsUpdate(cursors))])
  }

  /** One event, dispatched to its handler as the code registers them. The transport adds
    * a socket on connect and drops it on disconnect; a connect emits twice, every other
    * event once. */
  function Handle(s: Server, c: ClientId, e: Event): (r: (Server, seq<Outbound>))
    requires Admits(s, c, e)
    ensures r.0.clients ==
      (if e.Connect? then s.clients + {c} else if e.Disconnect? then s.clients - {c} else s.clients)
    ensures |r.1| == (if e.Connect? then 2 else 1)
  {
    match e
    case Connect => HandleConnect(s, c)
    case Draw(line, stamp) => HandleDraw(s, c, line, stamp)
    case CursorMove(data) => HandleCursorMove(s, c, data)
    case Undo => HandleUndo(s, c)
    case Redo => HandleRedo(s, c)
    case Clear => HandleClear(s, c)
    case Disconnect => HandleDisconnect(s, c)
  }

  /** `Handle` with the corrected redo: the same new state after every event, the same
    * emits for every event but redo, and a redo always sends the history the server keeps. */
  function HandleCorrected(s: Server, c: ClientId, e: Event): (r: (Server, seq<Outbound>))
    requires Admits(s, c, e)
    ensures r.0 == Handle(s, c, e).0
    ensures !e.Redo? ==> r.1 == Handle(s, c, e).1
    ensures e.Redo? ==> r.1 == [Outbound(s.clients, Redraw(r.0.log.history))]
  {
    if e.Redo? then HandleRedoCorrected(s, c) else Handle(s, c, e)
  }

  /** Every handler keeps the cursor registry within the connected clients. */
  lemma HandlePreservesWf(s: Server, c: ClientId, e: Event)
    requires Wf(s) && Admits(s, c, e)
    ensures Wf(Handle(s, c, e).0)
    ensures Wf(HandleCorrected(s, c, e).0)
  {
  }

  /** Only `cursorMove` and disconnect touch the cursor map; only `draw`, `undo`, `redo`
    * and `clear` touch the log; only connect and disconnect touch the client set. */
  lemma HandleFrame(s: Server, c: ClientId, e: Event)
    requires Admits(s, c, e)
    ensures !(e.CursorMove? || e.Disconnect?) ==> Handle(s, c, e).0.cursors == s.cursors
    ensures (e.Connect? || e.CursorMove? || e.Disconnect?) ==> Handle(s, c, e).0.log == s.log
    ensures !(e.Connect? || e.Disconnect?) ==> Handle(s, c, e).0.clients == s.clients
  {
  }

  /** Who receives what: only the newcomer hears from a connect, the sender of a `draw`
    * never gets its own line back, and every other event reaches all connected clients. */
  lemma HandleRouting(s: Server, c: ClientId, e: Event)
    requires Admits(s, c, e)
    ensures var out := Handle(s, c, e).1;
      && (e.Connect? ==> forall i :: 0 <= i < |out| ==> out[i].to == {c})
      && (e.Draw? ==> forall i :: 0 <= i < |out| ==> c !in out[i].to && out[i].to == s.clients - {c})
      && (e.Disconnect? ==> forall i :: 0 <= i < |out| ==> out[i].to == s.clients - {c})
      && (!(e.Connect? || e.Draw? || e.Disconnect?) ==>
            forall i :: 0 <= i < |out| ==> out[i].to == s.clients)
  {
  }

  /** Only `cursorMove` adds the sender's key to the registry and only disconnect removes
    * it; every other key stays as it was. */
  lemma HandleCursorKeys(s: Server, c: ClientId, e: Event)
    requires Admits(s, c, e)
    ensures Handle(s, c, e).0.cursors.Keys ==
      (s.cursors.Keys + (if e.CursorMove? then {c} else {})) - (if e.Disconnect? then {c} else {})
  {
  }

  /** A sequence of events, each from a client the transport would deliver it from,
    * handled in arrival order by the handlers as written. The run is built from the last
    * event backwards so that `LatestCursor` and `CursorLifecycle` can peel off the most
    * recent event. `Replicas.Admissible` and `Replicas.Run` are a second run, over
    * `HandleCorrected` and built from the first event forwards, because the as-written redo
    * cannot keep clients in sync and a forward run carries the client views along. */
  predicate AdmissibleTrace(s: Server, trace: seq<(ClientId, Event)>)
    decreases |trace|, 0
  {
    trace == [] ||
    (AdmissibleTrace(s, trace[..|trace| - 1]) &&
     Admits(RunTrace(s, trace[..|trace| - 1]), trace[|trace| - 1].0, trace[|trace| - 1].1))
  }

  /** The server state after handling `trace`. */
  function RunTrace(s: Server, trace: seq<(ClientId, Event)>): Server
    requires AdmissibleTrace(s, trace)
    decreases |trace|, 1
  {
    if trace == [] then s
    else
      var n := |trace|;
      Handle(RunTrace(s, trace[..n - 1]), trace[n - 1].0, trace[n - 1].1).0
  }

  /** The cursor a client should have after `trace`: the payload of its latest `cursorMove`,
    * unless it connected or disconnected after that; with no such event, its entry in `init`. */
  function LatestCursor(init: map<ClientId, Cursor>, trace: seq<(ClientId, Event)>, c: ClientId): Option<Cursor>
    decreases |trace|
  {
    if trace == [] then (if c in init then Some(init[c]) else None)
    else
      var (d, e) := trace[|trace| - 1];
      if d == c && e.CursorMove? then Some(Cursor(e.data.x, e.data.y, e.data.color))
      else if d == c && (e.Connect? || e.Disconnect?) then None
      else LatestCursor(init, trace[..|trace| - 1], c)
  }

  /** The registry's lifecycle over any run: a client has an entry exactly when it has sent
    * a `cursorMove` since it connected and has not disconnected since, and the entry is the
    * `{x, y, color}` of its latest `cursorMove`. */
  lemma {:induction false} CursorLifecycle(s: Server, trace: seq<(ClientId, Event)>)
    requires Wf(s) && AdmissibleTrace(s, trace)
    ensures Wf(RunTrace(s, trace))
    ensures forall c ::
              LatestCursor(s.cursors, trace, c) ==
              (if c in RunTrace(s, trace).cursors then Some(RunTrace(s, trace).cursors[c]) else None)
    decreases |trace|
  {
    if trace != [] {
      var n := |trace|;
      var (d, e) := trace[n - 1];
      var t := RunTrace(s, trace[..n - 1]);
      CursorLifecycle(s, trace[..n - 1]);
      HandlePreservesWf(t, d, e);
      HandleCursorKeys(t, d, e);
    }
  }

  /** Two clients connect, the first draws, the second moves its cursor, the first leaves:
    * only the mover ever has an entry, and the disconnect leaves the history untouched. */
  lemma TwoClientScenario(a: ClientId, b: ClientId, line: Line, stamp: real, here: Cursor)
    requires a != b
    ensures
      var s0 := Server({}, map[], Log([], []));
      var s1 := Handle(s0, a, Connect).0;
      var s2 := Handle(s1, b, Connect).0;
      var s3 := Handle(s2, a, Draw(line, stamp)).0;
      var s4 := Handle(s3, b, CursorMove(here)).0;
      var s5 := Handle(s4, a, Disconnect).0;
      && s3.cursors == map[]
      && s3.log.history == [Stamped(line, stamp)]
      && s4.cursors == map[b := here]
      && s5.clients == {b}
      && s5.cursors == map[b := here]
      && s5.log == s4.log && s5.log.history == [Stamped(line, stamp)]
  {
    var s4 := Handle(Handle(Handle(Handle(Server({}, map[], Log([], [])), a, Connect).0, b, Connect).0,
                            a, Draw(line, stamp)).0, b, CursorMove(here)).0;
    assert s4.cursors - {a} == map[b := here];
  }

  /** A client that connects after `k` undos gets exactly the surviving operations, in
    * their original commit order, and then the cursor map. */
  lemma LateJoiner(s: Server, c: ClientId, k: nat)
    requires c !in s.clients && k <= |s.log.history|
    ensures HandleConnect(s.(log := UndoTimes(s.log, k)), c).1 ==
      [Outbound({c}, Redraw(s.log.history[..|s.log.history| - k])), Outbound({c}, CursorsUpdate(s.cursors))]
  {
    UndoTimesTruncates(s.log, k);
  }

  /** Five lines then two undos: a newcomer is sent the first three lines. */
  lemma LateJoinerScenario(s: Server, c: ClientId, lines: seq<Line>, stamps: seq<real>)
    requires c !in s.clients && s.log == Log([], []) && |lines| == 5 && |stamps| == 5
    ensures
      var l1 := AddLineStep(s.log, lines[0], stamps[0]).1;
      var l2 := AddLineStep(l1, lines[1], stamps[1]).1;
      var l3 := AddLineStep(l2, lines[2], stamps[2]).1;
      var l4 := AddLineStep(l3, lines[3], stamps[3]).1;
      var l5 := AddLineStep(l4, lines[4], stamps[4]).1;
      HandleConnect(s.(log := UndoTimes(l5, 2)), c).1[0] ==
        Outbound({c}, Redraw([Stamped(lines[0], stamps[0]), Stamped(lines[1], stamps[1]), Stamped(lines[2], stamps[2])]))
  {
    var l1 := AddLineStep(s.log, lines[0], stamps[0]).1;
    var l2 := AddLineStep(l1, lines[1], stamps[1]).1;
    var l3 := AddLineStep(l2, lines[2], stamps[2]).1;
    var l4 := AddLineStep(l3, lines[3], stamps[3]).1;
    var l5 := AddLineStep(l4, lines[4], stamps[4]).1;
    LateJoiner(s.(log := l5), c, 2);
    assert l5.history[..3] == [Stamped(lines[0], stamps[0]), Stamped(lines[1], stamps[1]), Stamped(lines[2], stamps[2])];
  }

  /** The server's mutable state: the sockets the transport has connected, `userCursors`,
    * and the operation log it drives through `state.*`. */
  class Coordinator {
    var clients: set<ClientId>
    var cursors: map<ClientId, Cursor>
    const log: OperationLog

    function State(): Server
      reads this, log
    {
      Server(clients, cursors, log.State())
    }

    /** The registry invariant every handler keeps: a cursor entry exists only for a
      * connected client. So a newcomer never finds an entry of its own (`OnConnect`). */
    ghost predicate Valid()
      reads this, log
    {
      Wf(State())
    }

    /** No clients, `userCursors = {}`, and a fresh empty log. */
    constructor ()
      ensures Valid() && fresh(log)
      ensures clients == {} && cursors == map[]
      ensures log.history == [] && log.redoStack == []
    {
      clients := {};
      cursors := map[];
      log := new OperationLog();
    }

    method OnConnect(c: ClientId) returns (out: seq<Outbound>)
      requires Valid() && c !in clients
      modifies this
      ensures Valid()
      ensures clients == old(clients) + {c} && cursors == old(cursors)
      ensures c !in cursors
      ensures out == [Outbound({c}, Redraw(log.history)), Outbound({c}, CursorsUpdate(cursors))]
      ensures (State(), out) == HandleConnect(old(State()), c)
    {
      clients := clients + {c};
      var h := log.GetHistory();
      out := [Outbound({c}, Redraw(h)), Outbound({c}, CursorsUpdate(cursors))];
    }

    method OnDraw(c: ClientId, line: Line, stamp: real) returns (out: seq<Outbound>)
      requires Valid() && c in clients
      modifies log
      ensures Valid()
      ensures log.history != [] && log.history == old(log.history) + [Last(log.history)]
      ensures log.redoStack == []
      ensures Last(log.history).segment == line.segment
      ensures out == [Outbound(clients - {c}, DrawOp(Last(log.history)))]
      ensures (State(), out) == HandleDraw(old(State()), c, line, stamp)
    {
      var op := log.AddLine(line, stamp);
      out := [Outbound(clients - {c}, DrawOp(op))];
    }

    method OnCursorMove(c: ClientId, data: Cursor) returns (out: seq<Outbound>)
      requires Valid() && c in clients
      modifies this
      ensures Valid()
      ensures clients == old(clients)
      ensures cursors == old(cursors)[c := Cursor(data.x, data.y, data.color)]
      ensures out == [Outbound(clients, CursorsUpdate(cursors))]
      ensures (State(), out) == HandleCursorMove(old(State()), c, data)
    {
      cursors := cursors[c := Cursor(data.x, data.y, data.color)];
      out := [Outbound(clients, CursorsUpdate(cursors))];
    }

    method OnUndo(c: ClientId) returns (out: seq<Outbound>)
      requires Valid() && c in clients
      modifies log
      ensures Valid()
      ensures log.State() == UndoStep(old(log.State())).1
      ensures out == [Outbound(clients, Redraw(if old(log.history) == [] then [] else log.history))]
      ensures (State(), out) == HandleUndo(old(State()), c)
    {
      var h := log.UndoOperation();
      out := [Outbound(clients, Redraw(if h.Some? then h.value else []))];
    }

    method OnRedo(c: ClientId) returns (out: seq<Outbound>)
      requires Valid() && c in clients
      modifies log
      ensures Valid()
      ensures log.State() == RedoStep(old(log.State())).1
      ensures out == [Outbound(clients, Redraw(if old(log.redoStack) == [] then [] else log.history))]
      ensures (State(), out) == HandleRedo(old(State()), c)
    {
      var h := log.RedoOperation();
      out := [Outbound(clients, Redraw(if h.Some? then h.value else []))];
    }

    method OnClear(c: ClientId) returns (out: seq<Outbound>)
      requires Valid() && c in clients
      modifies log
      ensures Valid()
      ensures log.history == [] && log.redoStack == []
      ensures out == [Outbound(clients, Redraw([]))]
      ensures (State(), out) == HandleClear(old(State()), c)
    {
      var h := log.ClearHistory();
      out := [Outbound(clients, Redraw(h))];
    }

    method OnDisconnect(c: ClientId) returns (out: seq<Outbound>)
      requires Valid() && c in clients
      modifies this
      ensures Valid()
      ensures clients == old(clients) - {c} && cursors == old(cursors) - {c}
      ensures out == [Outbound(clients, CursorsUpdate(cursors))]
      ensures (State(), out) == HandleDisconnect(old(State()), c)
    {
      cursors := cursors - {c};
      clients := clients - {c};
      out := [Outbound(clients, CursorsUpdate(cursors))];
    }
  }
}
