/**
  The sandbox client (`Sandbox.execute_code` on a `LocalSandbox`): it remembers the completed
  cells of every session and replays them when the server announces a new session.
*/
module Sandboxes {
  import opened Wrappers
  import opened Sequences
  import opened ShellManagers

  /** What may happen to the server just before a request reaches it. */
  datatype Disturbance = Calm | ShellDies | WorkerRestarts

  datatype Turn = Turn(before: Disturbance, outcome: Outcome)

  /** One call of `execute_code`; `turns(k)` describes what happens around its k-th request. */
  datatype Call = Call(code: Code, session: Option<SessionId>, turns: nat -> Turn)

  type Histories = map<SessionId, seq<Code>>

  datatype World = World(server: Server, histories: Histories)

  function HistoryOf(h: Histories, id: SessionId): seq<Code> {
    if id in h then h[id] else []
  }

  function Disturb(s: Server, id: SessionId, d: Disturbance): Server {
    match d
    case Calm => s
    case ShellDies => AfterDeath(s, id)
    case WorkerRestarts => Server(map[], s.epochs)
  }

  // ---------------------------------------------------------------------------
  // What one call does to client and server
  // ---------------------------------------------------------------------------

  function Request(s: Server, id: SessionId, code: Code, turn: Turn): (r: (Server, Response)) {
    var s1 := Disturb(s, id, turn.before);
    (AfterRun(s1, id, code, turn.outcome), ResponseTo(s1, id, turn.outcome))
  }

  /** Sending a cell as the `k`-th request of a call. */
  type Requester = (Server, Code, nat) -> (Server, Response)

  function Requests(id: SessionId, turns: nat -> Turn): Requester {
    (s: Server, code: Code, k: nat) => Request(s, id, code, turns(k))
  }

  /** Send `cells` one by one, stopping at the first that does not complete; `k` is the next request's number. */
  function Replay(send: Requester, s: Server, cells: seq<Code>, k: nat): (r: (Server, bool))
    decreases |cells|
  {
    if cells == [] then (s, true)
    else
      var (s1, response) := send(s, cells[0], k);
      if response.status != Completed then (s1, false) else Replay(send, s1, cells[1..], k + 1)
  }

  /** The session a call talks to; `drawn` is the uuid drawn when the caller names none. */
  function Target(call: Call, drawn: SessionId): SessionId {
    match call.session case Some(id) => id case None => drawn
  }

  function Appended(h: Histories, id: SessionId, code: Code, status: ProcessStatus): Histories {
    if status == Completed then h[id := HistoryOf(h, id) + [code]] else h
  }

  /** Does the reply to the first request make the client restore the session? */
  predicate Restores(s: Server, call: Call, id: SessionId) {
    var first := Request(s, id, call.code, call.turns(0)).1;
    call.session.Some? && first.newSession && first.status != Timeout
  }

  /** Delete the session, replay the history, and only then run the new cell. */
  function Restored(w: World, call: Call, id: SessionId): (World, ProcessStatus) {
    var history := HistoryOf(w.histories, id);
    var s1 := Request(w.server, id, call.code, call.turns(0)).0;
    var (s2, restored) := Replay(Requests(id, call.turns), AfterDelete(s1, id), history, 1);
    AfterReplay(w, id, call.code, call.turns(|history| + 1), s2, restored)
  }

  /** A replay that failed ends the call and drops the session; otherwise the new cell runs. */
  function AfterReplay(w: World, id: SessionId, code: Code, turn: Turn, s2: Server, restored: bool): (World, ProcessStatus) {
    if restored then Settled(World(s2, w.histories[id := HistoryOf(w.histories, id)]), id, code, turn)
    else (World(AfterDelete(s2, id), w.histories - {id}), Error)
  }

  /** One request whose result is final. */
  function Settled(w: World, id: SessionId, code: Code, turn: Turn): (World, ProcessStatus) {
    var (s', r) := Request(w.server, id, code, turn);
    (World(s', Appended(w.histories, id, code, r.status)), r.status)
  }

  /** The whole call with restoration enabled: new world and reported status. */
  function Executed(w: World, call: Call, drawn: SessionId): (World, ProcessStatus) {
    var id := Target(call, drawn);
    if Restores(w.server, call, id) then Restored(w, call, id) else Settled(w, id, call.code, call.turns(0))
  }

  lemma RemoveAndPut(h: Histories, id: SessionId, history: seq<Code>)
    ensures (h - {id})[id := history] == h[id := history]
    ensures h[id := history] - {id} == h - {id}
  {
  }

  class Sandbox {
    const disableSessionRestore: bool
    const server: ShellManager
    var histories: Histories

    constructor (server: ShellManager, disable: bool)
      ensures this.server == server && disableSessionRestore == disable && histories == map[]
    {
      this.server, disableSessionRestore, histories := server, disable, map[];
    }

    function State(): World
      reads this, server
    {
      World(server.State(), histories)
    }

    method SendRequest(id: SessionId, code: Code, turn: Turn) returns (r: Response)
      modifies server
      ensures (server.State(), r) == Request(old(server.State()), id, code, turn)
    {
      match turn.before {
        case Calm =>
        case ShellDies =>
          if id in server.shells {
            server.shells := server.shells[id := server.shells[id].(alive := false)];
          }
        case WorkerRestarts =>
          server.shells := map[];
      }
      r := server.ExecuteIpythonSession(id, code, turn.outcome);
    }

    method DeleteSession(id: SessionId)
      modifies this, server
      ensures server.State() == AfterDelete(old(server.State()), id)
      ensures histories == old(histories) - {id}
    {
      // 404 is treated like 200.
      var _ := server.DeleteSession(id);
      histories := histories - {id};
    }

    /** Re-execute the history; stops at the first cell that does not complete. */
    method ReplayHistory(id: SessionId, history: seq<Code>, turns: nat -> Turn) returns (restored: bool)
      modifies server
      ensures (server.State(), restored) == Replay(Requests(id, turns), old(server.State()), history, 1)
    {
      for i := 0 to |history|
        invariant Replay(Requests(id, turns), old(server.State()), history, 1)
               == Replay(Requests(id, turns), server.State(), history[i..], i + 1)
      {
        var replayed := SendRequest(id, history[i], turns(i + 1));
        assert history[i..][1..] == history[i + 1..];
        if replayed.status != Completed {
          return false;
        }
      }
      restored := true;
    }

    method ExecuteCode(call: Call, drawn: SessionId) returns (status: ProcessStatus, id: SessionId, warned: bool)
      modifies this, server
      ensures if call.session.Some? then id == call.session.value else id == drawn
      ensures !disableSessionRestore ==> (State(), status) == Executed(old(State()), call, drawn) && !warned
      // With restoration disabled nothing is remembered, and a lost session is reported to the caller.
      ensures disableSessionRestore ==>
        && (server.State(), status) == (Request(old(server.State()), id, call.code, call.turns(0)).0,
                                        Request(old(server.State()), id, call.code, call.turns(0)).1.status)
        && histories == (if warned then old(histories) - {id} else old(histories))
        && (warned <==> call.session.Some? && Request(old(server.State()), id, call.code, call.turns(0)).1.newSession)
    {
      warned := false;
      id := match call.session case Some(named) => named case None => drawn;
      var response := SendRequest(id, call.code, call.turns(0));
      if call.session.Some? && response.newSession && response.status != Timeout && !disableSessionRestore {
        var history := HistoryOf(histories, id);
        DeleteSession(id);
        histories := histories[id := history];
        RemoveAndPut(old(histories), id, history);
        var restored := ReplayHistory(id, history, call.turns);
        if !restored {
          DeleteSession(id);
          return Error, id, false;
        }
        response := SendRequest(id, call.code, call.turns(|history| + 1));
      } else if call.session.Some? && response.newSession && disableSessionRestore {
        histories := histories - {id};
        warned := true;
      }
      if response.status == Completed && !disableSessionRestore {
        histories := histories[id := HistoryOf(histories, id) + [call.code]];
      }
      status := response.status;
    }
  }

  // ---------------------------------------------------------------------------
  // Session agreement
  // ---------------------------------------------------------------------------

  /** The completed cells a process has run, in order: the state its user relies on. */
  function CompletedCells(log: seq<Cell>): seq<Code> {
    if log == [] then []
    else
      var last := log[|log| - 1];
      CompletedCells(log[..|log| - 1]) + if last.status == CellCompleted then [last.code] else []
  }

  ghost predicate Agrees(w: World, id: SessionId) {
    id in w.server.shells ==>
      var shell := w.server.shells[id];
      !shell.alive || shell.restartPending || CompletedCells(shell.log) == HistoryOf(w.histories, id)
  }

  /** Between calls: every session is absent, dead, flagged, or holds exactly the client's history. */
  ghost predicate Agreement(w: World) {
    FlagIsExact(w.server) && forall id :: Agrees(w, id)
  }

  /** uuid4 never repeats a session known to either side. */
  ghost predicate IsFresh(w: World, id: SessionId) {
    id !in w.server.shells && id !in w.histories
  }

  /**
    The first way a call breaks agreement: its first request lands on a process that has run nothing, is
    interrupted without losing that process, and the client has a history.  The reply is a timeout, which
    the client never restores after, and the flag is gone.
  */
  predicate InterruptedBeforeRestore(w: World, call: Call, drawn: SessionId) {
    var id := Target(call, drawn);
    var s := Disturb(w.server, id, call.turns(0).before);
    var shell := Serving(s, id);
    var o := call.turns(0).outcome;
    shell.alive && shell.log == [] && o.Survives() && o.report == Interrupted && HistoryOf(w.histories, id) != []
  }

  /** The process that serves request `k` of a restore is alive, provided that request `k - 1` was answered. */
  predicate Alive(turns: nat -> Turn, k: nat) {
    k <= 1 || turns(k).before == WorkerRestarts || (turns(k).before == Calm && turns(k - 1).outcome.Survives())
  }

  /** Request `k` of a restore reports success, provided that request `k - 1` did. */
  predicate Succeeds(turns: nat -> Turn, k: nat) {
    Alive(turns, k) && turns(k).outcome.Completes()
  }

  /** The worker restarts somewhere between the first of `n` replayed cells and the new cell after them. */
  predicate RestartsInside(turns: nat -> Turn, n: nat) {
    exists k :: 2 <= k <= n + 1 && turns(k).before == WorkerRestarts
  }

  /**
    The second way: the client restores, every replayed cell succeeds, but the worker restarts after the first
    of them, and the process that then serves the new cell answers and lives on.
  */
  predicate RestartLosesReplay(w: World, call: Call, drawn: SessionId) {
    var id := Target(call, drawn);
    var n := |HistoryOf(w.histories, id)|;
    && Restores(w.server, call, id)
    && RestartsInside(call.turns, n)
    && (forall k :: 1 <= k <= n ==> Succeeds(call.turns, k))
    && Alive(call.turns, n + 1) && call.turns(n + 1).outcome.Survives()
  }

  lemma CompletedCellsSnoc(log: seq<Cell>, c: Cell)
    ensures CompletedCells(log + [c]) == CompletedCells(log) + if c.status == CellCompleted then [c.code] else []
  {
    assert (log + [c])[..|log|] == log;
  }

  lemma DisturbKeepsAgreement(w: World, id: SessionId, d: Disturbance)
    requires Agreement(w)
    ensures Agreement(World(Disturb(w.server, id, d), w.histories))
  {
    var s' := Disturb(w.server, id, d);
    forall other
      ensures Agrees(World(s', w.histories), other)
    {
      assert Agrees(w, other);
    }
  }

  lemma DisturbKeepsFlagExact(s: Server, id: SessionId, d: Disturbance)
    requires FlagIsExact(s)
    ensures FlagIsExact(Disturb(s, id, d))
  {
  }

  /** The completed cells of the process that a request for `id` reaches. */
  function Held(s: Server, id: SessionId): seq<Code> {
    CompletedCells(Serving(s, id).log)
  }

  /** What one request makes of the session it addresses. */
  lemma RequestEffect(s: Server, id: SessionId, code: Code, turn: Turn)
    requires FlagIsExact(s)
    ensures var (s', r) := Request(s, id, code, turn);
      && FlagIsExact(s') && id in s'.shells
      && (r.status == Completed <==> Serving(Disturb(s, id, turn.before), id).alive && turn.outcome.Completes())
      && (r.status == Completed ==> s'.shells[id].alive == turn.outcome.Survives())
      && (r.status == Completed ==> Held(s', id) == Held(Disturb(s, id, turn.before), id) + [code])
  {
    var s1 := Disturb(s, id, turn.before);
    DisturbKeepsFlagExact(s, id, turn.before);
    AfterRunKeepsFlagExact(s1, id, code, turn.outcome);
    var o := Resolve(Serving(s1, id), turn.outcome);
    if o.Answered() {
      CompletedCellsSnoc(Serving(s1, id).log, Recorded(code, o.report));
    }
  }

  /** Sessions other than `id` are the same in `w'` as in `w`, or gone from the server. */
  ghost predicate SameElsewhere(w: World, w': World, id: SessionId) {
    && (forall other :: other != id && other in w'.server.shells ==>
          other in w.server.shells && w'.server.shells[other] == w.server.shells[other])
    && (forall other :: other != id ==> HistoryOf(w'.histories, other) == HistoryOf(w.histories, other))
  }

  // ---------------------------------------------------------------------------
  // What a replay leaves behind
  // ---------------------------------------------------------------------------

  /** Every request leaves other sessions alone. */
  ghost predicate KeepsOthers(send: Requester, id: SessionId) {
    forall s: Server, code: Code, k: nat :: FlagIsExact(s) ==>
      FlagIsExact(send(s, code, k).0) && SameElsewhere(World(s, map[]), World(send(s, code, k).0, map[]), id)
  }

  /** A completed request adds its cell to what the session held, or starts from nothing after a restart. */
  ghost predicate AddsCells(send: Requester, id: SessionId, turns: nat -> Turn) {
    forall s: Server, code: Code, k: nat :: FlagIsExact(s) && send(s, code, k).1.status == Completed ==>
      Held(send(s, code, k).0, id) == (if turns(k).before == WorkerRestarts then [] else Held(s, id)) + [code]
  }

  /** Request `k` has been preceded by a restore's deletion or by a completed request. */
  ghost predicate Ready(s: Server, id: SessionId, turns: nat -> Turn, k: nat) {
    k >= 1 && if k == 1 then id !in s.shells else id in s.shells && s.shells[id].alive == turns(k - 1).outcome.Survives()
  }

  /** From a ready state exactly the good requests complete, and leave a ready state. */
  ghost predicate CompletesExactly(send: Requester, ready: (Server, nat) -> bool, good: nat -> bool) {
    forall s: Server, code: Code, k: nat :: ready(s, k) ==>
      && (send(s, code, k).1.status == Completed <==> good(k))
      && (good(k) ==> ready(send(s, code, k).0, k + 1))
  }

  lemma RequestsKeepOthers(id: SessionId, turns: nat -> Turn)
    ensures KeepsOthers(Requests(id, turns), id)
  {
    forall s: Server, code: Code, k: nat | FlagIsExact(s)
      ensures FlagIsExact(Requests(id, turns)(s, code, k).0)
      ensures SameElsewhere(World(s, map[]), World(Requests(id, turns)(s, code, k).0, map[]), id)
    {
      RequestEffect(s, id, code, turns(k));
    }
  }

  lemma RequestsAddCells(id: SessionId, turns: nat -> Turn)
    ensures AddsCells(Requests(id, turns), id, turns)
  {
    forall s: Server, code: Code, k: nat | FlagIsExact(s) && Requests(id, turns)(s, code, k).1.status == Completed
      ensures Held(Requests(id, turns)(s, code, k).0, id)
           == (if turns(k).before == WorkerRestarts then [] else Held(s, id)) + [code]
    {
      RequestEffect(s, id, code, turns(k));
    }
  }

  lemma AliveWhenReady(s: Server, id: SessionId, turns: nat -> Turn, k: nat)
    requires Ready(s, id, turns, k)
    ensures Serving(Disturb(s, id, turns(k).before), id).alive <==> Alive(turns, k)
  {
  }

  lemma RequestsSucceedExactly(id: SessionId, turns: nat -> Turn, ready: (Server, nat) -> bool, good: nat -> bool)
    requires forall s, k :: ready(s, k) <==> FlagIsExact(s) && Ready(s, id, turns, k)
    requires forall k :: good(k) <==> Succeeds(turns, k)
    ensures CompletesExactly(Requests(id, turns), ready, good)
  {
    forall s: Server, code: Code, k: nat | ready(s, k)
      ensures Requests(id, turns)(s, code, k).1.status == Completed <==> good(k)
      ensures good(k) ==> ready(Requests(id, turns)(s, code, k).0, k + 1)
    {
      RequestEffect(s, id, code, turns(k));
      AliveWhenReady(s, id, turns, k);
    }
  }

  lemma {:induction false} ReplayElsewhere(send: Requester, s: Server, id: SessionId, cells: seq<Code>, k: nat)
    requires FlagIsExact(s) && KeepsOthers(send, id)
    ensures var (s', ok) := Replay(send, s, cells, k);
      FlagIsExact(s') && SameElsewhere(World(s, map[]), World(s', map[]), id)
    decreases |cells|
  {
    if cells != [] && send(s, cells[0], k).1.status == Completed {
      ReplayElsewhere(send, send(s, cells[0], k).0, id, cells[1..], k + 1);
    }
  }

  /** The last request in `k..k + n` before which the worker restarts, or `k - 1`. */
  function LastRestart(turns: nat -> Turn, k: nat, n: nat): int {
    if n == 0 then k - 1 else if turns(k + n - 1).before == WorkerRestarts then k + n - 1 else LastRestart(turns, k, n - 1)
  }

  lemma {:induction false} LastRestartFromFront(turns: nat -> Turn, k: nat, n: nat)
    requires n > 0
    ensures LastRestart(turns, k, n) == (if LastRestart(turns, k + 1, n - 1) > k then LastRestart(turns, k + 1, n - 1)
                                         else if turns(k).before == WorkerRestarts then k else k - 1)
    ensures k <= LastRestart(turns, k + 1, n - 1) < k + n
  {
    if n > 1 {
      LastRestartFromFront(turns, k, n - 1);
    }
  }

  lemma {:induction false} LastRestartIsLast(turns: nat -> Turn, k: nat, n: nat)
    ensures k - 1 <= LastRestart(turns, k, n) < k + n || LastRestart(turns, k, n) == k - 1
    ensures LastRestart(turns, k, n) >= k ==> turns(LastRestart(turns, k, n)).before == WorkerRestarts
    ensures forall j :: LastRestart(turns, k, n) < j < k + n && k <= j ==> turns(j).before != WorkerRestarts
  {
    if n > 0 {
      LastRestartIsLast(turns, k, n - 1);
    }
  }

  /** The last cells from the `j`-th on, or all of them on top of what was held if `j` is negative. */
  function Since(held: seq<Code>, cells: seq<Code>, j: int): seq<Code>
    requires j <= |cells|
  {
    if j < 0 then held + cells else cells[j..]
  }

  /** What a session holds once `cells` have been replayed: only those since the last restart, if there was one. */
  function Left(held: seq<Code>, cells: seq<Code>, turns: nat -> Turn, k: nat): seq<Code> {
    LastRestartIsLast(turns, k, |cells|);
    Since(held, cells, LastRestart(turns, k, |cells|) - k)
  }

  lemma SinceStep(held: seq<Code>, cells: seq<Code>, j: int, restarts: bool)
    requires cells != [] && j <= |cells| && (j == 0 ==> restarts) && (j < 0 ==> j == -1 && !restarts)
    ensures Since((if restarts then [] else held) + [cells[0]], cells[1..], if j > 0 then j - 1 else -1) == Since(held, cells, j)
  {
    HeadAndTail(cells);
    if j > 0 {
      DropFurther(cells, j);
    } else if j == 0 {
      assert [] + [cells[0]] == [cells[0]] && cells[0..] == cells;
    } else {
      AppendAssociates(held, [cells[0]], cells[1..]);
    }
  }

  lemma LeftStep(held: seq<Code>, cells: seq<Code>, turns: nat -> Turn, k: nat)
    requires cells != []
    ensures Left((if turns(k).before == WorkerRestarts then [] else held) + [cells[0]], cells[1..], turns, k + 1)
         == Left(held, cells, turns, k)
  {
    LastRestartFromFront(turns, k, |cells|);
    LastRestartIsLast(turns, k, |cells|);
    SinceStep(held, cells, LastRestart(turns, k, |cells|) - k, turns(k).before == WorkerRestarts);
  }

  /** A replay that succeeds leaves exactly the cells since the last restart, on top of what was held if there was none. */
  lemma {:induction false} ReplayLeaves(send: Requester, s: Server, id: SessionId, cells: seq<Code>, turns: nat -> Turn, k: nat)
    requires FlagIsExact(s) && KeepsOthers(send, id) && AddsCells(send, id, turns)
    ensures var (s', ok) := Replay(send, s, cells, k);
      ok ==> Held(s', id) == Left(Held(s, id), cells, turns, k)
    decreases |cells|
  {
    if cells == [] {
      assert Held(s, id) + [] == Held(s, id);
    } else if send(s, cells[0], k).1.status == Completed {
      ReplayLeaves(send, send(s, cells[0], k).0, id, cells[1..], turns, k + 1);
      LeftStep(Held(s, id), cells, turns, k);
    }
  }

  lemma {:induction false} ReplayCompletesIff(send: Requester, s: Server, cells: seq<Code>, k: nat,
                                               ready: (Server, nat) -> bool, good: nat -> bool)
    requires CompletesExactly(send, ready, good) && ready(s, k)
    ensures var (s', ok) := Replay(send, s, cells, k);
      && (ok <==> forall j :: k <= j < k + |cells| ==> good(j))
      && (ok ==> ready(s', k + |cells|))
    decreases |cells|
  {
    if cells != [] && good(k) {
      ReplayCompletesIff(send, send(s, cells[0], k).0, cells[1..], k + 1, ready, good);
    }
  }

  /** A replay succeeds exactly when every one of its requests does. */
  lemma ReplaySucceedsIff(s: Server, id: SessionId, cells: seq<Code>, turns: nat -> Turn)
    requires FlagIsExact(s) && id !in s.shells
    ensures var (s', ok) := Replay(Requests(id, turns), s, cells, 1);
      && (ok <==> forall j :: 1 <= j <= |cells| ==> Succeeds(turns, j))
      && (ok ==> Ready(s', id, turns, |cells| + 1))
  {
    ghost var ready: (Server, nat) -> bool := (t: Server, k: nat) => FlagIsExact(t) && Ready(t, id, turns, k);
    var good: nat -> bool := (k: nat) => Succeeds(turns, k);
    RequestsSucceedExactly(id, turns, ready, good);
    ReplayCompletesIff(Requests(id, turns), s, cells, 1, ready, good);
    assert forall j :: 1 <= j < 1 + |cells| ==> (good(j) <==> Succeeds(turns, j));
  }

  lemma ElsewhereAgrees(w: World, w': World, id: SessionId)
    requires Agreement(w) && SameElsewhere(w, w', id)
    ensures forall other :: other != id ==> Agrees(w', other)
  {
    forall other | other != id
      ensures Agrees(w', other)
    {
      assert Agrees(w, other);
    }
  }

  // ---------------------------------------------------------------------------
  // The final request
  // ---------------------------------------------------------------------------

  /** The new cell ran on a process that held precisely the history. */
  ghost predicate RanOnHistory(w: World, w': World, id: SessionId, code: Code) {
    id in w'.server.shells && CompletedCells(w'.server.shells[id].log) == HistoryOf(w.histories, id) + [code]
  }

  /** What a call does to the client's history of its own session: it adds the cell, clears everything, or neither. */
  ghost predicate Remembers(w: World, w': World, status: ProcessStatus, id: SessionId, code: Code, clears: bool) {
    HistoryOf(w'.histories, id) ==
      if clears then [] else if status == Completed then HistoryOf(w.histories, id) + [code] else HistoryOf(w.histories, id)
  }

  /** A call that touches no other session and remembers what it should. */
  ghost predicate Frame(w: World, w': World, status: ProcessStatus, id: SessionId, code: Code, clears: bool) {
    FlagIsExact(w'.server) && SameElsewhere(w, w', id) && Remembers(w, w', status, id, code, clears)
  }

  lemma SettledFrame(w: World, id: SessionId, code: Code, turn: Turn)
    requires FlagIsExact(w.server)
    ensures var (w', status) := Settled(w, id, code, turn); Frame(w, w', status, id, code, false)
  {
    RequestEffect(w.server, id, code, turn);
    RequestsKeepOthers(id, (k: nat) => turn);
    assert Requests(id, (k: nat) => turn)(w.server, code, 0) == Request(w.server, id, code, turn);
  }

  /** A final request: agreement afterwards depends only on what the process held, if it lives on. */
  lemma SettledAgreesIff(w: World, id: SessionId, code: Code, turn: Turn)
    requires FlagIsExact(w.server)
    ensures var (w', status) := Settled(w, id, code, turn);
      var s1 := Disturb(w.server, id, turn.before);
      && (Agrees(w', id) <==>
            Held(s1, id) == HistoryOf(w.histories, id) || !(Serving(s1, id).alive && turn.outcome.Survives()))
      && (status == Completed ==> (RanOnHistory(w, w', id, code) <==> Held(s1, id) == HistoryOf(w.histories, id)))
  {
    var s1 := Disturb(w.server, id, turn.before);
    var o := Resolve(Serving(s1, id), turn.outcome);
    if o.Answered() {
      CompletedCellsSnoc(Serving(s1, id).log, Recorded(code, o.report));
      SnocInjective(Held(s1, id), HistoryOf(w.histories, id), code);
    }
  }

  lemma SnocInjective(xs: seq<Code>, ys: seq<Code>, c: Code)
    ensures xs + [c] == ys + [c] <==> xs == ys
  {
    if xs + [c] == ys + [c] {
      assert xs == (xs + [c])[..|xs|] && ys == (ys + [c])[..|ys|];
    }
  }

  // ---------------------------------------------------------------------------
  // A call that restores
  // ---------------------------------------------------------------------------

  /** The session is deleted and its history replayed. */
  lemma ReplayedExactly(w: World, call: Call, id: SessionId)
    requires FlagIsExact(w.server)
    ensures var history := HistoryOf(w.histories, id);
      var cleared := AfterDelete(Request(w.server, id, call.code, call.turns(0)).0, id);
      var (s2, restored) := Replay(Requests(id, call.turns), cleared, history, 1);
      && FlagIsExact(s2)
      && SameElsewhere(World(w.server, map[]), World(s2, map[]), id)
      && (restored <==> forall k :: 1 <= k <= |history| ==> Succeeds(call.turns, k))
      && (restored ==> Ready(s2, id, call.turns, |history| + 1))
      && (restored ==> Held(s2, id) == Left([], history, call.turns, 1))
  {
    var history := HistoryOf(w.histories, id);
    var s1 := Request(w.server, id, call.code, call.turns(0)).0;
    RequestEffect(w.server, id, call.code, call.turns(0));
    var cleared := AfterDelete(s1, id);
    assert FlagIsExact(cleared) && Held(cleared, id) == [];
    assert SameElsewhere(World(w.server, map[]), World(cleared, map[]), id);
    RequestsKeepOthers(id, call.turns);
    RequestsAddCells(id, call.turns);
    ReplayElsewhere(Requests(id, call.turns), cleared, id, history, 1);
    ReplayLeaves(Requests(id, call.turns), cleared, id, history, call.turns, 1);
    ReplaySucceedsIff(cleared, id, history, call.turns);
  }

  /** All of the history is left exactly when the worker did not restart after its first cell. */
  lemma LeavesAllIff(history: seq<Code>, turns: nat -> Turn)
    ensures Left([], history, turns, 1) == history <==> forall k :: 2 <= k <= |history| ==> turns(k).before != WorkerRestarts
  {
    var n := |history|;
    LastRestartIsLast(turns, 1, n);
    var r := LastRestart(turns, 1, n);
    if r >= 2 {
      assert |Since([], history, r - 1)| < n;
    } else {
      assert [] + history == history && history[0..] == history;
    }
  }

  /** The process serving the new cell holds the history exactly when the worker did not restart inside. */
  lemma HoldsHistoryIff(s: Server, id: SessionId, history: seq<Code>, turns: nat -> Turn)
    requires Held(s, id) == Left([], history, turns, 1)
    ensures Held(Disturb(s, id, turns(|history| + 1).before), id) == history <==> !RestartsInside(turns, |history|)
  {
    var n := |history|;
    LeavesAllIff(history, turns);
    DisturbedHolds(s, id, turns(n + 1).before);
    if RestartsInside(turns, n) {
      var k :| 2 <= k <= n + 1 && turns(k).before == WorkerRestarts;
    } else if turns(n + 1).before == WorkerRestarts {
      assert n == 0;
    }
  }

  lemma DisturbedHolds(s: Server, id: SessionId, d: Disturbance)
    ensures Held(Disturb(s, id, d), id) == if d == WorkerRestarts then [] else Held(s, id)
  {
  }

  /** After the replay: agreement is lost exactly if it succeeded, a restart came inside, and the process lives on. */
  lemma AfterReplayIff(w: World, id: SessionId, code: Code, turns: nat -> Turn, s2: Server, restored: bool)
    requires FlagIsExact(s2) && SameElsewhere(World(w.server, map[]), World(s2, map[]), id)
    requires restored ==> Ready(s2, id, turns, |HistoryOf(w.histories, id)| + 1)
    requires restored ==> Held(s2, id) == Left([], HistoryOf(w.histories, id), turns, 1)
    ensures var n := |HistoryOf(w.histories, id)|;
      var (w', status) := AfterReplay(w, id, code, turns(n + 1), s2, restored);
      && Frame(w, w', status, id, code, !restored)
      && (restored || (status == Error && id !in w'.server.shells && id !in w'.histories))
      && (Agrees(w', id) <==>
            !(restored && RestartsInside(turns, n) && Alive(turns, n + 1) && turns(n + 1).outcome.Survives()))
      && (status == Completed ==> (RanOnHistory(w, w', id, code) <==> !RestartsInside(turns, n)))
  {
    var history := HistoryOf(w.histories, id);
    if restored {
      var w2 := World(s2, w.histories[id := history]);
      var turn := turns(|history| + 1);
      assert SameElsewhere(w, w2, id);
      SettledFrame(w2, id, code, turn);
      SettledAgreesIff(w2, id, code, turn);
      HoldsHistoryIff(s2, id, history, turns);
      AliveWhenReady(s2, id, turns, |history| + 1);
      FrameTrans(w, w2, Settled(w2, id, code, turn).0, Settled(w2, id, code, turn).1, id, code);
    } else {
      assert HistoryOf(w.histories - {id}, id) == [];
    }
  }

  lemma FrameTrans(w: World, w2: World, w': World, status: ProcessStatus, id: SessionId, code: Code)
    requires SameElsewhere(w, w2, id) && HistoryOf(w2.histories, id) == HistoryOf(w.histories, id)
    requires Frame(w2, w', status, id, code, false)
    ensures Frame(w, w', status, id, code, false)
  {
    forall other | other != id && other in w'.server.shells
      ensures other in w.server.shells && w'.server.shells[other] == w.server.shells[other]
    {
      assert other in w2.server.shells;
    }
  }

  /** Every cell of the history is replayed without an error. */
  predicate ReplaySucceeds(w: World, call: Call, id: SessionId) {
    forall k :: 1 <= k <= |HistoryOf(w.histories, id)| ==> Succeeds(call.turns, k)
  }

  /** The call reports an error, and neither side knows the session any more. */
  predicate Forgotten(w: World, status: ProcessStatus, id: SessionId) {
    status == Error && id !in w.server.shells && id !in w.histories
  }

  lemma RestoredAgreesIff(w: World, call: Call, drawn: SessionId)
    requires FlagIsExact(w.server) && Restores(w.server, call, Target(call, drawn))
    ensures var id := Target(call, drawn);
      var (w', status) := Restored(w, call, id);
      && Frame(w, w', status, id, call.code, !ReplaySucceeds(w, call, id))
      && (ReplaySucceeds(w, call, id) || Forgotten(w', status, id))
      && (Agrees(w', id) <==> !RestartLosesReplay(w, call, drawn))
      && (status == Completed ==>
            (RanOnHistory(w, w', id, call.code) <==> !RestartsInside(call.turns, |HistoryOf(w.histories, id)|)))
  {
    var id := Target(call, drawn);
    var history := HistoryOf(w.histories, id);
    ReplayedExactly(w, call, id);
    var cleared := AfterDelete(Request(w.server, id, call.code, call.turns(0)).0, id);
    var (s2, restored) := Replay(Requests(id, call.turns), cleared, history, 1);
    AfterReplayIff(w, id, call.code, call.turns, s2, restored);
  }

  // ---------------------------------------------------------------------------
  // A call that does not restore
  // ---------------------------------------------------------------------------

  /** What the process that serves the first request holds, when the session is not restored. */
  lemma DirectHolds(w: World, call: Call, id: SessionId)
    requires Agreement(w) && !Restores(w.server, call, id)
    requires call.session.None? ==> IsFresh(w, id)
    ensures var s1 := Disturb(w.server, id, call.turns(0).before);
      var shell, o := Serving(s1, id), call.turns(0).outcome;
      shell.alive && o.Survives() ==>
        (Held(s1, id) == HistoryOf(w.histories, id) <==>
           !(shell.log == [] && o.report == Interrupted && HistoryOf(w.histories, id) != []))
  {
    DisturbKeepsAgreement(w, id, call.turns(0).before);
    var s1 := Disturb(w.server, id, call.turns(0).before);
    assert Agrees(World(s1, w.histories), id);
    assert Agrees(w, id);
  }

  lemma DirectCompletes(w: World, call: Call, id: SessionId)
    requires Agreement(w) && !Restores(w.server, call, id)
    requires call.session.None? ==> IsFresh(w, id)
    requires Settled(w, id, call.code, call.turns(0)).1 == Completed
    ensures Held(Disturb(w.server, id, call.turns(0).before), id) == HistoryOf(w.histories, id)
  {
    DisturbKeepsAgreement(w, id, call.turns(0).before);
    var s1 := Disturb(w.server, id, call.turns(0).before);
    assert Agrees(World(s1, w.histories), id);
    assert Agrees(w, id);
  }

  lemma DirectAgreesIff(w: World, call: Call, drawn: SessionId)
    requires Agreement(w) && !Restores(w.server, call, Target(call, drawn))
    requires call.session.None? ==> IsFresh(w, drawn)
    ensures var id := Target(call, drawn);
      var (w', status) := Settled(w, id, call.code, call.turns(0));
      && Frame(w, w', status, id, call.code, false)
      && (Agrees(w', id) <==> !InterruptedBeforeRestore(w, call, drawn))
      && (status == Completed ==> RanOnHistory(w, w', id, call.code))
  {
    var id := Target(call, drawn);
    SettledFrame(w, id, call.code, call.turns(0));
    SettledAgreesIff(w, id, call.code, call.turns(0));
    DirectHolds(w, call, id);
    if Settled(w, id, call.code, call.turns(0)).1 == Completed {
      DirectCompletes(w, call, id);
    }
  }

  // ---------------------------------------------------------------------------
  // Every call
  // ---------------------------------------------------------------------------

  /**
    Whatever the processes and the worker do: agreement survives a call except in exactly two cases, an
    interruption before the restore and a restart inside it.  The client clears the history exactly when a replay
    fails, and otherwise adds the cell to it if and only if the cell completed; and a completed cell ran on a process
    holding precisely the history unless the call restored and the worker restarted inside.
  */
  lemma CallKeepsAgreementIff(w: World, call: Call, drawn: SessionId)
    requires Agreement(w)
    requires call.session.None? ==> IsFresh(w, drawn)
    ensures var id := Target(call, drawn);
      var (w', status) := Executed(w, call, drawn);
      && (Agreement(w') <==> !InterruptedBeforeRestore(w, call, drawn) && !RestartLosesReplay(w, call, drawn))
      && Remembers(w, w', status, id, call.code, Restores(w.server, call, id) && !ReplaySucceeds(w, call, id))
      && (status == Completed ==>
            (RanOnHistory(w, w', id, call.code) <==>
               !(Restores(w.server, call, id) && RestartsInside(call.turns, |HistoryOf(w.histories, id)|))))
  {
    var id := Target(call, drawn);
    var w' := Executed(w, call, drawn).0;
    if Restores(w.server, call, id) {
      RestoredAgreesIff(w, call, drawn);
      assert !InterruptedBeforeRestore(w, call, drawn);
    } else {
      DirectAgreesIff(w, call, drawn);
    }
    ElsewhereAgrees(w, w', id);
  }

  /**
    Only a session that the caller names, and that an answer other than a timeout announces as new, is restored: any
    other call is a single request, for the named session or for the uuid drawn, and changes at most that history.
  */
  lemma OneRequestOtherwise(w: World, call: Call, drawn: SessionId, id: SessionId)
    requires call.session == Some(id) || (call.session.None? && id == drawn)
    ensures var (s', r) := Request(w.server, id, call.code, call.turns(0));
      call.session.None? || !r.newSession || r.status == Timeout ==>
        Executed(w, call, drawn) == (World(s', if r.status == Completed
                                               then w.histories[id := HistoryOf(w.histories, id) + [call.code]]
                                               else w.histories), r.status)
  {
  }

  /** A restore with a cell that does not complete again: the call reports an error and both sides forget the session. */
  lemma FailedReplayForgets(w: World, call: Call, drawn: SessionId, k: nat)
    requires FlagIsExact(w.server) && Restores(w.server, call, Target(call, drawn))
    requires 1 <= k <= |HistoryOf(w.histories, Target(call, drawn))| && !Succeeds(call.turns, k)
    ensures var id := Target(call, drawn);
      var (w', status) := Executed(w, call, drawn);
      && status == Error && id !in w'.server.shells && id !in w'.histories
      && (forall other :: other != id ==> HistoryOf(w'.histories, other) == HistoryOf(w.histories, other))
  {
    RestoredAgreesIff(w, call, drawn);
  }

  /** A caller's own `delete_session` between two calls. */
  function Deleted(w: World, id: SessionId): World {
    World(AfterDelete(w.server, id), w.histories - {id})
  }

  lemma DeletingKeepsAgreement(w: World, id: SessionId)
    requires Agreement(w)
    ensures Agreement(Deleted(w, id))
  {
    forall other
      ensures Agrees(Deleted(w, id), other)
    {
      assert Agrees(w, other);
    }
  }

  // ---------------------------------------------------------------------------
  // Whole runs
  // ---------------------------------------------------------------------------

  /** A call together with the uuid that is drawn should it name no session, or a deletion. */
  datatype Step = Calls(call: Call, drawn: SessionId) | Deletes(id: SessionId)

  function Next(w: World, step: Step): World {
    match step
    case Calls(call, drawn) => Executed(w, call, drawn).0
    case Deletes(id) => Deleted(w, id)
  }

  /** Drawn uuids are new. */
  ghost predicate Admissible(w: World, steps: seq<Step>)
    decreases |steps|
  {
    steps != [] ==>
      && (steps[0].Calls? && steps[0].call.session.None? ==> IsFresh(w, steps[0].drawn))
      && Admissible(Next(w, steps[0]), steps[1..])
  }

  ghost predicate AgreesThroughout(w: World, steps: seq<Step>)
    decreases |steps|
  {
    Agreement(w) && (steps != [] ==> AgreesThroughout(Next(w, steps[0]), steps[1..]))
  }

  /** Neither of the two failures happens to any call. */
  predicate NeverBroken(w: World, steps: seq<Step>)
    decreases |steps|
  {
    steps != [] ==>
      && (steps[0].Calls? ==> !InterruptedBeforeRestore(w, steps[0].call, steps[0].drawn)
                              && !RestartLosesReplay(w, steps[0].call, steps[0].drawn))
      && NeverBroken(Next(w, steps[0]), steps[1..])
  }

  const START := World(EmptyServer(), map[])

  lemma {:induction false} AgreementFrom(w: World, steps: seq<Step>)
    requires Agreement(w) && Admissible(w, steps)
    ensures AgreesThroughout(w, steps) <==> NeverBroken(w, steps)
    decreases |steps|
  {
    if steps != [] {
      match steps[0] {
        case Calls(call, drawn) => CallKeepsAgreementIff(w, call, drawn);
        case Deletes(id) => DeletingKeepsAgreement(w, id);
      }
      if Agreement(Next(w, steps[0])) {
        AgreementFrom(Next(w, steps[0]), steps[1..]);
      }
    }
  }

  /**
    Over all runs of calls and deletions from the empty state, with processes dying and workers restarting before
    any request: agreement holds throughout if and only if no call was interrupted before a restore and none
    lost its replay to a restart.
  */
  lemma AgreementInEveryRun(steps: seq<Step>)
    requires Admissible(START, steps)
    ensures AgreesThroughout(START, steps) <==> NeverBroken(START, steps)
  {
    assert forall id :: Agrees(START, id);
    AgreementFrom(START, steps);
  }

  // ---------------------------------------------------------------------------
  // Both failures happen
  // ---------------------------------------------------------------------------

  const CALM_RUN := Turn(Calm, Reports(Ran(false)))
  const LOSING: nat -> Turn := (k: nat) => if k == 2 then Turn(WorkerRestarts, Reports(Ran(false))) else CALM_RUN
  const INTERRUPTING: nat -> Turn := (k: nat) => Turn(Calm, ReportsLate(Interrupted, true))

  /** The client remembers one cell, the server has no shell: a worker restarted or a process was lost. */
  function Remembered(id: SessionId): World {
    World(EmptyServer(), map[id := ["a"]])
  }

  /**
    A worker that restarts between two requests of one call: the replay is lost, the new cell completes on an
    empty process, and the client records it after cells that process never ran.
  */
  lemma RestartInsideDiverges(id: SessionId)
    ensures var call := Call("c", Some(id), LOSING);
      var (w', status) := Executed(Remembered(id), call, id);
      && Agreement(Remembered(id)) && status == Completed && !Agrees(w', id) && !RanOnHistory(Remembered(id), w', id, "c")
  {
    var w, call := Remembered(id), Call("c", Some(id), LOSING);
    var s1 := Request(w.server, id, "c", LOSING(0)).0;
    var cleared := AfterDelete(s1, id);
    var s2 := Request(cleared, id, "a", LOSING(1)).0;
    assert Replay(Requests(id, LOSING), s2, [], 2) == (s2, true);
    assert Replay(Requests(id, LOSING), cleared, ["a"], 1) == (s2, true);
    assert LOSING(2).before == WorkerRestarts;
    CallKeepsAgreementIff(w, call, id);
  }

  /**
    A first cell that is interrupted without losing its fresh process: the reply is a timeout, so nothing is
    restored, and the process goes on without the cells the client remembers.
  */
  lemma InterruptionDiverges(id: SessionId)
    ensures var call := Call("c", Some(id), INTERRUPTING);
      var (w', status) := Executed(Remembered(id), call, id);
      && Agreement(Remembered(id)) && status == Timeout && !Agreement(w')
  {
    var w, call := Remembered(id), Call("c", Some(id), INTERRUPTING);
    assert InterruptedBeforeRestore(w, call, id);
    CallKeepsAgreementIff(w, call, id);
  }
}
