/**
  The sandbox server's table of IPython shells (`ShellManager`) and the request
  handlers on top of it.

  A shell process is modelled by what it has run so far.  What the operating
  system and the user's code do with one request is an arbitrary `Outcome`, so
  every lemma below holds for every behaviour of the processes.
*/
module ShellManagers {
  type SessionId = string
  type Code = string

  datatype CellStatus = CellCompleted | CellErrored | CellInterrupted

  datatype Cell = Cell(code: Code, status: CellStatus)

  /** One shell process: `epoch` numbers the processes in starting order, `log` is what the process ran. */
  datatype Shell = Shell(epoch: nat, log: seq<Cell>, alive: bool, restartPending: bool)

  /** What the worker loop sends back after a cell. */
  datatype Report =
    | Ran(hasError: bool)  // IPython has run the cell
    | Raised               // an exception escaped IPython
    | Interrupted          // a KeyboardInterrupt escaped IPython

  /** What becomes of one request once it reaches the process. */
  datatype Outcome =
    | SendFails                                    // writing to the pipe raises
    | Reports(report: Report)                      // a report within the timeout
    | EofInTime                                    // the pipe closes within the timeout
    | ReportsLate(report: Report, survives: bool)  // a report in the grace period; SIGINT kills the process or not
    | EofInGrace                                   // the pipe closes after SIGINT
    | Silent                                       // nothing arrives, the process is terminated
  {
    predicate Answered() {
      Reports? || ReportsLate?
    }

    /** The process has answered and is still there. */
    predicate Survives() {
      Reports? || (ReportsLate? && survives)
    }

    /** The process reports that the cell ran without an error. */
    predicate Completes() {
      Answered() && report == Ran(false)
    }
  }

  datatype RawStatus = StatusOk(hasError: bool) | StatusError | StatusInterrupted | StatusTimeoutKilled

  datatype RawReply = RawReply(status: RawStatus, created: bool, restarted: bool, recentlyRestarted: bool)

  datatype ProcessStatus = Completed | Error | Timeout

  datatype Response = Response(status: ProcessStatus, newSession: bool)

  datatype Server = Server(shells: map<SessionId, Shell>, epochs: nat)

  function Fresh(epoch: nat, pending: bool): Shell {
    Shell(epoch, [], true, pending)
  }

  /** A dead process never answers: its pipe end is closed. */
  function Resolve(shell: Shell, o: Outcome): Outcome {
    if !shell.alive && o.Answered() then EofInTime else o
  }

  /** The cell recorded by the process, as the report describes it. */
  function Recorded(code: Code, r: Report): Cell {
    Cell(code, match r
               case Ran(hasError) => if hasError then CellErrored else CellCompleted
               case Raised => CellErrored
               case Interrupted => CellInterrupted)
  }

  /** The status that `run_cell` passes on with a report. */
  function StatusOf(r: Report): RawStatus {
    match r
    case Ran(hasError) => StatusOk(hasError)
    case Raised => StatusError
    case Interrupted => StatusInterrupted
  }

  lemma PutTwice(shells: map<SessionId, Shell>, id: SessionId, first: Shell, second: Shell)
    ensures shells[id := first][id := second] == shells[id := second]
  {
  }

  class ShellManager {
    var shells: map<SessionId, Shell>
    var epochs: nat

    function State(): Server
      reads this
    {
      Server(shells, epochs)
    }

    constructor ()
      ensures State() == EmptyServer()
    {
      shells, epochs := map[], 0;
    }

    method StartShell(id: SessionId)
      modifies this
      ensures shells == old(shells)[id := Fresh(old(epochs), false)] && epochs == old(epochs) + 1
    {
      shells := shells[id := Fresh(epochs, false)];
      epochs := epochs + 1;
    }

    method StopShell(id: SessionId)
      modifies this
      ensures shells == old(shells) - {id} && epochs == old(epochs)
    {
      shells := shells - {id};
    }

    method FinishRestart(id: SessionId)
      modifies this
      ensures shells == old(shells)[id := Fresh(old(epochs), true)] && epochs == old(epochs) + 1
    {
      StartShell(id);
      if id in shells {
        shells := shells[id := shells[id].(restartPending := true)];
      }
    }

    /** The process behind `id` is lost: drop its entry and start a flagged replacement. */
    method ReplaceShell(id: SessionId)
      modifies this
      ensures shells == old(shells)[id := Fresh(old(epochs), true)] && epochs == old(epochs) + 1
    {
      StopShell(id);
      FinishRestart(id);
    }

    /** The shell of a request: its pending flag is taken note of and cleared, a missing one is started. */
    method TakeShell(id: SessionId) returns (created: bool, recently: bool)
      modifies this
      ensures created == (id !in old(shells)) && recently == (!created && old(shells)[id].restartPending)
      ensures State() == Server(old(shells)[id := Serving(old(State()), id).(restartPending := false)], Started(old(State()), id))
    {
      created, recently := id !in shells, false;
      if !created && shells[id].restartPending {
        recently := true;
        shells := shells[id := shells[id].(restartPending := false)];
      }
      if created {
        StartShell(id);
      } else {
        assert shells == shells[id := shells[id]];
      }
    }

    method RunCell(id: SessionId, code: Code, o: Outcome) returns (reply: RawReply)
      modifies this
      ensures State() == AfterRun(old(State()), id, code, o)
      ensures Answer(reply) == ResponseTo(old(State()), id, o)
      ensures reply.status.StatusTimeoutKilled? ==> reply.restarted
      ensures forall other :: other != id ==>
        (other in shells <==> other in old(shells)) && (other in shells ==> shells[other] == old(shells)[other])
    {
      var created, recently := TakeShell(id);
      var shell := shells[id];
      var outcome := Resolve(shell, o);
      PutTwice(old(shells), id, shell, Fresh(epochs, true));
      if outcome.SendFails? {
        ReplaceShell(id);
        return RawReply(StatusError, created, true, recently);
      }
      // Within the timeout.
      if outcome.Reports? {
        PutTwice(old(shells), id, shell, shell.(log := shell.log + [Recorded(code, outcome.report)]));
        shells := shells[id := shell.(log := shell.log + [Recorded(code, outcome.report)])];
        return RawReply(StatusOf(outcome.report), created, false, recently);
      }
      if outcome.EofInTime? {
        ReplaceShell(id);
        return RawReply(StatusError, created, true, recently);
      }
      // SIGINT has been sent: within the grace period.
      if outcome.ReportsLate? {
        ghost var after := shell.(log := shell.log + [Recorded(code, outcome.report)], alive := outcome.survives);
        PutTwice(old(shells), id, shell, after);
        shells := shells[id := shell.(log := shell.log + [Recorded(code, outcome.report)], alive := outcome.survives)];
        return RawReply(StatusOf(outcome.report), created, false, recently);
      }
      if outcome.EofInGrace? {
        ReplaceShell(id);
        return RawReply(StatusInterrupted, created, true, recently);
      }
      ReplaceShell(id);
      // This reply carries no `shell_was_created` key.
      reply := RawReply(StatusTimeoutKilled, false, true, recently);
    }

    method ExecuteIpythonSession(id: SessionId, code: Code, o: Outcome) returns (r: Response)
      modifies this
      ensures State() == AfterRun(old(State()), id, code, o)
      ensures r == ResponseTo(old(State()), id, o)
    {
      var reply := RunCell(id, code, o);
      var newSession := reply.created || reply.restarted || reply.recentlyRestarted;
      match reply.status {
        case StatusOk(e) => r := Response(if e then Error else Completed, newSession);
        case StatusTimeoutKilled => r := Response(Timeout, true);
        case StatusInterrupted => r := Response(Timeout, if reply.restarted then true else newSession);
        case StatusError => r := Response(Error, if reply.restarted then true else newSession);
      }
    }

    /** The DELETE handler: 200 when the session existed, 404 otherwise. */
    method DeleteSession(id: SessionId) returns (httpStatus: nat)
      modifies this
      ensures State() == AfterDelete(old(State()), id)
      ensures httpStatus == (if id in old(shells) then 200 else 404)
    {
      if id in shells {
        StopShell(id);
        httpStatus := 200;
      } else {
        assert shells - {id} == shells;
        httpStatus := 404;
      }
    }
  }

  /** The response `execute_ipython_session` derives from a raw reply. */
  function Answer(reply: RawReply): Response {
    Response(match reply.status
             case StatusOk(e) => if e then Error else Completed
             case StatusTimeoutKilled => Timeout
             case StatusInterrupted => Timeout
             case StatusError => Error,
             reply.created || reply.restarted || reply.recentlyRestarted)
  }

  // ---------------------------------------------------------------------------
  // The specification of a request
  // ---------------------------------------------------------------------------

  function EmptyServer(): Server {
    Server(map[], 0)
  }

  /** The process that a request for `id` reaches. */
  function Serving(s: Server, id: SessionId): Shell {
    if id in s.shells then s.shells[id] else Fresh(s.epochs, false)
  }

  function Started(s: Server, id: SessionId): nat {
    if id in s.shells then s.epochs else s.epochs + 1
  }

  /** Does the request cost the session its process? */
  predicate Lost(s: Server, id: SessionId, o: Outcome) {
    !Resolve(Serving(s, id), o).Answered()
  }

  function AfterRun(s: Server, id: SessionId, code: Code, o: Outcome): Server {
    var shell := Serving(s, id);
    var outcome := Resolve(shell, o);
    if outcome.Answered() then
      Server(s.shells[id := Shell(shell.epoch, shell.log + [Recorded(code, outcome.report)], outcome.Survives(), false)],
             Started(s, id))
    else
      Server(s.shells[id := Fresh(Started(s, id), true)], Started(s, id) + 1)
  }

  function ResponseTo(s: Server, id: SessionId, o: Outcome): Response {
    var outcome := Resolve(Serving(s, id), o);
    Response(if outcome.Answered() then
               match outcome.report
               case Ran(hasError) => if hasError then Error else Completed
               case Raised => Error
               case Interrupted => Timeout
             else if outcome.SendFails? || outcome.EofInTime? then Error else Timeout,
             id !in s.shells || s.shells[id].restartPending || !outcome.Answered())
  }

  function AfterDelete(s: Server, id: SessionId): Server {
    s.(shells := s.shells - {id})
  }

  /** A shell process dies between two requests; nobody notices yet. */
  function AfterDeath(s: Server, id: SessionId): Server {
    if id in s.shells then s.(shells := s.shells[id := s.shells[id].(alive := false)]) else s
  }

  /** Nobody has found out yet, but the process behind `id` is dead. */
  predicate Dead(s: Server, id: SessionId) {
    id in s.shells && !s.shells[id].alive
  }

  /**
    What the client is told: "completed" exactly if a living process ran the cell without an error, "timeout" exactly if
    the cell was interrupted or the process was still silent when its time was up, and "error" otherwise, a process
    that was found dead included.
  */
  lemma StatusIff(s: Server, id: SessionId, o: Outcome)
    ensures var status := ResponseTo(s, id, o).status;
      && (status == Completed <==> !Dead(s, id) && o.Answered() && o.report == Ran(false))
      && (status == Timeout <==> (!Dead(s, id) && o.Answered() && o.report == Interrupted) || o.EofInGrace? || o.Silent?)
  {
  }

  // ---------------------------------------------------------------------------
  // No silent loss of state
  // ---------------------------------------------------------------------------

  /** The flag marks exactly the processes that have run nothing yet. */
  ghost predicate FlagIsExact(s: Server) {
    forall id :: id in s.shells ==> (s.shells[id].restartPending <==> s.shells[id].log == [])
  }

  lemma AfterRunKeepsFlagExact(s: Server, id: SessionId, code: Code, o: Outcome)
    requires FlagIsExact(s)
    ensures FlagIsExact(AfterRun(s, id, code, o))
  {
    var s' := AfterRun(s, id, code, o);
    forall other | other in s'.shells
      ensures s'.shells[other].restartPending <==> s'.shells[other].log == []
    {
      if other != id {
        assert other in s.shells && s'.shells[other] == s.shells[other];
      }
    }
  }

  datatype Event =
    | Run(id: SessionId, code: Code, outcome: Outcome)
    | Delete(id: SessionId)
    | Dies(id: SessionId)

  /** What an observer of the server writes down about one cell: which process it reached, whether the
      response announced a new session, and whether the process was lost. */
  datatype Observation = Observation(epoch: nat, announced: bool, lost: bool)

  function Next(s: Server, e: Event): Server {
    match e
    case Run(id, code, o) => AfterRun(s, id, code, o)
    case Delete(id) => AfterDelete(s, id)
    case Dies(id) => AfterDeath(s, id)
  }

  function Observe(s: Server, e: Event): seq<Observation> {
    if e.Run? then
      [Observation(Serving(s, e.id).epoch, ResponseTo(s, e.id, e.outcome).newSession, Lost(s, e.id, e.outcome))]
    else []
  }

  function Observations(s: Server, es: seq<Event>): seq<Observation>
    decreases |es|
  {
    if es == [] then [] else Observe(s, es[0]) + Observations(Next(s, es[0]), es[1..])
  }

  ghost predicate FirstOfItsProcess(obs: seq<Observation>, j: nat)
    requires j < |obs|
  {
    forall i :: 0 <= i < j ==> obs[i].epoch != obs[j].epoch
  }

  /** `used` are the processes that have been sent a cell. */
  ghost predicate Tracks(s: Server, used: set<nat>) {
    && (forall e :: e in used ==> e < s.epochs)
    && (forall id :: id in s.shells ==>
          s.shells[id].epoch < s.epochs && (s.shells[id].epoch !in used <==> s.shells[id].restartPending))
    && (forall a, b :: a in s.shells && b in s.shells && a != b ==> s.shells[a].epoch != s.shells[b].epoch)
  }

  function Seen(used: set<nat>, head: seq<Observation>): set<nat> {
    used + set o | o in head :: o.epoch
  }

  lemma RunTracks(s: Server, id: SessionId, code: Code, o: Outcome, used: set<nat>)
    requires Tracks(s, used)
    ensures Tracks(AfterRun(s, id, code, o), used + {Serving(s, id).epoch})
  {
    var s' := AfterRun(s, id, code, o);
    var used' := used + {Serving(s, id).epoch};
    forall a | a in s'.shells && a != id
      ensures a in s.shells && s'.shells[a] == s.shells[a]
      ensures s.shells[a].epoch != Serving(s, id).epoch
    {
    }
    assert s'.shells[id].epoch < s'.epochs;
    assert s'.shells[id].epoch !in used' <==> s'.shells[id].restartPending;
  }

  lemma NextTracks(s: Server, e: Event, used: set<nat>)
    requires Tracks(s, used)
    ensures Tracks(Next(s, e), Seen(used, Observe(s, e)))
  {
    match e
    case Run(id, code, o) =>
      RunTracks(s, id, code, o, used);
      assert Observe(s, e)[0] in Observe(s, e);
      assert Seen(used, Observe(s, e)) == used + {Serving(s, id).epoch};
    case Delete(id) =>
      assert Seen(used, Observe(s, e)) == used;
    case Dies(id) =>
      assert Seen(used, Observe(s, e)) == used;
  }

  lemma RunAnnounces(s: Server, id: SessionId, code: Code, o: Outcome, used: set<nat>)
    requires Tracks(s, used)
    ensures ResponseTo(s, id, o).newSession <==> Serving(s, id).epoch !in used || Lost(s, id, o)
    ensures Lost(s, id, o) ==> var s' := AfterRun(s, id, code, o);
      forall a :: a in s'.shells ==> s'.shells[a].epoch != Serving(s, id).epoch
  {
  }

  /** `gone` are processes no session refers to any more; they never serve again. */
  lemma {:induction false} GoneStaysGone(s: Server, es: seq<Event>, used: set<nat>, epoch: nat)
    requires Tracks(s, used) && epoch in used
    requires forall id :: id in s.shells ==> s.shells[id].epoch != epoch
    ensures forall k :: 0 <= k < |Observations(s, es)| ==> Observations(s, es)[k].epoch != epoch
    decreases |es|
  {
    if es != [] {
      NextTracks(s, es[0], used);
      GoneStaysGone(Next(s, es[0]), es[1..], Seen(used, Observe(s, es[0])), epoch);
    }
  }

  ghost predicate AnnouncedExactly(obs: seq<Observation>, used: set<nat>, j: nat)
    requires j < |obs|
  {
    && (obs[j].announced <==> (FirstOfItsProcess(obs, j) && obs[j].epoch !in used) || obs[j].lost)
    && (obs[j].lost ==> forall k :: j < k < |obs| ==> obs[k].epoch != obs[j].epoch)
  }

  lemma {:induction false} AnnouncementsFrom(s: Server, es: seq<Event>, used: set<nat>)
    requires Tracks(s, used)
    ensures forall j :: 0 <= j < |Observations(s, es)| ==> AnnouncedExactly(Observations(s, es), used, j)
    decreases |es|
  {
    if es != [] {
      var obs := Observations(s, es);
      var rest := Observations(Next(s, es[0]), es[1..]);
      var head := Observe(s, es[0]);
      var used' := Seen(used, head);
      NextTracks(s, es[0], used);
      AnnouncementsFrom(Next(s, es[0]), es[1..], used');
      if es[0].Run? {
        RunAnnounces(s, es[0].id, es[0].code, es[0].outcome, used);
        assert head[0] in head;
        assert used' == used + {head[0].epoch};
        assert obs == [head[0]] + rest;
        if head[0].lost {
          GoneStaysGone(Next(s, es[0]), es[1..], used', head[0].epoch);
        }
        forall j | 0 <= j < |obs|
          ensures AnnouncedExactly(obs, used, j)
        {
          if j > 0 {
            assert AnnouncedExactly(rest, used', j - 1);
            assert obs[j] == rest[j - 1];
            if FirstOfItsProcess(obs, j) {
              assert obs[0].epoch != obs[j].epoch;
              forall i | 0 <= i < j - 1
                ensures rest[i].epoch != rest[j - 1].epoch
              {
                assert obs[i + 1].epoch != obs[j].epoch;
              }
            }
          }
        }
      } else {
        assert used' == used;
        assert obs == rest;
      }
    }
  }

  /**
    In every run of the server, a response announces a new session exactly when its cell was the
    first one its process ever received, or when the process was lost while running it; and a lost
    process never receives another cell.  So no session silently continues on an empty shell.
  */
  lemma NoSilentStateLoss(es: seq<Event>)
    ensures var obs := Observations(EmptyServer(), es);
      forall j :: 0 <= j < |obs| ==>
        && (obs[j].announced <==> FirstOfItsProcess(obs, j) || obs[j].lost)
        && (obs[j].lost ==> forall k :: j < k < |obs| ==> obs[k].epoch != obs[j].epoch)
  {
    AnnouncementsFrom(EmptyServer(), es, {});
    var obs := Observations(EmptyServer(), es);
    forall j | 0 <= j < |obs|
      ensures obs[j].announced <==> FirstOfItsProcess(obs, j) || obs[j].lost
      ensures obs[j].lost ==> forall k :: j < k < |obs| ==> obs[k].epoch != obs[j].epoch
    {
      assert AnnouncedExactly(obs, {}, j);
    }
  }
}
