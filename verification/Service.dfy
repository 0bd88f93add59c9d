/**
 TecServiceWorker (tecc_service_worker.c) driving a TecTCPServer (tecc_tcp_server.c): the runner and
 terminators of the worker, its thread inside on_init and on_exit, the service thread that opens
 the socket and polls, and the exit thread that shuts the service down. Five signals:
 sig_running and sig_terminated of the worker, sig_started, sig_stopped and sig_polling_stopped.

 The listening socket is open or closed; accept yields a valid or an invalid connection.
 */
module Service {
  import opened Options
  import W = Worker

  /** `startErr` is the error of open, bind and listen together, 0 when all three succeed. */
  datatype Config = Config(
    startErr: int, registered: set<W.Tag>, reply: nat -> int, rerr: nat -> int, nterms: nat, overlap: bool)

  /** The worker underneath, if on_init returns `startErr` and on_exit returns 0. */
  function WorkerConfig(c: Config): W.Config {
    W.Config(Some(c.startErr), Some(0), c.registered, c.reply, c.rerr, c.nterms, c.overlap)
  }

  /** The worker thread inside on_init. */
  datatype IPc = ICreate | IWait | ICheck | IJoin | ISetStopped | IReturn

  /** The worker thread inside on_exit. */
  datatype EPc = ECreate | EJoinExit | EWaitStopped | EJoinService | EReturn

  /** The service thread: start_ and poll_. */
  datatype SPc =
    | SNone | SOpen | SErrPolling | SErrStarted
    | SSetStarted | SCheck | SAccept | SDispatch | SSetPolling | SDone

  /** The exit thread: shutdown_. */
  datatype XPc = XNone | XClear | XClose | XWait | XSetStopped | XDone

  /**
   `error` is the service worker's own error field, `serving` the server's `running` flag. `client` is the
   connection accept has yielded last, `dispatched` the history of the connections handed to a handler.
   */
  datatype State = State(
    w: W.State, error: int,
    ipc: IPc, epc: EPc, spc: SPc, xpc: XPc,
    started: bool, stopped: bool, pollingStopped: bool,
    serving: bool, listening: bool, joinable: bool, joins: nat,
    client: nat, dispatched: seq<nat>)

  /** `Service(conn)`: when the step is the return of accept, it yields that connection, or an invalid one. */
  datatype Action = OfWorker(a: W.Action) | Service(conn: Option<nat>) | Shutdown

  function Init(c: Config): State {
    State(W.Init(WorkerConfig(c)), 0, ICreate, ECreate, SNone, XNone, false, false, false, true, false, false, 0, 0, [])
  }

  function JoinService(s: State): Option<State> {
    if !s.joinable then Some(s)
    else if s.spc.SDone? then Some(s.(joinable := false, joins := s.joins + 1))
    else None
  }

  /** The worker thread stores what on_init, or on_exit, returned. */
  function LeaveInit(w: W.State, err: int): W.State {
    W.Note(w, W.Inited(err)).(error := err, wpc := W.WSetRunning)
  }

  function LeaveExit(w: W.State, err: int): W.State {
    W.Note(w, W.Exited(err)).(error := err, wpc := W.WSetTerm)
  }

  /** on_init */
  function InitStep(s: State): Option<State> {
    match s.ipc
    case ICreate => Some(s.(ipc := IWait, spc := SOpen, joinable := true))
    case IWait => if s.started then Some(s.(ipc := ICheck)) else None
    case ICheck => Some(s.(ipc := if s.error != 0 then IJoin else IReturn))
    case IJoin => var j :- JoinService(s); Some(j.(ipc := ISetStopped))
    case ISetStopped => Some(s.(stopped := true, ipc := IReturn))
    case IReturn => Some(s.(w := LeaveInit(s.w, s.error)))
  }

  /** on_exit */
  function ExitStep(s: State): Option<State> {
    match s.epc
    case ECreate => Some(s.(epc := EJoinExit, xpc := XClear))
    case EJoinExit => if s.xpc.XDone? then Some(s.(epc := EWaitStopped)) else None
    case EWaitStopped => if s.stopped then Some(s.(epc := EJoinService)) else None
    case EJoinService => var j :- JoinService(s); Some(j.(epc := EReturn))
    case EReturn => Some(s.(w := LeaveExit(s.w, s.error)))
  }

  /** start_ and poll_ */
  function ServiceStep(c: Config, s: State, conn: Option<nat>): (r: Option<State>)
    ensures r.Some? ==> r.value.w == s.w
  {
    match s.spc
    case SOpen =>
      Some(s.(error := c.startErr, listening := c.startErr == 0,
              spc := if c.startErr != 0 then SErrPolling else SSetStarted))
    case SErrPolling => Some(s.(pollingStopped := true, spc := SErrStarted))
    case SErrStarted => Some(s.(started := true, spc := SDone))
    case SSetStarted => Some(s.(started := true, spc := SCheck))
    case SCheck => Some(s.(spc := if s.serving then SAccept else SSetPolling))
    case SAccept =>
      if conn.None? then Some(s.(spc := SCheck)) else Some(s.(client := conn.value, spc := SDispatch))
    case SDispatch => Some(s.(spc := SCheck, dispatched := s.dispatched + [s.client]))
    case SSetPolling => Some(s.(pollingStopped := true, spc := SDone))
    case SNone | SDone => None
  }

  /** shutdown_ */
  function ShutdownStep(s: State): (r: Option<State>)
    ensures r.Some? ==> r.value.w == s.w
  {
    match s.xpc
    case XClear => Some(s.(serving := false, xpc := XClose))
    case XClose => Some(s.(listening := false, xpc := XWait))
    case XWait => if s.pollingStopped then Some(s.(xpc := XSetStopped)) else None
    case XSetStopped => Some(s.(stopped := true, xpc := XDone))
    case XNone | XDone => None
  }

  function Step(c: Config, s: State, a: Action): Option<State> {
    match a
    case Service(conn) => ServiceStep(c, s, conn)
    case Shutdown => ShutdownStep(s)
    case OfWorker(wa) =>
      if wa.Work? && s.w.wpc.WIniting? then InitStep(s)
      else if wa.Work? && s.w.wpc.WExiting? then ExitStep(s)
      else var w :- W.Step(WorkerConfig(c), s.w, wa); Some(s.(w := w))
  }

  function Exec(c: Config, s: State, acts: seq<Action>): Option<State> {
    if acts == [] then Some(s)
    else match Exec(c, s, acts[..|acts| - 1])
      case None => None
      case Some(m) => Step(c, m, acts[|acts| - 1])
  }

  function Runs(c: Config, acts: seq<Action>): Option<State> {
    Exec(c, Init(c), acts)
  }
}
