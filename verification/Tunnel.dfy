/** The shell and logs tunnel: every inbound frame in its own goroutine, every session
    with its own pump, interleaved at each access to shared state. */
module Tunnel {
  import opened Options

  datatype Kind = Shell | Logs

  /** A stream id of one kind; id 0 stands for the empty string. */
  datatype Stream = Stream(kind: Kind, id: int)

  // ----- the tunnel's own state --------------------------------------------------------

  /** Sessions are numbered in the order they start. */
  datatype Table = Table(shells: map<int, nat>, logs: map<int, nat>, disposed: bool)

  function Lookup(t: Table, st: Stream): Option<nat>
  {
    var m := if st.kind == Shell then t.shells else t.logs;
    if st.id in m then Some(m[st.id]) else None
  }

  function Insert(t: Table, st: Stream, session: nat): Table
  {
    if st.kind == Shell then t.(shells := t.shells[st.id := session]) else t.(logs := t.logs[st.id := session])
  }

  function Delete(t: Table, st: Stream): Table
  {
    if st.kind == Shell then t.(shells := t.shells - {st.id}) else t.(logs := t.logs - {st.id})
  }

  function Sessions(t: Table): set<nat> { t.shells.Values + t.logs.Values }

  datatype Admission = Refused | Duplicate | Admitted

  function Admit(t: Table, st: Stream): Admission
  {
    if t.disposed then Refused else if Lookup(t, st).Some? then Duplicate else Admitted
  }

  /** One method per critical section of the source. */
  class ChannelShellTunnel {
    var shells: map<int, nat>
    var logs: map<int, nat>
    var disposed: bool

    ghost function Now(): Table
      reads this
    {
      Table(shells, logs, disposed)
    }

    constructor ()
      ensures Now() == Table(map[], map[], false)
    {
      shells, logs, disposed := map[], map[], false;
    }

    method CheckOpen(st: Stream) returns (a: Admission)
      ensures a == Admit(Now(), st)
    {
      if disposed {
        return Refused;
      }
      if (st.kind == Shell && st.id in shells) || (st.kind == Logs && st.id in logs) {
        return Duplicate;
      }
      return Admitted;
    }

    method InsertUnlessDisposed(st: Stream, session: nat) returns (inserted: bool)
      modifies this
      ensures inserted == !old(disposed)
      ensures Now() == if inserted then Insert(old(Now()), st, session) else old(Now())
    {
      if disposed {
        return false;
      }
      if st.kind == Shell {
        shells := shells[st.id := session];
      } else {
        logs := logs[st.id := session];
      }
      return true;
    }

    method Take(st: Stream) returns (session: Option<nat>)
      modifies this
      ensures session == Lookup(old(Now()), st) && Now() == Delete(old(Now()), st)
    {
      session := None;
      if st.kind == Shell {
        if st.id in shells {
          session := Some(shells[st.id]);
        }
        shells := shells - {st.id};
      } else {
        if st.id in logs {
          session := Some(logs[st.id]);
        }
        logs := logs - {st.id};
      }
    }

    /** dropShell and dropLogs: whoever owns the entry. */
    method Drop(st: Stream)
      modifies this
      ensures Now() == Delete(old(Now()), st)
    {
      if st.kind == Shell {
        shells := shells - {st.id};
      } else {
        logs := logs - {st.id};
      }
    }

    method DisposeAll() returns (first: bool, taken: set<nat>)
      modifies this
      ensures first == !old(disposed)
      ensures first ==> taken == Sessions(old(Now())) && Now() == Table(map[], map[], true)
      ensures !first ==> taken == {} && Now() == old(Now())
    {
      if disposed {
        return false, {};
      }
      disposed := true;
      first, taken := true, shells.Values + logs.Values;
      shells, logs := map[], map[];
    }
  }

  // ----- sessions, handlers and frames -------------------------------------------------

  datatype Pipe = Out | Err

  datatype Outcome = Exit | Error | End

  /** Data is ShellOutput or LogsLine; Final is ShellExit, ShellError or LogsEnd. */
  datatype Frame = Data(stream: Stream, pipe: Pipe, data: string) | Final(stream: Stream, outcome: Outcome)

  /** A goroutine reading one pipe. held is what it has read and is about to send. */
  datatype Reader = Reader(held: seq<string>, ended: bool)

  /** Pumping until the readers are finished; Ending once it has seen the session open. */
  datatype Pump = Pumping | Ending | Sending(outcome: Outcome) | Stopped(final: Option<Outcome>)

  /** A shell has one reader, of chunks; a logs session two, of lines. opener is the
      handler that started it. */
  datatype Session = Session(stream: Stream, opener: nat, closed: bool, out: Reader, err: Reader, pump: Pump)
  {
    function Of(p: Pipe): Reader { if p == Out then out else err }

    function With(p: Pipe, r: Reader): Session { if p == Out then this.(out := r) else this.(err := r) }

    predicate Drained() { out.ended && err.ended && out.held == [] && err.held == [] }

    /** The pump has passed its closed check, or is done. */
    predicate Ended() { !pump.Pumping? }
  }

  function Start(st: Stream, opener: nat): Session
  {
    Session(st, opener, false, Reader([], false), Reader([], st.kind == Shell), Pumping)
  }

  datatype Request = Open(stream: Stream) | Close(stream: Stream) | CloseAll

  datatype Stage =
    | Begin
    | Starting
    | Inserting(session: nat)
    | Closing(todo: set<nat>)
    | Awaiting(todo: set<nat>, session: nat)
    | Finished

  datatype Handler = Handler(request: Request, stage: Stage)
  {
    /** The sessions this handler is about to close. */
    function Todo(): set<nat> { if stage.Closing? || stage.Awaiting? then stage.todo else {} }
  }

  datatype System = System(table: Table, handlers: seq<Handler>, sessions: seq<Session>, sent: seq<Frame>)

  /** Step: ok is the outcome of starting a session, or that the bounded wait for a
      session's pump is over; pick is the next session to close. Read: what a reader got,
      and whether it got an error with it. */
  datatype Event =
    | Arrive(request: Request)
    | Step(handler: nat, ok: bool, pick: nat)
    | Read(session: nat, pipe: Pipe, data: string, last: bool)
    | Send(session: nat, pipe: Pipe)
    | Advance(session: nat, abnormal: bool)

  function Refusal(st: Stream): Frame { Final(st, if st.kind == Shell then Error else End) }

  function Goto(s: System, h: nat, stage: Stage): System
    requires h < |s.handlers|
  {
    s.(handlers := s.handlers[h := s.handlers[h].(stage := stage)])
  }

  function HandlerStep(s: System, h: nat, ok: bool, pick: nat): System
    requires h < |s.handlers|
  {
    var request := s.handlers[h].request;
    match s.handlers[h].stage
    case Begin =>
      (match request
       case Open(st) =>
         if st.id == 0 then Goto(s, h, Finished).(sent := s.sent + [Refusal(st)])
         else
           (match Admit(s.table, st)
            case Refused => Goto(s, h, Finished).(sent := s.sent + [Refusal(st)])
            case Duplicate => Goto(s, h, Finished)
            case Admitted => Goto(s, h, Starting))
       case Close(st) =>
         var taken := Lookup(s.table, st);
         Goto(s.(table := Delete(s.table, st)), h, Closing(if taken.Some? then {taken.value} else {}))
       case CloseAll =>
         if s.table.disposed then Goto(s, h, Finished)
         else Goto(s.(table := Table(map[], map[], true)), h, Closing(Sessions(s.table))))
    case Starting =>
      if !request.Open? then s
      else if !ok then Goto(s, h, Finished).(sent := s.sent + [Refusal(request.stream)])
      else Goto(s.(sessions := s.sessions + [Start(request.stream, h)]), h, Inserting(|s.sessions|))
    case Inserting(x) =>
      if !request.Open? then s
      else if s.table.disposed then Goto(s, h, Closing({x}))
      else Goto(s.(table := Insert(s.table, request.stream, x)), h, Finished)
    case Closing(todo) =>
      if todo == {} then Goto(s, h, Finished)
      else if pick !in todo || pick >= |s.sessions| then s
      else if s.sessions[pick].closed then Goto(s, h, Closing(todo - {pick}))
      else Goto(s.(sessions := s.sessions[pick := s.sessions[pick].(closed := true)]), h, Awaiting(todo - {pick}, pick))
    case Awaiting(todo, x) =>
      if x < |s.sessions| && (ok || s.sessions[x].pump.Stopped?) then Goto(s, h, Closing(todo)) else s
    case Finished => s
  }

  /** A shell reader passes every chunk on; a logs reader drops lines once the session is
      closed. */
  function ReadStep(y: Session, p: Pipe, data: string, last: bool): Session
  {
    var r := y.Of(p);
    if !y.pump.Pumping? || r.ended || r.held != [] then y
    else if y.stream.kind == Shell then
      if data == "" then y.With(p, r.(ended := last))
      else y.With(p, Reader([data], last))
    else if last then y.With(p, r.(ended := true))
    else y.With(p, Reader(if y.closed then [] else [data], false))
  }

  function OutcomeOf(st: Stream, abnormal: bool): Outcome
  {
    if st.kind == Logs then End else if abnormal then Error else Exit
  }

  /** A session's own next state and the frames it sends meanwhile. */
  datatype Moved = Moved(session: Session, frames: seq<Frame>)

  function Move(y: Session, e: Event): (m: Moved)
    ensures m.session.stream == y.stream && m.session.opener == y.opener && m.session.closed == y.closed
    ensures |m.frames| <= 1 && (m.frames != [] ==> m.frames[0].stream == y.stream)
  {
    match e
    case Read(_, p, data, last) => Moved(ReadStep(y, p, data, last), [])
    case Send(_, p) =>
      if y.Of(p).held == [] then Moved(y, [])
      else Moved(y.With(p, y.Of(p).(held := [])), [Data(y.stream, p, y.Of(p).held[0])])
    case Advance(_, abnormal) =>
      (match y.pump
       case Pumping =>
         if !y.Drained() then Moved(y, [])
         else Moved(y.(pump := if y.closed then Stopped(None) else Ending), [])
       case Ending => Moved(y.(pump := Sending(OutcomeOf(y.stream, abnormal))), [])
       case Sending(o) => Moved(y.(pump := Stopped(Some(o))), [Final(y.stream, o)])
       case Stopped(_) => Moved(y, []))
    case _ => Moved(y, [])
  }

  /** OnExit, OnError and OnEnd first drop the stream from its map, then send. */
  function SessionStep(s: System, x: nat, e: Event): System
    requires x < |s.sessions|
  {
    var y := s.sessions[x];
    var m := Move(y, e);
    s.(sessions := s.sessions[x := m.session], sent := s.sent + m.frames,
       table := if e.Advance? && y.pump.Ending? then Delete(s.table, y.stream) else s.table)
  }

  function Next(s: System, e: Event): System
  {
    match e
    case Arrive(request) => s.(handlers := s.handlers + [Handler(request, Begin)])
    case Step(h, ok, pick) => if h < |s.handlers| then HandlerStep(s, h, ok, pick) else s
    case _ => if e.session < |s.sessions| then SessionStep(s, e.session, e) else s
  }

  /** The table steps of the machine are the critical sections of the class: run by the
      same handler, they do the same to the table. */
  method HandlerTurn(t: ChannelShellTunnel, s: System, h: nat, ok: bool, pick: nat)
    requires h < |s.handlers| && t.Now() == s.table
    modifies t
    ensures t.Now() == HandlerStep(s, h, ok, pick).table
  {
    var request := s.handlers[h].request;
    match s.handlers[h].stage
    case Begin =>
      match request {
        case Open(st) => var _ := t.CheckOpen(st);
        case Close(st) => var _ := t.Take(st);
        case CloseAll => var _, _ := t.DisposeAll();
      }
    case Inserting(x) =>
      if request.Open? {
        var _ := t.InsertUnlessDisposed(request.stream, x);
      }
    case _ =>
  }

  /** A session's way out runs the class's drop. */
  method SessionTurn(t: ChannelShellTunnel, s: System, x: nat, e: Event)
    requires x < |s.sessions| && t.Now() == s.table
    modifies t
    ensures t.Now() == SessionStep(s, x, e).table
  {
    if e.Advance? && s.sessions[x].pump.Ending? {
      t.Drop(s.sessions[x].stream);
    }
  }

  const INITIAL := System(Table(map[], map[], false), [], [], [])

  // ----- what a run keeps ---------------------------------------------------------------

  /** The peer mints a new id for every open. */
  predicate Fresh(s: System, e: Event)
  {
    e.Arrive? && e.request.Open? && e.request.stream.id != 0 ==>
      forall h :: 0 <= h < |s.handlers| ==> s.handlers[h].request != e.request
  }

  ghost predicate Opener(s: System, x: nat)
    requires x < |s.sessions|
  {
    var y := s.sessions[x];
    && y.stream.id != 0 && y.opener < |s.handlers|
    && s.handlers[y.opener].request == Open(y.stream)
    && !s.handlers[y.opener].stage.Begin? && !s.handlers[y.opener].stage.Starting?
    && (s.handlers[y.opener].stage.Inserting? ==> s.handlers[y.opener].stage.session == x)
  }

  ghost predicate TableWired(s: System)
  {
    && (s.table.disposed ==> s.table.shells == map[] && s.table.logs == map[])
    && (forall st :: Lookup(s.table, st).Some? ==>
          Lookup(s.table, st).value < |s.sessions| && s.sessions[Lookup(s.table, st).value].stream == st)
  }

  ghost predicate SessionsWired(s: System)
  {
    && (forall x :: 0 <= x < |s.sessions| ==> Opener(s, x))
    && (forall x, x' :: 0 <= x < x' < |s.sessions| ==> s.sessions[x].stream != s.sessions[x'].stream)
  }

  /** An open that names its stream. */
  predicate Opens(r: Request) { r.Open? && r.stream.id != 0 }

  ghost predicate HandlersWired(s: System)
  {
    && (forall h, h' :: 0 <= h < h' < |s.handlers| && Opens(s.handlers[h].request) ==>
          s.handlers[h].request != s.handlers[h'].request)
    && (forall h :: 0 <= h < |s.handlers| && s.handlers[h].stage.Inserting? ==>
          s.handlers[h].stage.session < |s.sessions| && s.sessions[s.handlers[h].stage.session].opener == h)
    && (forall h :: 0 <= h < |s.handlers| && (s.handlers[h].stage.Starting? || s.handlers[h].stage.Inserting?) ==>
          Opens(s.handlers[h].request))
  }

  /** Sessions, the handlers that started them and the table refer to each other. */
  ghost predicate Wired(s: System)
  {
    TableWired(s) && SessionsWired(s) && HandlersWired(s)
  }

  /** What holds whether or not stream ids are reused: table entries and inserting handlers
      name sessions of their stream. */
  ghost predicate Sound(s: System)
  {
    && TableWired(s)
    && (forall h :: 0 <= h < |s.handlers| && s.handlers[h].stage.Inserting? ==>
          && s.handlers[h].request.Open? && s.handlers[h].stage.session < |s.sessions|
          && s.sessions[s.handlers[h].stage.session].stream == s.handlers[h].request.stream)
  }

  lemma WiredIsSound(s: System)
    requires Wired(s)
    ensures Sound(s)
  {
    forall h | 0 <= h < |s.handlers| && s.handlers[h].stage.Inserting?
      ensures s.sessions[s.handlers[h].stage.session].stream == s.handlers[h].request.stream
    {
      assert Opener(s, s.handlers[h].stage.session);
    }
  }

  lemma SessionKeepsWired(s: System, e: Event)
    requires Wired(s) && (e.Read? || e.Send? || e.Advance?)
    ensures Wired(Next(s, e))
  {
    var s' := Next(s, e);
    SessionKeepsNames(s, e);
    forall x | 0 <= x < |s'.sessions| ensures Opener(s', x) {
      assert Opener(s, x);
    }
  }

  /** A session's own steps leave handlers, ids and openers alone, and at most delete its
      own table entry. */
  lemma SessionKeepsNames(s: System, e: Event)
    requires e.Read? || e.Send? || e.Advance?
    ensures var s' := Next(s, e);
            && s'.handlers == s.handlers && |s'.sessions| == |s.sessions|
            && (forall x :: 0 <= x < |s.sessions| ==>
                  && s'.sessions[x].stream == s.sessions[x].stream && s'.sessions[x].opener == s.sessions[x].opener
                  && s'.sessions[x].closed == s.sessions[x].closed)
            && (s'.table == s.table
                || (e.session < |s.sessions| && s'.table == Delete(s.table, s.sessions[e.session].stream)))
  {
  }

  lemma ArriveKeepsWired(s: System, e: Event)
    requires Wired(s) && Fresh(s, e) && e.Arrive?
    ensures Wired(Next(s, e))
  {
    var s' := Next(s, e);
    forall x | 0 <= x < |s'.sessions| ensures Opener(s', x) {
      assert Opener(s, x);
    }
  }

  /** What one step of handler h does to handlers and sessions. */
  ghost predicate Handled(s: System, h: nat, s': System)
  {
    && h < |s.handlers| == |s'.handlers| && |s.sessions| <= |s'.sessions|
    && (forall k :: 0 <= k < |s.handlers| && k != h ==> s'.handlers[k] == s.handlers[k])
    && (forall x :: 0 <= x < |s.sessions| ==>
          s'.sessions[x] == s.sessions[x] || s'.sessions[x] == s.sessions[x].(closed := true))
    && Progressed(s, h, s.handlers[h], s'.handlers[h], s')
  }

  predicate Progressed(s: System, h: nat, from: Handler, to: Handler, s': System)
  {
    && to.request == from.request
    && (to.stage.Begin? ==> from.stage.Begin?)
    && (to.stage.Starting? ==> from.stage.Starting? || (from.request.Open? && from.request.stream.id != 0))
    && (if |s'.sessions| == |s.sessions| then
          && (to.stage.Starting? ==> from.stage.Begin? || from.stage.Starting?)
          && (to.stage.Inserting? ==> from.stage == to.stage)
          && (from.stage.Starting? ==> to.stage.Starting? || to.stage.Finished?)
        else
          && from.stage.Starting? && from.request.Open? && to.stage == Inserting(|s.sessions|)
          && s'.sessions == s.sessions + [Start(from.request.stream, h)])
  }

  lemma HandlerStepHandles(s: System, h: nat, ok: bool, pick: nat)
    requires h < |s.handlers|
    ensures Handled(s, h, HandlerStep(s, h, ok, pick))
  {
  }

  lemma LookupAfter(t: Table, st: Stream, x: nat, other: Stream)
    ensures Lookup(Insert(t, st, x), other) == if other == st then Some(x) else Lookup(t, other)
    ensures Lookup(Delete(t, st), other) == if other == st then None else Lookup(t, other)
  {
  }

  lemma TableKeepsWired(s: System, h: nat, ok: bool, pick: nat)
    requires Sound(s) && h < |s.handlers|
    ensures TableWired(HandlerStep(s, h, ok, pick))
  {
    var s' := HandlerStep(s, h, ok, pick);
    var request, stage := s.handlers[h].request, s.handlers[h].stage;
    forall st | Lookup(s'.table, st).Some?
      ensures Lookup(s'.table, st).value < |s'.sessions| && s'.sessions[Lookup(s'.table, st).value].stream == st
    {
      if request.Open? && stage.Inserting? {
        LookupAfter(s.table, request.stream, stage.session, st);
      } else if request.Close? {
        LookupAfter(s.table, request.stream, 0, st);
      }
      assert Lookup(s.table, st) == Lookup(s'.table, st) || (stage.Inserting? && st == request.stream);
    }
  }

  lemma HandlersKeepWired(s: System, h: nat, s': System)
    requires Wired(s) && Handled(s, h, s')
    ensures HandlersWired(s')
  {
  }

  lemma SessionsKeepWired(s: System, h: nat, s': System)
    requires Wired(s) && Handled(s, h, s')
    ensures SessionsWired(s')
  {
    forall x | 0 <= x < |s.sessions| ensures Opener(s', x) {
      assert Opener(s, x);
    }
    if |s'.sessions| > |s.sessions| {
      forall x | 0 <= x < |s.sessions| ensures s.sessions[x].stream != s'.sessions[|s.sessions|].stream {
        assert Opener(s, x);
      }
    }
  }

  lemma StepKeepsWired(s: System, e: Event)
    requires Wired(s) && Fresh(s, e)
    ensures Wired(Next(s, e))
  {
    if e.Arrive? {
      ArriveKeepsWired(s, e);
    } else if e.Step? {
      if e.handler < |s.handlers| {
        var s' := HandlerStep(s, e.handler, e.ok, e.pick);
        HandlerStepHandles(s, e.handler, e.ok, e.pick);
        WiredIsSound(s);
        TableKeepsWired(s, e.handler, e.ok, e.pick);
        HandlersKeepWired(s, e.handler, s');
        SessionsKeepWired(s, e.handler, s');
      }
    } else {
      SessionKeepsWired(s, e);
    }
  }

  // ----- no session is lost --------------------------------------------------------------

  /** The handler is about to insert the session or to close it. */
  predicate InHand(h: Handler, x: nat) { h.stage == Inserting(x) || x in h.Todo() }

  /** A started session is closed, ended, in its map, or in the hands of a handler. */
  ghost predicate AccountedFor(s: System, x: nat)
    requires x < |s.sessions|
  {
    || s.sessions[x].closed || s.sessions[x].Ended()
    || Lookup(s.table, s.sessions[x].stream) == Some(x)
    || exists h :: 0 <= h < |s.handlers| && InHand(s.handlers[h], x)
  }

  ghost predicate NoLeak(s: System)
  {
    forall x :: 0 <= x < |s.sessions| ==> AccountedFor(s, x)
  }

  // Two steps overwrite or delete an entry that may be another session's: inserting, and
  // a session's own drop on its way out.

  /** The session needs no entry. */
  ghost predicate Spared(s: System, x: nat)
    requires x < |s.sessions|
  {
    s.sessions[x].closed || s.sessions[x].Ended()
    || exists h :: 0 <= h < |s.handlers| && InHand(s.handlers[h], x)
  }

  /** The entry of st, if it is not x's own, is of a session that needs none. */
  ghost predicate EntrySpared(s: System, st: Stream, x: nat)
  {
    var d := Lookup(s.table, st);
    d.Some? && d.value != x && d.value < |s.sessions| ==> Spared(s, d.value)
  }

  /** The event neither inserts over nor drops an entry that another session depends on. */
  ghost predicate StepSpares(s: System, e: Event)
  {
    match e
    case Step(h, _, _) =>
      h < |s.handlers| && s.handlers[h].stage.Inserting? && s.handlers[h].request.Open? && !s.table.disposed ==>
        EntrySpared(s, s.handlers[h].request.stream, s.handlers[h].stage.session)
    case Advance(x, _) =>
      x < |s.sessions| && s.sessions[x].pump.Ending? ==> EntrySpared(s, s.sessions[x].stream, x)
    case _ => true
  }

  /** A session's own step keeps closed and ended sessions so, and only a session that
      leaves Ending drops an entry. */
  lemma SessionStepEffect(s: System, x: nat, e: Event)
    requires x < |s.sessions|
    ensures var s' := SessionStep(s, x, e);
            && s'.handlers == s.handlers && |s'.sessions| == |s.sessions|
            && (forall z :: 0 <= z < |s.sessions| ==>
                  && s'.sessions[z].stream == s.sessions[z].stream && s'.sessions[z].closed == s.sessions[z].closed
                  && (s.sessions[z].Ended() ==> s'.sessions[z].Ended())
                  && (z != x ==> s'.sessions[z] == s.sessions[z]))
            && (if e.Advance? && s.sessions[x].pump.Ending? then s'.table == Delete(s.table, s.sessions[x].stream)
                else s'.table == s.table)
  {
  }

  lemma SessionLeaksNothing(s: System, x: nat, e: Event, z: nat)
    requires NoLeak(s) && x < |s.sessions| && z < |s.sessions|
    requires e.Advance? && s.sessions[x].pump.Ending? ==> EntrySpared(s, s.sessions[x].stream, x)
    ensures AccountedFor(SessionStep(s, x, e), z)
  {
    assert AccountedFor(s, z);
    SessionStepEffect(s, x, e);
    LookupAfter(s.table, s.sessions[x].stream, 0, s.sessions[z].stream);
  }

  /** A session's drop leaks exactly when the entry it deletes is another session's that
      still depends on it. */
  lemma DropLeaksIff(s: System, x: nat, e: Event)
    requires Sound(s) && NoLeak(s) && x < |s.sessions| && e.Advance? && s.sessions[x].pump.Ending?
    ensures NoLeak(SessionStep(s, x, e)) <==> EntrySpared(s, s.sessions[x].stream, x)
  {
    var s' := SessionStep(s, x, e);
    var st := s.sessions[x].stream;
    SessionStepEffect(s, x, e);
    if EntrySpared(s, st, x) {
      forall z | 0 <= z < |s'.sessions| ensures AccountedFor(s', z) {
        SessionLeaksNothing(s, x, e, z);
      }
    }
    if NoLeak(s') && Lookup(s.table, st).Some? && Lookup(s.table, st).value != x {
      assert AccountedFor(s', Lookup(s.table, st).value);
      LookupAfter(s.table, st, 0, st);
    }
  }

  /** Handlers lose no session while they only open, take or close. */
  lemma HandlerLeaksNothing(s: System, h: nat, ok: bool, pick: nat, x: nat)
    requires Sound(s) && NoLeak(s) && h < |s.handlers| && x < |s.sessions|
    requires s.handlers[h].stage.Inserting? ==> s.table.disposed
    ensures x < |HandlerStep(s, h, ok, pick).sessions| && AccountedFor(HandlerStep(s, h, ok, pick), x)
  {
    var s' := HandlerStep(s, h, ok, pick);
    var request, stage := s.handlers[h].request, s.handlers[h].stage;
    var st := s.sessions[x].stream;
    HandlerStepHandles(s, h, ok, pick);
    assert AccountedFor(s, x);
    if s'.sessions[x].closed || s'.sessions[x].Ended() {
    } else if Lookup(s.table, st) == Some(x) {
      if stage.Begin? && request.Close? {
        LookupAfter(s.table, request.stream, 0, st);
        assert st == request.stream ==> InHand(s'.handlers[h], x);
      } else if stage.Begin? && request.CloseAll? && !s.table.disposed {
        assert InHand(s'.handlers[h], x);
      }
    } else {
      var k :| 0 <= k < |s.handlers| && InHand(s.handlers[k], x);
      assert InHand(s'.handlers[k], x);
    }
  }

  /** What an insertion does. */
  lemma InsertEffect(s: System, h: nat, ok: bool, pick: nat)
    requires Sound(s) && h < |s.handlers| && s.handlers[h].stage.Inserting? && !s.table.disposed
    ensures var s' := HandlerStep(s, h, ok, pick);
            && s'.sessions == s.sessions && |s'.handlers| == |s.handlers|
            && s'.table == Insert(s.table, s.handlers[h].request.stream, s.handlers[h].stage.session)
            && (forall k :: 0 <= k < |s.handlers| && k != h ==> s'.handlers[k] == s.handlers[k])
            && s'.handlers[h].stage == Finished
  {
  }

  /** Inserting a session leaks exactly when the id's entry was another session's that
      still depended on it. */
  lemma InsertLeaksIff(s: System, h: nat, ok: bool, pick: nat)
    requires Sound(s) && NoLeak(s) && h < |s.handlers| && s.handlers[h].stage.Inserting? && !s.table.disposed
    ensures NoLeak(HandlerStep(s, h, ok, pick))
       <==> EntrySpared(s, s.handlers[h].request.stream, s.handlers[h].stage.session)
  {
    var s' := HandlerStep(s, h, ok, pick);
    var st, x := s.handlers[h].request.stream, s.handlers[h].stage.session;
    InsertEffect(s, h, ok, pick);
    if NoLeak(s') && Lookup(s.table, st).Some? && Lookup(s.table, st).value != x {
      var d := Lookup(s.table, st).value;
      assert AccountedFor(s', d);
      LookupAfter(s.table, st, x, st);
      if !s.sessions[d].closed && !s.sessions[d].Ended() {
        var k :| 0 <= k < |s'.handlers| && InHand(s'.handlers[k], d);
        assert InHand(s.handlers[k], d);
      }
    }
    if EntrySpared(s, st, x) {
      forall z | 0 <= z < |s'.sessions| ensures AccountedFor(s', z) {
        InsertAccounts(s, h, ok, pick, z);
      }
    }
  }

  lemma InsertAccounts(s: System, h: nat, ok: bool, pick: nat, z: nat)
    requires Sound(s) && NoLeak(s) && h < |s.handlers| && s.handlers[h].stage.Inserting? && !s.table.disposed
    requires EntrySpared(s, s.handlers[h].request.stream, s.handlers[h].stage.session) && z < |s.sessions|
    ensures AccountedFor(HandlerStep(s, h, ok, pick), z)
  {
    var s' := HandlerStep(s, h, ok, pick);
    var st, x := s.handlers[h].request.stream, s.handlers[h].stage.session;
    InsertEffect(s, h, ok, pick);
    assert AccountedFor(s, z);
    LookupAfter(s.table, st, x, s.sessions[z].stream);
    if z != x && !s.sessions[z].closed && !s.sessions[z].Ended() && Lookup(s'.table, s.sessions[z].stream) != Some(z) {
      var k :| 0 <= k < |s.handlers| && InHand(s.handlers[k], z);
      assert k != h && InHand(s'.handlers[k], z);
    }
  }

  /** Whatever the stream ids: an event loses a session exactly when it inserts over, or
      drops, an entry that another session depends on. */
  lemma StepLeaksIff(s: System, e: Event)
    requires Sound(s) && NoLeak(s)
    ensures NoLeak(Next(s, e)) <==> StepSpares(s, e)
  {
    var s' := Next(s, e);
    match e
    case Arrive(_) =>
      forall x | 0 <= x < |s.sessions| ensures AccountedFor(s', x) {
        assert AccountedFor(s, x);
        forall h | 0 <= h < |s.handlers| ensures s'.handlers[h] == s.handlers[h] {
        }
      }
    case Step(h, ok, pick) =>
      if h < |s.handlers| {
        if s.handlers[h].stage.Inserting? && !s.table.disposed {
          InsertLeaksIff(s, h, ok, pick);
        } else {
          HandlerStepHandles(s, h, ok, pick);
          forall x | 0 <= x < |s'.sessions| ensures AccountedFor(s', x) {
            if x < |s.sessions| {
              HandlerLeaksNothing(s, h, ok, pick, x);
            } else {
              assert InHand(s'.handlers[h], x);
            }
          }
        }
      }
    case Advance(x, _) =>
      if x < |s.sessions| {
        if s.sessions[x].pump.Ending? {
          DropLeaksIff(s, x, e);
        } else {
          MoveLeaksNothing(s, x, e);
        }
      }
    case Read(x, _, _, _) =>
      if x < |s.sessions| {
        MoveLeaksNothing(s, x, e);
      }
    case Send(x, _) =>
      if x < |s.sessions| {
        MoveLeaksNothing(s, x, e);
      }
  }

  lemma MoveLeaksNothing(s: System, x: nat, e: Event)
    requires NoLeak(s) && x < |s.sessions| && !(e.Advance? && s.sessions[x].pump.Ending?)
    ensures NoLeak(SessionStep(s, x, e))
  {
    SessionStepEffect(s, x, e);
    forall z | 0 <= z < |s.sessions| ensures AccountedFor(SessionStep(s, x, e), z) {
      SessionLeaksNothing(s, x, e, z);
    }
  }

  lemma StepKeepsSound(s: System, e: Event)
    requires Sound(s)
    ensures Sound(Next(s, e))
  {
    if e.Step? {
      if e.handler < |s.handlers| {
        TableKeepsWired(s, e.handler, e.ok, e.pick);
        HandlerStepHandles(s, e.handler, e.ok, e.pick);
      }
    } else if !e.Arrive? && e.session < |s.sessions| {
      SessionStepEffect(s, e.session, e);
      var st := s.sessions[e.session].stream;
      forall other ensures Lookup(Delete(s.table, st), other) == if other == st then None else Lookup(s.table, other) {
        LookupAfter(s.table, st, 0, other);
      }
    }
  }

  /** With fresh ids nobody's entry is ever in the way. */
  lemma FreshSpares(s: System, e: Event)
    requires Wired(s)
    ensures StepSpares(s, e)
  {
    WiredIsSound(s);
  }

  lemma StepLeaksNothing(s: System, e: Event)
    requires Wired(s) && NoLeak(s) && Fresh(s, e)
    ensures NoLeak(Next(s, e))
  {
    WiredIsSound(s);
    FreshSpares(s, e);
    StepLeaksIff(s, e);
  }

  // ----- the frames of one stream --------------------------------------------------------

  function FramesOf(sent: seq<Frame>, st: Stream): seq<Frame>
  {
    if sent == [] then []
    else
      var m := |sent| - 1;
      FramesOf(sent[..m], st) + if sent[m].stream == st then [sent[m]] else []
  }

  /** The data sent for one pipe, in order. */
  function Sent(frames: seq<Frame>, p: Pipe): seq<string>
  {
    if frames == [] then []
    else
      var m := |frames| - 1;
      Sent(frames[..m], p) + if frames[m].Data? && frames[m].pipe == p then [frames[m].data] else []
  }

  predicate OnlyData(kind: Kind, frames: seq<Frame>)
  {
    forall i :: 0 <= i < |frames| ==> frames[i].Data? && (kind == Shell ==> frames[i].pipe == Out)
  }

  predicate Fits(kind: Kind, o: Outcome) { o == End <==> kind == Logs }

  /** ShellOutput* followed by at most one ShellExit or ShellError, or LogsLine* followed
      by at most one LogsEnd. */
  predicate Grammar(kind: Kind, frames: seq<Frame>)
  {
    OnlyData(kind, frames)
    || (|frames| > 0 && OnlyData(kind, frames[..|frames| - 1])
        && frames[|frames| - 1].Final? && Fits(kind, frames[|frames| - 1].outcome))
  }

  lemma SentOne(sent: seq<Frame>, f: Frame, st: Stream)
    ensures FramesOf(sent + [f], st) == FramesOf(sent, st) + if f.stream == st then [f] else []
  {
    assert (sent + [f])[..|sent|] == sent;
  }

  lemma DataOne(frames: seq<Frame>, f: Frame, p: Pipe)
    ensures Sent(frames + [f], p) == Sent(frames, p) + if f.Data? && f.pipe == p then [f.data] else []
  {
    assert (frames + [f])[..|frames|] == frames;
  }

  predicate Framed(y: Session, frames: seq<Frame>)
  {
    && |y.out.held| <= 1 && |y.err.held| <= 1
    && (y.Ended() ==> y.Drained())
    && (y.stream.kind == Shell ==> y.err == Reader([], true))
    && (match y.pump
        case Sending(o) => OnlyData(y.stream.kind, frames) && Fits(y.stream.kind, o)
        case Stopped(Some(o)) =>
          && |frames| > 0 && OnlyData(y.stream.kind, frames[..|frames| - 1])
          && frames[|frames| - 1] == Final(y.stream, o) && Fits(y.stream.kind, o)
        case _ => OnlyData(y.stream.kind, frames))
  }

  lemma FramedIsGrammatical(y: Session, frames: seq<Frame>)
    requires Framed(y, frames)
    ensures Grammar(y.stream.kind, frames)
  {
  }

  /** No handler has got past starting a session on st. */
  ghost predicate Unstarted(s: System, st: Stream)
  {
    forall h :: 0 <= h < |s.handlers| && s.handlers[h].request == Open(st) ==>
      s.handlers[h].stage.Begin? || s.handlers[h].stage.Starting?
  }

  ghost predicate Sessionless(s: System, st: Stream)
  {
    forall x :: 0 <= x < |s.sessions| ==> s.sessions[x].stream != st
  }

  /** A stream without a session has been sent at most the one refusal. */
  ghost predicate QuietWithout(s: System, st: Stream)
  {
    && (Unstarted(s, st) ==> FramesOf(s.sent, st) == [])
    && (Sessionless(s, st) ==> FramesOf(s.sent, st) == [] || FramesOf(s.sent, st) == [Refusal(st)])
  }

  ghost predicate AllFramed(s: System)
  {
    && (forall x :: 0 <= x < |s.sessions| ==> Framed(s.sessions[x], FramesOf(s.sent, s.sessions[x].stream)))
    && (forall st: Stream :: st.id != 0 ==> QuietWithout(s, st))
  }

  lemma ReadKeepsFramed(y: Session, frames: seq<Frame>, p: Pipe, data: string, last: bool)
    requires Framed(y, frames)
    ensures Framed(ReadStep(y, p, data, last), frames)
  {
  }

  lemma SendKeepsFramed(y: Session, frames: seq<Frame>, p: Pipe)
    requires Framed(y, frames) && y.Of(p).held != []
    ensures Framed(y.With(p, y.Of(p).(held := [])), frames + [Data(y.stream, p, y.Of(p).held[0])])
  {
  }

  lemma FinishKeepsFramed(y: Session, frames: seq<Frame>, o: Outcome)
    requires Framed(y, frames) && y.pump == Sending(o)
    ensures Framed(y.(pump := Stopped(Some(o))), frames + [Final(y.stream, o)])
  {
    var f := Final(y.stream, o);
    assert (frames + [f])[..|frames|] == frames;
  }

  lemma CloseKeepsFramed(y: Session, frames: seq<Frame>)
    requires Framed(y, frames)
    ensures Framed(y.(closed := true), frames)
  {
  }

  lemma MoveKeepsFramed(y: Session, frames: seq<Frame>, e: Event)
    requires Framed(y, frames)
    ensures Framed(Move(y, e).session, frames + Move(y, e).frames)
  {
    assert frames + [] == frames;
    match e
    case Read(_, p, data, last) => ReadKeepsFramed(y, frames, p, data, last);
    case Send(_, p) =>
      if y.Of(p).held != [] {
        SendKeepsFramed(y, frames, p);
      }
    case Advance(_, _) =>
      if y.pump.Sending? {
        FinishKeepsFramed(y, frames, y.pump.outcome);
      }
    case _ =>
  }

  lemma SentMore(sent: seq<Frame>, fs: seq<Frame>, of: Stream, st: Stream)
    requires |fs| <= 1 && (fs != [] ==> fs[0].stream == of)
    ensures FramesOf(sent + fs, st) == if of == st then FramesOf(sent, st) + fs else FramesOf(sent, st)
  {
    if fs == [] {
      assert sent + fs == sent && FramesOf(sent, st) + fs == FramesOf(sent, st);
    } else {
      assert fs == [fs[0]];
      SentOne(sent, fs[0], st);
    }
  }

  /** One step of session x: its own frames stay in order, those of other streams are
      untouched. */
  lemma SessionKeepsFrames(s: System, x: nat, e: Event, z: nat)
    requires SessionsWired(s) && AllFramed(s) && x < |s.sessions| && z < |s.sessions|
    ensures var s' := SessionStep(s, x, e);
            Framed(s'.sessions[z], FramesOf(s'.sent, s'.sessions[z].stream))
  {
    var y := s.sessions[x];
    SentMore(s.sent, Move(y, e).frames, y.stream, s.sessions[z].stream);
    if z == x {
      MoveKeepsFramed(y, FramesOf(s.sent, y.stream), e);
    }
  }

  lemma SessionKeepsQuiet(s: System, x: nat, e: Event, st: Stream)
    requires SessionsWired(s) && AllFramed(s) && x < |s.sessions| && st.id != 0
    ensures QuietWithout(SessionStep(s, x, e), st)
  {
    var s' := SessionStep(s, x, e);
    var y := s.sessions[x];
    assert QuietWithout(s, st) && Opener(s, x);
    SentMore(s.sent, Move(y, e).frames, y.stream, st);
    if Sessionless(s', st) {
      assert s'.sessions[x].stream == y.stream;
      forall z | 0 <= z < |s.sessions| ensures s.sessions[z].stream != st {
        assert s'.sessions[z].stream == s.sessions[z].stream;
      }
    }
    if Unstarted(s', st) {
      assert s'.handlers == s.handlers && y.stream != st;
    }
  }

  lemma HandlerKeepsOldFrames(s: System, h: nat, ok: bool, pick: nat, z: nat)
    requires Wired(s) && AllFramed(s) && h < |s.handlers| && z < |s.sessions|
    ensures var s' := HandlerStep(s, h, ok, pick);
            z < |s'.sessions| && Framed(s'.sessions[z], FramesOf(s'.sent, s'.sessions[z].stream))
  {
    var s' := HandlerStep(s, h, ok, pick);
    HandlerStepHandles(s, h, ok, pick);
    assert Opener(s, z);
    HandlerSends(s, h, ok, pick, s.sessions[z].stream);
    CloseKeepsFramed(s.sessions[z], FramesOf(s.sent, s.sessions[z].stream));
    assert FramesOf(s'.sent, s.sessions[z].stream) == FramesOf(s.sent, s.sessions[z].stream);
  }

  lemma StartIsFramed(st: Stream, opener: nat)
    ensures Framed(Start(st, opener), [])
  {
  }

  lemma HandlerStartsFramed(s: System, h: nat, ok: bool, pick: nat)
    requires Wired(s) && AllFramed(s) && h < |s.handlers| && |HandlerStep(s, h, ok, pick).sessions| > |s.sessions|
    ensures var s' := HandlerStep(s, h, ok, pick);
            && |s'.sessions| == |s.sessions| + 1
            && Framed(s'.sessions[|s.sessions|], FramesOf(s'.sent, s'.sessions[|s.sessions|].stream))
  {
    var st := s.handlers[h].request.stream;
    HandlerStepHandles(s, h, ok, pick);
    assert QuietWithout(s, st) && Unstarted(s, st);
    StartIsFramed(st, h);
  }

  /** A handler only ever sends the refusal of its own stream, while opening it. */
  lemma HandlerSends(s: System, h: nat, ok: bool, pick: nat, st: Stream)
    requires HandlersWired(s) && h < |s.handlers| && st.id != 0
    ensures var s' := HandlerStep(s, h, ok, pick);
            if s.handlers[h].request == Open(st) && s'.sent != s.sent then
              && (s.handlers[h].stage.Begin? || s.handlers[h].stage.Starting?) && s'.handlers[h].stage.Finished?
              && FramesOf(s'.sent, st) == FramesOf(s.sent, st) + [Refusal(st)]
            else FramesOf(s'.sent, st) == FramesOf(s.sent, st)
  {
    if s.handlers[h].request.Open? {
      SentOne(s.sent, Refusal(s.handlers[h].request.stream), st);
    }
  }

  lemma HandlerKeepsQuiet(s: System, h: nat, ok: bool, pick: nat, st: Stream)
    requires Wired(s) && AllFramed(s) && h < |s.handlers| && st.id != 0
    ensures QuietWithout(HandlerStep(s, h, ok, pick), st)
  {
    var s' := HandlerStep(s, h, ok, pick);
    HandlerStepHandles(s, h, ok, pick);
    HandlerSends(s, h, ok, pick, st);
    assert QuietWithout(s, st);
    if Sessionless(s', st) {
      forall z | 0 <= z < |s.sessions| ensures s.sessions[z].stream != st {
        assert s'.sessions[z].stream == s.sessions[z].stream;
      }
    }
    if s.handlers[h].request == Open(st) {
      assert s.handlers[h].stage.Begin? || s.handlers[h].stage.Starting? ==> Unstarted(s, st);
    } else {
      assert Unstarted(s', st) ==> Unstarted(s, st) by {
        if Unstarted(s', st) {
          forall k | 0 <= k < |s.handlers| && s.handlers[k].request == Open(st)
            ensures s.handlers[k].stage.Begin? || s.handlers[k].stage.Starting?
          {
            assert s'.handlers[k] == s.handlers[k];
          }
        }
      }
    }
  }

  lemma ArriveKeepsFramed(s: System, e: Event)
    requires AllFramed(s) && e.Arrive?
    ensures AllFramed(Next(s, e))
  {
    var s' := Next(s, e);
    forall st: Stream | st.id != 0 ensures QuietWithout(s', st) {
      assert QuietWithout(s, st);
      if Unstarted(s', st) {
        forall k | 0 <= k < |s.handlers| && s.handlers[k].request == Open(st)
          ensures s.handlers[k].stage.Begin? || s.handlers[k].stage.Starting?
        {
          assert s'.handlers[k] == s.handlers[k];
        }
      }
    }
  }

  lemma HandlerKeepsFramed(s: System, h: nat, ok: bool, pick: nat)
    requires Wired(s) && AllFramed(s) && h < |s.handlers|
    ensures AllFramed(HandlerStep(s, h, ok, pick))
  {
    var s' := HandlerStep(s, h, ok, pick);
    HandlerStepHandles(s, h, ok, pick);
    forall z | 0 <= z < |s'.sessions| ensures Framed(s'.sessions[z], FramesOf(s'.sent, s'.sessions[z].stream)) {
      if z < |s.sessions| {
        HandlerKeepsOldFrames(s, h, ok, pick, z);
      } else {
        HandlerStartsFramed(s, h, ok, pick);
      }
    }
    forall st: Stream | st.id != 0 ensures QuietWithout(s', st) {
      HandlerKeepsQuiet(s, h, ok, pick, st);
    }
  }

  lemma SessionKeepsFramed(s: System, x: nat, e: Event)
    requires SessionsWired(s) && AllFramed(s) && x < |s.sessions|
    ensures AllFramed(SessionStep(s, x, e))
  {
    var s' := SessionStep(s, x, e);
    forall z | 0 <= z < |s.sessions| ensures Framed(s'.sessions[z], FramesOf(s'.sent, s'.sessions[z].stream)) {
      SessionKeepsFrames(s, x, e, z);
    }
    forall st: Stream | st.id != 0 ensures QuietWithout(s', st) {
      SessionKeepsQuiet(s, x, e, st);
    }
  }

  lemma StepKeepsFramed(s: System, e: Event)
    requires Wired(s) && AllFramed(s)
    ensures AllFramed(Next(s, e))
  {
    if e.Arrive? {
      ArriveKeepsFramed(s, e);
    } else if e.Step? {
      if e.handler < |s.handlers| {
        HandlerKeepsFramed(s, e.handler, e.ok, e.pick);
      }
    } else if e.session < |s.sessions| {
      SessionKeepsFramed(s, e.session, e);
    }
  }

  // ----- whole runs ----------------------------------------------------------------------

  predicate IsStep(s: System, e: Event, s': System) { s' == Next(s, e) }

  /** The states of a run from a new connection. */
  ghost predicate IsRun(states: seq<System>, events: seq<Event>)
  {
    && |states| == |events| + 1 && states[0] == INITIAL
    && (forall k :: 0 <= k < |events| ==> IsStep(states[k], events[k], states[k + 1]))
  }

  /** Every open carries a new stream id. */
  ghost predicate FreshIds(states: seq<System>, events: seq<Event>)
    requires |states| == |events| + 1
  {
    forall k :: 0 <= k < |events| ==> Fresh(states[k], events[k])
  }

  ghost predicate Inv(s: System) { Wired(s) && NoLeak(s) && AllFramed(s) }

  lemma {:induction false} RunKeepsInv(states: seq<System>, events: seq<Event>, k: nat)
    requires IsRun(states, events) && FreshIds(states, events) && k < |states|
    ensures Inv(states[k])
  {
    if k > 0 {
      RunKeepsInv(states, events, k - 1);
      assert Fresh(states[k - 1], events[k - 1]) && IsStep(states[k - 1], events[k - 1], states[k]);
      StepKeepsWired(states[k - 1], events[k - 1]);
      StepLeaksNothing(states[k - 1], events[k - 1]);
      StepKeepsFramed(states[k - 1], events[k - 1]);
    }
  }

  lemma {:induction false} RunIsSound(states: seq<System>, events: seq<Event>, k: nat)
    requires IsRun(states, events) && k < |states|
    ensures Sound(states[k])
  {
    if k > 0 {
      RunIsSound(states, events, k - 1);
      assert IsStep(states[k - 1], events[k - 1], states[k]);
      StepKeepsSound(states[k - 1], events[k - 1]);
    }
  }

  /** No step up to the k-th state takes an entry from a session that depends on it. */
  ghost predicate Sparing(states: seq<System>, events: seq<Event>, k: nat)
    requires |states| == |events| + 1 && k <= |events|
  {
    forall j :: 0 <= j < k ==> StepSpares(states[j], events[j])
  }

  lemma {:induction false} SparingRunKeeps(states: seq<System>, events: seq<Event>, k: nat)
    requires IsRun(states, events) && k <= |events| && Sparing(states, events, k)
    ensures NoLeak(states[k])
  {
    if k > 0 {
      SparingRunKeeps(states, events, k - 1);
      RunIsSound(states, events, k - 1);
      assert StepSpares(states[k - 1], events[k - 1]) && IsStep(states[k - 1], events[k - 1], states[k]);
      StepLeaksIff(states[k - 1], events[k - 1]);
    }
  }

  /** Over any run, whatever its stream ids: no session is ever lost exactly when no step
      takes an entry from another session that depends on it. */
  lemma RunLeaksIff(states: seq<System>, events: seq<Event>, n: nat)
    requires IsRun(states, events) && n <= |events|
    ensures (forall k :: 0 <= k <= n ==> NoLeak(states[k])) <==> Sparing(states, events, n)
  {
    if Sparing(states, events, n) {
      forall k | 0 <= k <= n ensures NoLeak(states[k]) {
        SparingRunKeeps(states, events, k);
      }
    }
    if forall k :: 0 <= k <= n ==> NoLeak(states[k]) {
      forall j | 0 <= j < n ensures StepSpares(states[j], events[j]) {
        RunIsSound(states, events, j);
        assert IsStep(states[j], events[j], states[j + 1]);
        assert NoLeak(states[j]) && NoLeak(states[j + 1]);
        StepLeaksIff(states[j], events[j]);
      }
    }
  }

  /** Fresh stream ids are enough. */
  lemma FreshRunSpares(states: seq<System>, events: seq<Event>)
    requires IsRun(states, events) && FreshIds(states, events)
    ensures Sparing(states, events, |events|)
  {
    forall j | 0 <= j < |events| ensures StepSpares(states[j], events[j]) {
      RunKeepsInv(states, events, j);
      FreshSpares(states[j], events[j]);
    }
  }

  /** Under any interleaving every started session is closed, has ended by itself, is in
      its map, or is in the hands of a handler that will insert or close it. */
  lemma NoSessionLeaks(states: seq<System>, events: seq<Event>, k: nat, x: nat)
    requires IsRun(states, events) && k < |states| && x < |states[k].sessions|
    requires FreshIds(states, events) || Sparing(states, events, k)
    ensures var s := states[k];
            || s.sessions[x].closed || s.sessions[x].Ended()
            || Lookup(s.table, s.sessions[x].stream) == Some(x)
            || exists h :: 0 <= h < |s.handlers| && InHand(s.handlers[h], x)
  {
    if FreshIds(states, events) {
      FreshRunSpares(states, events);
    }
    SparingRunKeeps(states, events, k);
    assert AccountedFor(states[k], x);
  }

  lemma DisposedStep(s: System, e: Event)
    requires s.table.disposed
    ensures Next(s, e).table.disposed
  {
  }

  lemma {:induction false} DisposedForever(states: seq<System>, events: seq<Event>, j: nat, k: nat)
    requires IsRun(states, events) && j <= k < |states| && states[j].table.disposed
    ensures states[k].table.disposed
  {
    if j < k {
      DisposedForever(states, events, j, k - 1);
      DisposedStep(states[k - 1], events[k - 1]);
      assert IsStep(states[k - 1], events[k - 1], states[k]);
    }
  }

  /** After CloseAll both maps are empty forever; once the handlers still under way have
      finished, every session ever started is closed or has ended. */
  lemma NothingSurvivesCloseAll(states: seq<System>, events: seq<Event>, j: nat, k: nat)
    requires IsRun(states, events) && j <= k < |states| && states[j].table.disposed
    requires FreshIds(states, events) || Sparing(states, events, k)
    ensures states[k].table.shells == map[] && states[k].table.logs == map[]
    ensures (forall h :: 0 <= h < |states[k].handlers| ==> states[k].handlers[h].stage.Finished?) ==>
              forall x :: 0 <= x < |states[k].sessions| ==>
                states[k].sessions[x].closed || states[k].sessions[x].Ended()
  {
    DisposedForever(states, events, j, k);
    RunIsSound(states, events, k);
    if FreshIds(states, events) {
      FreshRunSpares(states, events);
    }
    SparingRunKeeps(states, events, k);
    forall x | 0 <= x < |states[k].sessions|
      ensures AccountedFor(states[k], x) && Lookup(states[k].table, states[k].sessions[x].stream) == None
    {
    }
  }

  /** The frames of any stream, at any moment, are data followed by at most one final
      frame of its kind. */
  lemma FrameGrammar(states: seq<System>, events: seq<Event>, k: nat, st: Stream)
    requires IsRun(states, events) && FreshIds(states, events) && k < |states| && st.id != 0
    ensures Grammar(st.kind, FramesOf(states[k].sent, st))
  {
    RunKeepsInv(states, events, k);
    var s := states[k];
    if x :| 0 <= x < |s.sessions| && s.sessions[x].stream == st {
      FramedIsGrammatical(s.sessions[x], FramesOf(s.sent, st));
    } else {
      assert QuietWithout(s, st) && Sessionless(s, st);
    }
  }

  // ----- what a pipe was read, from the events ---------------------------------------------

  /** What the reads of one pipe have brought, in order: waiting says that the last of it has
      not been sent since, over that a read has reported the end. */
  datatype Intake = Intake(data: seq<string>, waiting: bool, over: bool)

  /** A reader reads again once what it read has been sent. Shell chunks count unless empty,
      also the one that comes with the end; the end of a log carries no line, and lines read
      after Close do not count. */
  function TakeIn(i: Intake, kind: Kind, closed: bool, e: Event, x: nat, p: Pipe): Intake
  {
    if e.Send? && e.session == x && e.pipe == p then i.(waiting := false)
    else if e.Read? && e.session == x && e.pipe == p && !i.waiting && !i.over then
      if (kind == Shell && e.data != "") || (kind == Logs && !e.last && !closed)
      then Intake(i.data + [e.data], true, e.last)
      else i.(over := e.last)
    else i
  }

  /** Pipe p of session x, over the first k events; a shell has no second pipe. */
  function IntakeAt(states: seq<System>, events: seq<Event>, k: nat, x: nat, p: Pipe): Intake
    requires |states| == |events| + 1 && k < |states| && x < |states[k].sessions|
    decreases k
  {
    if k == 0 || x >= |states[k - 1].sessions|
    then Intake([], false, states[k].sessions[x].stream.kind == Shell && p == Err)
    else
      var y := states[k - 1].sessions[x];
      TakeIn(IntakeAt(states, events, k - 1, x, p), y.stream.kind, y.closed, events[k - 1], x, p)
  }

  /** The reader and the frames so far agree with what was read. */
  predicate Faithful(y: Session, frames: seq<Frame>, p: Pipe, i: Intake)
  {
    && y.Of(p).ended == i.over && Sent(frames, p) + y.Of(p).held == i.data
    && |y.Of(p).held| == if i.waiting then 1 else 0
  }

  lemma ReadIsFaithful(y: Session, frames: seq<Frame>, p: Pipe, i: Intake, e: Event)
    requires Framed(y, frames) && Faithful(y, frames, p, i) && e.Read?
    ensures Faithful(ReadStep(y, e.pipe, e.data, e.last), frames, p,
                     TakeIn(i, y.stream.kind, y.closed, e, e.session, p))
  {
    assert Sent(frames, p) + [] == Sent(frames, p);
  }

  lemma SendIsFaithful(y: Session, frames: seq<Frame>, p: Pipe, i: Intake, e: Event)
    requires Framed(y, frames) && Faithful(y, frames, p, i) && e.Send?
    ensures Faithful(Move(y, e).session, frames + Move(y, e).frames, p,
                     TakeIn(i, y.stream.kind, y.closed, e, e.session, p))
  {
    var held := y.Of(e.pipe).held;
    if held == [] {
      assert frames + [] == frames;
    } else {
      DataOne(frames, Data(y.stream, e.pipe, held[0]), p);
      assert held == [held[0]] && Sent(frames, p) + held + [] == Sent(frames, p) + held;
    }
  }

  lemma MoveIsFaithful(y: Session, frames: seq<Frame>, p: Pipe, i: Intake, e: Event)
    requires Framed(y, frames) && Faithful(y, frames, p, i) && (e.Read? || e.Send? || e.Advance?)
    ensures Faithful(Move(y, e).session, frames + Move(y, e).frames, p,
                     TakeIn(i, y.stream.kind, y.closed, e, e.session, p))
  {
    match e
    case Read(_, _, _, _) =>
      ReadIsFaithful(y, frames, p, i, e);
      assert frames + [] == frames;
    case Send(_, _) => SendIsFaithful(y, frames, p, i, e);
    case Advance(_, _) =>
      assert frames + [] == frames;
      if y.pump.Sending? {
        DataOne(frames, Final(y.stream, y.pump.outcome), p);
      }
    case _ =>
  }

  lemma SessionIsFaithful(s: System, z: nat, e: Event, x: nat, p: Pipe, i: Intake)
    requires SessionsWired(s) && AllFramed(s) && z < |s.sessions| && x < |s.sessions|
    requires (e.Read? || e.Send? || e.Advance?) && e.session == z
    requires Faithful(s.sessions[x], FramesOf(s.sent, s.sessions[x].stream), p, i)
    ensures var s' := SessionStep(s, z, e);
            Faithful(s'.sessions[x], FramesOf(s'.sent, s'.sessions[x].stream), p,
                     TakeIn(i, s.sessions[x].stream.kind, s.sessions[x].closed, e, x, p))
  {
    var y := s.sessions[z];
    SentMore(s.sent, Move(y, e).frames, y.stream, s.sessions[x].stream);
    if z == x {
      MoveIsFaithful(y, FramesOf(s.sent, y.stream), p, i, e);
    }
  }

  lemma HandlerIsFaithful(s: System, h: nat, ok: bool, pick: nat, x: nat, p: Pipe, i: Intake)
    requires Wired(s) && h < |s.handlers| && x < |s.sessions|
    requires Faithful(s.sessions[x], FramesOf(s.sent, s.sessions[x].stream), p, i)
    ensures var s' := HandlerStep(s, h, ok, pick);
            && x < |s'.sessions| && s'.sessions[x].stream == s.sessions[x].stream
            && Faithful(s'.sessions[x], FramesOf(s'.sent, s'.sessions[x].stream), p, i)
  {
    HandlerStepHandles(s, h, ok, pick);
    assert Opener(s, x);
    HandlerSends(s, h, ok, pick, s.sessions[x].stream);
  }

  /** A new session has been sent nothing. */
  lemma StartsSilent(s: System, e: Event, x: nat)
    requires Wired(s) && AllFramed(s) && |s.sessions| <= x < |Next(s, e).sessions|
    ensures var y := Next(s, e).sessions[x];
            y == Start(y.stream, y.opener) && FramesOf(Next(s, e).sent, y.stream) == []
  {
    var st := s.handlers[e.handler].request.stream;
    HandlerStepHandles(s, e.handler, e.ok, e.pick);
    assert QuietWithout(s, st) && Unstarted(s, st);
  }

  lemma StepIsFaithful(s: System, e: Event, x: nat, p: Pipe, i: Intake)
    requires Wired(s) && AllFramed(s) && x < |s.sessions|
    requires Faithful(s.sessions[x], FramesOf(s.sent, s.sessions[x].stream), p, i)
    ensures var s' := Next(s, e);
            && x < |s'.sessions| && s'.sessions[x].stream == s.sessions[x].stream
            && Faithful(s'.sessions[x], FramesOf(s'.sent, s'.sessions[x].stream), p,
                        TakeIn(i, s.sessions[x].stream.kind, s.sessions[x].closed, e, x, p))
  {
    if e.Step? {
      if e.handler < |s.handlers| {
        HandlerIsFaithful(s, e.handler, e.ok, e.pick, x, p, i);
      }
    } else if !e.Arrive? && e.session < |s.sessions| {
      SessionIsFaithful(s, e.session, e, x, p, i);
    }
  }

  lemma {:induction false} RunIsFaithful(states: seq<System>, events: seq<Event>, k: nat, x: nat, p: Pipe)
    requires IsRun(states, events) && FreshIds(states, events) && k < |states| && x < |states[k].sessions|
    ensures Faithful(states[k].sessions[x], FramesOf(states[k].sent, states[k].sessions[x].stream), p,
                     IntakeAt(states, events, k, x, p))
  {
    if k > 0 {
      RunKeepsInv(states, events, k - 1);
      assert IsStep(states[k - 1], events[k - 1], states[k]);
      if x >= |states[k - 1].sessions| {
        StartsSilent(states[k - 1], events[k - 1], x);
      } else {
        RunIsFaithful(states, events, k - 1, x, p);
        StepIsFaithful(states[k - 1], events[k - 1], x, p, IntakeAt(states, events, k - 1, x, p));
      }
    }
  }

  /** What has been sent for a pipe is exactly what was read from it, in order, but for the
      last of it while that waits to be sent; of a logs stream, what was read before Close.
      Nothing waits and every pipe is at its end once the pump has stopped pumping. */
  lemma OutputIsWhatWasRead(states: seq<System>, events: seq<Event>, k: nat, x: nat, p: Pipe)
    requires IsRun(states, events) && FreshIds(states, events) && k < |states| && x < |states[k].sessions|
    ensures var y, i := states[k].sessions[x], IntakeAt(states, events, k, x, p);
            var sent := Sent(FramesOf(states[k].sent, y.stream), p);
            && (if i.waiting then i.data != [] && sent == i.data[..|i.data| - 1] else sent == i.data)
            && (y.Ended() ==> i.over && !i.waiting)
  {
    RunKeepsInv(states, events, k);
    RunIsFaithful(states, events, k, x, p);
    var y := states[k].sessions[x];
    ReadOff(y, FramesOf(states[k].sent, y.stream), p, IntakeAt(states, events, k, x, p));
  }

  lemma ReadOff(y: Session, frames: seq<Frame>, p: Pipe, i: Intake)
    requires Framed(y, frames) && Faithful(y, frames, p, i)
    ensures if i.waiting then i.data != [] && Sent(frames, p) == i.data[..|i.data| - 1] else Sent(frames, p) == i.data
    ensures y.Ended() ==> i.over && !i.waiting
  {
    if i.waiting {
      assert i.data == Sent(frames, p) + [y.Of(p).held[0]];
    } else {
      assert Sent(frames, p) + [] == Sent(frames, p);
    }
  }

  /** Once both pipes are at their end and all they brought has been sent, the pump's next
      step ends the session, silently if it was closed; otherwise its final frame is sent two
      steps later. */
  lemma PumpFinishes(states: seq<System>, events: seq<Event>, k: nat, x: nat, abnormal: bool)
    requires IsRun(states, events) && FreshIds(states, events) && k < |states| && x < |states[k].sessions|
    requires forall p :: IntakeAt(states, events, k, x, p).over && !IntakeAt(states, events, k, x, p).waiting
    ensures var y, s' := states[k].sessions[x], Next(states[k], Advance(x, abnormal));
            match y.pump
            case Pumping => s'.sessions[x].pump == if y.closed then Stopped(None) else Ending
            case Ending => s'.sessions[x].pump.Sending?
            case Sending(o) =>
              s'.sessions[x].pump == Stopped(Some(o)) && s'.sent == states[k].sent + [Final(y.stream, o)]
            case Stopped(_) => s'.sessions[x].pump == y.pump && s'.sent == states[k].sent
  {
    RunIsFaithful(states, events, k, x, Out);
    RunIsFaithful(states, events, k, x, Err);
    assert IntakeAt(states, events, k, x, Out).over && IntakeAt(states, events, k, x, Err).over;
    assert states[k].sent + [] == states[k].sent;
  }

  /** How a session ended: the event at which its pump, having seen the session open, asked
      for the exit. */
  predicate EndsAt(s: System, e: Event, x: nat, o: Outcome)
  {
    && x < |s.sessions| && s.sessions[x].pump.Ending? && e.Advance? && e.session == x
    && o == if s.sessions[x].stream.kind == Logs then End else if e.abnormal then Error else Exit
  }

  predicate HasOutcome(y: Session, o: Outcome) { y.pump == Sending(o) || y.pump == Stopped(Some(o)) }

  lemma OutcomeStep(s: System, e: Event, x: nat, o: Outcome)
    requires x < |Next(s, e).sessions| && HasOutcome(Next(s, e).sessions[x], o)
    ensures (x < |s.sessions| && HasOutcome(s.sessions[x], o)) || EndsAt(s, e, x, o)
  {
    if e.Step? && e.handler < |s.handlers| {
      HandlerStepHandles(s, e.handler, e.ok, e.pick);
    }
  }

  /** A shell that ended normally is reported as exited, one that ended abnormally as an
      error, and a log as ended. */
  lemma {:induction false} OutcomeIsTold(states: seq<System>, events: seq<Event>, k: nat, x: nat, o: Outcome)
    requires IsRun(states, events) && k < |states| && x < |states[k].sessions| && HasOutcome(states[k].sessions[x], o)
    ensures exists j :: 0 <= j < k && EndsAt(states[j], events[j], x, o)
  {
    if k > 0 {
      var s, e := states[k - 1], events[k - 1];
      assert IsStep(s, e, states[k]);
      OutcomeStep(s, e, x, o);
      if x < |s.sessions| && HasOutcome(s.sessions[x], o) {
        OutcomeIsTold(states, events, k - 1, x, o);
      }
    }
  }

  // ----- every open is answered, every handler finishes -------------------------------------

  ghost predicate HasSession(s: System, h: nat)
  {
    exists x :: 0 <= x < |s.sessions| && s.sessions[x].opener == h
  }

  /** An open that is past starting has a session, or its stream has been sent a frame. */
  ghost predicate Answered(s: System)
  {
    forall h :: 0 <= h < |s.handlers| && Opens(s.handlers[h].request)
                && !s.handlers[h].stage.Begin? && !s.handlers[h].stage.Starting? ==>
      HasSession(s, h) || FramesOf(s.sent, s.handlers[h].request.stream) != []
  }

  lemma EntryWasOpened(s: System, st: Stream)
    requires Wired(s) && Lookup(s.table, st).Some?
    ensures exists h :: 0 <= h < |s.handlers| && s.handlers[h].request == Open(st) && st.id != 0
              && !s.handlers[h].stage.Begin?
  {
    assert Opener(s, Lookup(s.table, st).value);
  }

  lemma NeverDuplicate(s: System, h: nat)
    requires Wired(s) && h < |s.handlers| && s.handlers[h].stage.Begin? && Opens(s.handlers[h].request)
    ensures Admit(s.table, s.handlers[h].request.stream) != Duplicate
  {
    if Lookup(s.table, s.handlers[h].request.stream).Some? {
      EntryWasOpened(s, s.handlers[h].request.stream);
    }
  }

  lemma AnsweredByHandler(s: System, h: nat, ok: bool, pick: nat)
    requires Wired(s) && Answered(s) && h < |s.handlers|
    ensures Answered(HandlerStep(s, h, ok, pick))
  {
    var s' := HandlerStep(s, h, ok, pick);
    HandlerStepHandles(s, h, ok, pick);
    forall g | 0 <= g < |s'.handlers| && Opens(s'.handlers[g].request)
             && !s'.handlers[g].stage.Begin? && !s'.handlers[g].stage.Starting?
      ensures HasSession(s', g) || FramesOf(s'.sent, s'.handlers[g].request.stream) != []
    {
      var st := s.handlers[g].request.stream;
      HandlerSends(s, h, ok, pick, st);
      if !s.handlers[g].stage.Begin? && !s.handlers[g].stage.Starting? {
        if HasSession(s, g) {
          var x :| 0 <= x < |s.sessions| && s.sessions[x].opener == g;
          assert s'.sessions[x].opener == g;
        }
      } else if s.handlers[g].stage.Begin? {
        NeverDuplicate(s, g);
        SentOne(s.sent, Refusal(st), st);
      } else if ok {
        assert s'.sessions[|s.sessions|].opener == g;
      } else {
        SentOne(s.sent, Refusal(st), st);
      }
    }
  }

  lemma AnsweredBySession(s: System, x: nat, e: Event)
    requires Answered(s) && x < |s.sessions|
    ensures Answered(SessionStep(s, x, e))
  {
    var s' := SessionStep(s, x, e);
    SessionStepEffect(s, x, e);
    forall h | 0 <= h < |s'.handlers| && Opens(s'.handlers[h].request)
             && !s'.handlers[h].stage.Begin? && !s'.handlers[h].stage.Starting?
      ensures HasSession(s', h) || FramesOf(s'.sent, s'.handlers[h].request.stream) != []
    {
      SentMore(s.sent, Move(s.sessions[x], e).frames, s.sessions[x].stream, s.handlers[h].request.stream);
      if HasSession(s, h) {
        var z :| 0 <= z < |s.sessions| && s.sessions[z].opener == h;
        assert s'.sessions[z].opener == h;
      }
    }
  }

  lemma {:induction false} RunAnswers(states: seq<System>, events: seq<Event>, k: nat)
    requires IsRun(states, events) && FreshIds(states, events) && k < |states|
    ensures Answered(states[k])
  {
    if k > 0 {
      var s, e := states[k - 1], events[k - 1];
      RunAnswers(states, events, k - 1);
      RunKeepsInv(states, events, k - 1);
      assert IsStep(s, e, states[k]);
      if e.Step? && e.handler < |s.handlers| {
        AnsweredByHandler(s, e.handler, e.ok, e.pick);
      } else if (e.Read? || e.Send? || e.Advance?) && e.session < |s.sessions| {
        AnsweredBySession(s, e.session, e);
      } else if e.Arrive? {
        forall h | 0 <= h < |s.handlers| && HasSession(s, h) ensures HasSession(states[k], h) {
        }
      }
    }
  }

  /** An open whose handler has finished has started a session on its stream, or its peer has
      been sent the one refusal of its kind. */
  lemma EveryOpenIsAnswered(states: seq<System>, events: seq<Event>, k: nat, h: nat)
    requires IsRun(states, events) && FreshIds(states, events) && k < |states| && h < |states[k].handlers|
    requires Opens(states[k].handlers[h].request) && states[k].handlers[h].stage.Finished?
    ensures var s, st := states[k], states[k].handlers[h].request.stream;
            || (exists x :: 0 <= x < |s.sessions| && s.sessions[x].opener == h && s.sessions[x].stream == st)
            || FramesOf(s.sent, st) == [Final(st, if st.kind == Shell then Error else End)]
  {
    RunAnswers(states, events, k);
    RunKeepsInv(states, events, k);
    var s, st := states[k], states[k].handlers[h].request.stream;
    if x :| 0 <= x < |s.sessions| && s.sessions[x].opener == h {
      assert Opener(s, x);
    } else {
      assert QuietWithout(s, st);
      forall x | 0 <= x < |s.sessions| ensures s.sessions[x].stream != st {
        assert Opener(s, x);
      }
    }
  }

  function EntryOf(t: Table, st: Stream): set<nat>
  {
    if st.kind == Shell then (if st.id in t.shells then {t.shells[st.id]} else {})
    else if st.id in t.logs then {t.logs[st.id]} else {}
  }

  /** The first step of an open: without a stream id, or once the tunnel is closed, its peer
      is told so; with an id that is in use it is dropped; otherwise a session is started. */
  lemma OpenIsDecided(s: System, h: nat, ok: bool, pick: nat)
    requires h < |s.handlers| && s.handlers[h].request.Open? && s.handlers[h].stage.Begin?
    ensures var s', st := HandlerStep(s, h, ok, pick), s.handlers[h].request.stream;
            && s'.table == s.table && s'.sessions == s.sessions
            && (if st.id == 0 || s.table.disposed
                then && s'.handlers[h].stage.Finished?
                     && s'.sent == s.sent + [Final(st, if st.kind == Shell then Error else End)]
                else && s'.sent == s.sent
                     && (if EntryOf(s.table, st) != {} then s'.handlers[h].stage.Finished?
                         else s'.handlers[h].stage.Starting?))
  {
  }

  /** The first step of a close takes the stream's own entry out of its map, if there is one,
      and has just that session to close; CloseAll takes every entry, once. */
  lemma CloseIsDecided(s: System, h: nat, ok: bool, pick: nat)
    requires h < |s.handlers| && !s.handlers[h].request.Open? && s.handlers[h].stage.Begin?
    ensures var s', request := HandlerStep(s, h, ok, pick), s.handlers[h].request;
            && s'.sessions == s.sessions && s'.sent == s.sent
            && (request.Close? ==>
                  && s'.handlers[h].Todo() == EntryOf(s.table, request.stream)
                  && EntryOf(s'.table, request.stream) == {} && s'.table.disposed == s.table.disposed
                  && forall st :: st != request.stream ==> EntryOf(s'.table, st) == EntryOf(s.table, st))
            && (request.CloseAll? ==>
                  && s'.table.disposed && (forall st :: !s.table.disposed ==> EntryOf(s'.table, st) == {})
                  && s'.handlers[h].Todo()
                     == if s.table.disposed then {} else s.table.shells.Values + s.table.logs.Values)
  {
  }

  /** Once the tunnel is closed no open that has not begun ever starts a session. */
  lemma {:induction false} NoSessionOnceDisposed(states: seq<System>, events: seq<Event>, j: nat, k: nat, h: nat)
    requires IsRun(states, events) && FreshIds(states, events) && j <= k < |states| && states[j].table.disposed
    requires h < |states[j].handlers| && Opens(states[j].handlers[h].request) && states[j].handlers[h].stage.Begin?
    ensures h < |states[k].handlers| && states[k].handlers[h].request == states[j].handlers[h].request
    ensures states[k].handlers[h].stage.Begin? || states[k].handlers[h].stage.Finished?
    ensures !HasSession(states[k], h)
  {
    if j < k {
      NoSessionOnceDisposed(states, events, j, k - 1, h);
      DisposedForever(states, events, j, k - 1);
      assert IsStep(states[k - 1], events[k - 1], states[k]);
      StillNoSession(states[k - 1], events[k - 1], h);
    } else {
      RunKeepsInv(states, events, j);
      forall x | 0 <= x < |states[j].sessions| ensures states[j].sessions[x].opener != h {
        assert Opener(states[j], x);
      }
    }
  }

  lemma StillNoSession(s: System, e: Event, h: nat)
    requires s.table.disposed && h < |s.handlers| && Opens(s.handlers[h].request) && !HasSession(s, h)
    requires s.handlers[h].stage.Begin? || s.handlers[h].stage.Finished?
    ensures var s' := Next(s, e);
            && h < |s'.handlers| && s'.handlers[h].request == s.handlers[h].request
            && (s'.handlers[h].stage.Begin? || s'.handlers[h].stage.Finished?) && !HasSession(s', h)
  {
    var s' := Next(s, e);
    if e.Step? && e.handler < |s.handlers| {
      HandlerStepHandles(s, e.handler, e.ok, e.pick);
    } else if (e.Read? || e.Send? || e.Advance?) && e.session < |s.sessions| {
      SessionStepEffect(s, e.session, e);
    }
    forall x | 0 <= x < |s'.sessions| ensures s'.sessions[x].opener != h {
      assert x < |s.sessions| ==> s'.sessions[x].opener == s.sessions[x].opener;
    }
  }

  /** Handlers only ever have existing sessions to close, and only opens start any. */
  ghost predicate TodoExists(s: System)
  {
    && (forall h, x :: 0 <= h < |s.handlers| && x in s.handlers[h].Todo() ==> x < |s.sessions|)
    && (forall h :: 0 <= h < |s.handlers| && s.handlers[h].stage.Awaiting? ==>
          s.handlers[h].stage.session < |s.sessions|)
    && (forall h :: 0 <= h < |s.handlers| && (s.handlers[h].stage.Starting? || s.handlers[h].stage.Inserting?) ==>
          s.handlers[h].request.Open?)
  }

  lemma TodoStep(s: System, h: nat, ok: bool, pick: nat)
    requires Sound(s) && TodoExists(s) && h < |s.handlers|
    ensures TodoExists(HandlerStep(s, h, ok, pick))
  {
    var s' := HandlerStep(s, h, ok, pick);
    HandlerStepHandles(s, h, ok, pick);
    var stage, request := s.handlers[h].stage, s.handlers[h].request;
    forall x | x in s'.handlers[h].Todo() ensures x < |s'.sessions| {
      if stage.Begin? && request.CloseAll? && !s.table.disposed {
        InTable(s.table, x, |s.sessions|);
      } else if stage.Begin? {
        assert request.Close? && Lookup(s.table, request.stream) == Some(x);
      } else if !stage.Inserting? {
        assert x in s.handlers[h].Todo();
      }
    }
  }

  lemma InTable(t: Table, x: nat, n: nat)
    requires x in Sessions(t) && forall st :: Lookup(t, st).Some? ==> Lookup(t, st).value < n
    ensures x < n
  {
    forall id | id in t.shells ensures t.shells[id] < n {
      assert Lookup(t, Stream(Shell, id)).Some?;
    }
    forall id | id in t.logs ensures t.logs[id] < n {
      assert Lookup(t, Stream(Logs, id)).Some?;
    }
  }

  lemma {:induction false} RunKeepsTodo(states: seq<System>, events: seq<Event>, k: nat)
    requires IsRun(states, events) && k < |states|
    ensures TodoExists(states[k])
  {
    if k > 0 {
      var s, e := states[k - 1], events[k - 1];
      RunKeepsTodo(states, events, k - 1);
      RunIsSound(states, events, k - 1);
      assert IsStep(s, e, states[k]);
      if e.Step? && e.handler < |s.handlers| {
        TodoStep(s, e.handler, e.ok, e.pick);
      } else if (e.Read? || e.Send? || e.Advance?) && e.session < |s.sessions| {
        SessionStepEffect(s, e.session, e);
      }
    }
  }

  /** A handler's stage, by how much it has left. */
  predicate Nearer(from: Stage, to: Stage)
  {
    match from
    case Begin => !to.Begin?
    case Starting => !to.Begin? && !to.Starting?
    case Inserting(_) => to.Closing? || to.Finished?
    case Closing(todo) => to.Finished? || ((to.Closing? || to.Awaiting?) && to.todo < todo)
    case Awaiting(todo, _) => to == Closing(todo)
    case Finished => false
  }

  /** Whatever the interleaving and the ids: a handler that has not finished has a step that
      brings it nearer to that, if starting a session is answered and waiting for one ends. */
  lemma HandlersFinish(states: seq<System>, events: seq<Event>, k: nat, h: nat)
    requires IsRun(states, events) && k < |states| && h < |states[k].handlers|
    requires !states[k].handlers[h].stage.Finished?
    ensures exists pick ::
              Nearer(states[k].handlers[h].stage, Next(states[k], Step(h, true, pick)).handlers[h].stage)
  {
    RunKeepsTodo(states, events, k);
    var s := states[k];
    var stage := s.handlers[h].stage;
    var pick: nat := 0;
    if stage.Closing? && stage.todo != {} {
      pick :| pick in stage.todo;
      assert pick in s.handlers[h].Todo();
    }
    assert Nearer(stage, Next(s, Step(h, true, pick)).handlers[h].stage);
  }

  lemma StoppedBesideHandler(s: System, h: nat, ok: bool, pick: nat, x: nat)
    requires Wired(s) && h < |s.handlers| && x < |s.sessions| && s.sessions[x].pump.Stopped?
    ensures var s' := HandlerStep(s, h, ok, pick);
            && x < |s'.sessions| && s'.sessions[x].pump.Stopped? && s'.sessions[x].stream == s.sessions[x].stream
            && FramesOf(s'.sent, s.sessions[x].stream) == FramesOf(s.sent, s.sessions[x].stream)
  {
    assert Opener(s, x);
    HandlerStepHandles(s, h, ok, pick);
    HandlerSends(s, h, ok, pick, s.sessions[x].stream);
  }

  lemma StoppedBesideSession(s: System, z: nat, e: Event, x: nat)
    requires SessionsWired(s) && AllFramed(s) && z < |s.sessions| && x < |s.sessions| && s.sessions[x].pump.Stopped?
    ensures var s' := SessionStep(s, z, e);
            && s'.sessions[x] == s.sessions[x]
            && FramesOf(s'.sent, s.sessions[x].stream) == FramesOf(s.sent, s.sessions[x].stream)
  {
    if z == x {
      StoppedMove(s.sessions[x], FramesOf(s.sent, s.sessions[x].stream), e);
      assert s.sent + [] == s.sent;
    } else {
      SentMore(s.sent, Move(s.sessions[z], e).frames, s.sessions[z].stream, s.sessions[x].stream);
    }
  }

  lemma StoppedStep(s: System, e: Event, x: nat)
    requires Wired(s) && AllFramed(s) && x < |s.sessions| && s.sessions[x].pump.Stopped?
    ensures var s' := Next(s, e);
            && x < |s'.sessions| && s'.sessions[x].pump.Stopped? && s'.sessions[x].stream == s.sessions[x].stream
            && FramesOf(s'.sent, s.sessions[x].stream) == FramesOf(s.sent, s.sessions[x].stream)
  {
    if e.Step? {
      if e.handler < |s.handlers| {
        StoppedBesideHandler(s, e.handler, e.ok, e.pick, x);
      }
    } else if !e.Arrive? && e.session < |s.sessions| {
      StoppedBesideSession(s, e.session, e, x);
    }
  }

  lemma StoppedMove(y: Session, frames: seq<Frame>, e: Event)
    requires Framed(y, frames) && y.pump.Stopped?
    ensures Move(y, e) == Moved(y, [])
  {
  }

  /** Once a session's done channel is closed no callback of it fires again: a Close that
      returned because of it is the last the peer hears of the stream. */
  lemma {:induction false} SilentOnceStopped(states: seq<System>, events: seq<Event>, j: nat, k: nat, x: nat)
    requires IsRun(states, events) && FreshIds(states, events) && j <= k < |states|
    requires x < |states[j].sessions| && states[j].sessions[x].pump.Stopped?
    ensures x < |states[k].sessions| && states[k].sessions[x].pump.Stopped?
    ensures states[k].sessions[x].stream == states[j].sessions[x].stream
    ensures FramesOf(states[k].sent, states[j].sessions[x].stream)
         == FramesOf(states[j].sent, states[j].sessions[x].stream)
  {
    if j < k {
      SilentOnceStopped(states, events, j, k - 1, x);
      RunKeepsInv(states, events, k - 1);
      StoppedStep(states[k - 1], events[k - 1], x);
      assert IsStep(states[k - 1], events[k - 1], states[k]);
    }
  }

  /** Closed before its pump looked. */
  predicate ClosedEarly(y: Session) { y.closed && (y.pump.Pumping? || y.pump == Stopped(None)) }

  lemma ClosedStep(s: System, e: Event, x: nat)
    requires x < |s.sessions| && ClosedEarly(s.sessions[x])
    ensures var s' := Next(s, e);
            x < |s'.sessions| && ClosedEarly(s'.sessions[x]) && s'.sessions[x].stream == s.sessions[x].stream
  {
    if e.Step? && e.handler < |s.handlers| {
      HandlerStepHandles(s, e.handler, e.ok, e.pick);
    }
  }

  /** Close does not fire OnExit, OnError or OnEnd: no final frame ever follows. */
  lemma {:induction false} NoFinalAfterClose(states: seq<System>, events: seq<Event>, j: nat, k: nat, x: nat)
    requires IsRun(states, events) && FreshIds(states, events) && j <= k < |states|
    requires x < |states[j].sessions| && ClosedEarly(states[j].sessions[x])
    ensures x < |states[k].sessions| && ClosedEarly(states[k].sessions[x])
    ensures states[k].sessions[x].stream == states[j].sessions[x].stream
    ensures OnlyData(states[j].sessions[x].stream.kind, FramesOf(states[k].sent, states[j].sessions[x].stream))
  {
    if j < k {
      NoFinalAfterClose(states, events, j, k - 1, x);
      ClosedStep(states[k - 1], events[k - 1], x);
      assert IsStep(states[k - 1], events[k - 1], states[k]);
    }
    RunKeepsInv(states, events, k);
  }

  // ----- reused stream ids ---------------------------------------------------------------

  /** Two opens of one id that both pass the check before either inserts, then CloseAll. */
  function ReusedId(st: Stream): seq<Event>
  {
    [Arrive(Open(st)), Arrive(Open(st)), Step(0, true, 0), Step(1, true, 0), Step(0, true, 0), Step(1, true, 0),
     Step(0, true, 0), Step(1, true, 0),
     Arrive(CloseAll), Step(2, true, 0), Step(2, true, 1), Step(2, true, 0), Step(2, true, 0)]
  }

  /** Without fresh ids a session outlives CloseAll: every handler is finished, the maps
      are empty, and the first session is neither closed nor ended. */
  lemma ReusedIdLeaks(states: seq<System>, st: Stream)
    requires st.id != 0 && IsRun(states, ReusedId(st))
    ensures var s := states[13];
            && s.table == Table(map[], map[], true) && |s.sessions| == 2
            && (forall h :: 0 <= h < |s.handlers| ==> s.handlers[h].stage.Finished?)
            && !s.sessions[0].closed && !s.sessions[0].Ended()
  {
    var es := ReusedId(st);
    forall k | 0 <= k < 13 ensures IsStep(states[k], es[k], states[k + 1]) {
    }
    ReusedIdOpens(states[..9], st);
    var c := Handler(CloseAll, Begin);
    var s8, s9 := states[8], states[9];
    assert s9 == s8.(handlers := s8.handlers + [c]);
    OnlySession(st);
    assert states[10] == s9.(table := Table(map[], map[], true),
                             handlers := s9.handlers[2 := c.(stage := Closing({1}))]);
    assert states[11].handlers[2].stage == Awaiting({}, 1);
    assert states[12].handlers[2].stage == Closing({});
  }

  lemma OnlySession(st: Stream)
    ensures Sessions(Insert(INITIAL.table, st, 1)) == {1}
  {
    var m: map<int, nat> := map[][st.id := 1];
    assert st.id in m;
    assert m.Values == {1};
  }

  lemma ReusedIdOpens(states: seq<System>, st: Stream)
    requires |states| == 9 && st.id != 0 && states[0] == INITIAL
    requires forall k :: 0 <= k < 8 ==> IsStep(states[k], ReusedId(st)[k], states[k + 1])
    ensures var done := Handler(Open(st), Finished);
            && states[8].handlers == [done, done] && states[8].sessions == [Start(st, 0), Start(st, 1)]
            && states[8].table == Insert(INITIAL.table, st, 1)
  {
    var es := ReusedId(st);
    assert IsStep(states[0], es[0], states[1]) && IsStep(states[1], es[1], states[2]);
    assert IsStep(states[2], es[2], states[3]) && IsStep(states[3], es[3], states[4]);
    assert states[4] == INITIAL.(handlers := [Handler(Open(st), Starting), Handler(Open(st), Starting)]);
    assert IsStep(states[4], es[4], states[5]) && IsStep(states[5], es[5], states[6]);
    assert states[6] == System(INITIAL.table, [Handler(Open(st), Inserting(0)), Handler(Open(st), Inserting(1))],
                               [Start(st, 0), Start(st, 1)], []);
    assert IsStep(states[6], es[6], states[7]) && IsStep(states[7], es[7], states[8]);
  }

  /** Open, end of file, close, and open again under the same id: the first session drops
      the entry of the second. The two opens never overlap. */
  function ReopenedId(st: Stream): seq<Event>
  {
    [Arrive(Open(st)), Step(0, true, 0), Step(0, true, 0), Step(0, true, 0),
     Read(0, Out, "", true), Advance(0, false),
     Arrive(Close(st)), Step(1, true, 0),
     Arrive(Open(st)), Step(2, true, 0), Step(2, true, 0), Step(2, true, 0),
     Advance(0, false)]
  }

  lemma ReopenedUntilDrop(states: seq<System>, st: Stream)
    requires |states| == 13 && st.id != 0 && st.kind == Shell && states[0] == INITIAL
    requires forall k :: 0 <= k < 12 ==> IsStep(states[k], ReopenedId(st)[k], states[k + 1])
    ensures var open := Handler(Open(st), Finished);
            var ended := Start(st, 0).(out := Reader([], true), pump := Ending);
            states[12] == System(Insert(INITIAL.table, st, 1),
                                 [open, Handler(Close(st), Closing({0})), open],
                                 [ended, Start(st, 2)], [])
  {
    var es := ReopenedId(st);
    var open := Handler(Open(st), Finished);
    var ended := Start(st, 0).(out := Reader([], true), pump := Ending);
    assert IsStep(states[0], es[0], states[1]) && IsStep(states[1], es[1], states[2]);
    assert IsStep(states[2], es[2], states[3]) && IsStep(states[3], es[3], states[4]);
    assert states[4] == System(Insert(INITIAL.table, st, 0), [open], [Start(st, 0)], []);
    assert IsStep(states[4], es[4], states[5]) && IsStep(states[5], es[5], states[6]);
    assert states[6] == System(Insert(INITIAL.table, st, 0), [open], [ended], []);
    ReopenedAgain(states[6..], st);
  }

  lemma ReopenedAgain(states: seq<System>, st: Stream)
    requires |states| == 7 && st.id != 0 && st.kind == Shell
    requires var ended := Start(st, 0).(out := Reader([], true), pump := Ending);
             states[0] == System(Insert(INITIAL.table, st, 0), [Handler(Open(st), Finished)], [ended], [])
    requires forall k :: 0 <= k < 6 ==> IsStep(states[k], ReopenedId(st)[6 + k], states[k + 1])
    ensures var open := Handler(Open(st), Finished);
            var ended := Start(st, 0).(out := Reader([], true), pump := Ending);
            states[6] == System(Insert(INITIAL.table, st, 1),
                                [open, Handler(Close(st), Closing({0})), open],
                                [ended, Start(st, 2)], [])
  {
    var es := ReopenedId(st);
    var open, close := Handler(Open(st), Finished), Handler(Close(st), Closing({0}));
    var ended := Start(st, 0).(out := Reader([], true), pump := Ending);
    assert IsStep(states[0], es[6], states[1]) && IsStep(states[1], es[7], states[2]);
    assert states[2] == System(INITIAL.table, [open, close], [ended], []);
    assert IsStep(states[2], es[8], states[3]) && IsStep(states[3], es[9], states[4]);
    assert states[4] == states[2].(handlers := [open, close, Handler(Open(st), Starting)]);
    assert IsStep(states[4], es[10], states[5]) && IsStep(states[5], es[11], states[6]);
  }

  /** The reopened session is lost by the first one's own drop, although both insertions
      found no entry. */
  lemma ReopenedIdLeaks(states: seq<System>, st: Stream)
    requires st.id != 0 && st.kind == Shell && IsRun(states, ReopenedId(st))
    ensures NoLeak(states[12]) && |states[13].sessions| == 2 && !AccountedFor(states[13], 1)
  {
    var es := ReopenedId(st);
    forall k | 0 <= k < 12 ensures IsStep(states[..13][k], es[k], states[..13][k + 1]) {
      assert IsStep(states[k], es[k], states[k + 1]);
    }
    ReopenedUntilDrop(states[..13], st);
    LookupAfter(INITIAL.table, st, 1, st);
    assert AccountedFor(states[12], 0) && AccountedFor(states[12], 1);
    assert IsStep(states[12], es[12], states[13]);
    LookupAfter(states[12].table, st, 0, st);
  }
}
