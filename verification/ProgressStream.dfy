/** Streaming a deployment's progress lines, then its container's own logs. */
module ProgressStreams {
  import opened Agreement
  import opened DockerEngine
  import opened ProgressLogs
  import opened Sequences

  /** What the loader does to the log meanwhile. */
  datatype LoaderOp = AddLine(line: string) | Launched(cid: ContainerID) | Fail

  /** One turn of an interleaving of the loader, the streaming goroutine and its context. */
  datatype Turn = Loader(op: LoaderOp) | Follower | Cancel

  datatype Reason =
    | NoProgress
    | Cancelled
    | DeploymentFailed
    | DeploymentEnded
    | FromContainer(cid: ContainerID)
    | StillFollowing

  function TerminalStep(p: Progress, turn: Turn): Progress
  {
    match turn
    case Loader(Launched(cid)) => Latch(p, Started(cid))
    case Loader(Fail) => Latch(p, LoadFailed)
    case _ => p
  }

  /** The terminal event after the loader's part of the turns: the first one wins. */
  function TerminalAfter(p: Progress, turns: seq<Turn>): Progress
  {
    if turns == [] then p else TerminalStep(TerminalAfter(p, turns[..|turns| - 1]), turns[|turns| - 1])
  }

  lemma TerminalSnoc(p: Progress, turns: seq<Turn>, k: nat)
    requires k < |turns|
    ensures TerminalAfter(p, turns[..k + 1]) == TerminalStep(TerminalAfter(p, turns[..k]), turns[k])
  {
    assert turns[..k + 1][..k] == turns[..k];
  }

  /** Whatever the loader does, the first terminal event decides: it is the one already
      latched, or that of the first Launched or Fail turn. */
  lemma {:induction false} FirstTerminalWins(p: Progress, turns: seq<Turn>, k: nat)
    requires k <= |turns|
    ensures !TerminalAfter(p, turns[..k]).Open? ==> TerminalAfter(p, turns) == TerminalAfter(p, turns[..k])
    decreases |turns| - k
  {
    if k < |turns| {
      FirstTerminalWins(p, turns, k + 1);
      TerminalSnoc(p, turns, k);
    } else {
      assert turns[..k] == turns;
    }
  }

  /** The first terminal turn is the one that counts. */
  lemma FirstEventDecides(turns: seq<Turn>, k: nat)
    requires k < |turns| && TerminalStep(Open, turns[k]) != Open
    requires forall j :: 0 <= j < k ==> TerminalStep(Open, turns[j]) == Open
    ensures TerminalAfter(Open, turns) == TerminalStep(Open, turns[k])
  {
    StaysOpen(turns[..k]);
    TerminalSnoc(Open, turns, k);
    FirstTerminalWins(Open, turns, k + 1);
  }

  lemma {:induction false} StaysOpen(turns: seq<Turn>)
    requires forall j :: 0 <= j < |turns| ==> TerminalStep(Open, turns[j]) == Open
    ensures TerminalAfter(Open, turns) == Open
  {
    if turns != [] {
      StaysOpen(turns[..|turns| - 1]);
    }
  }

  /** "deployment ended" needs a container started under the empty id, which Docker never
      hands out. */
  lemma {:induction false} NeverJustEnded(p: Progress, turns: seq<Turn>)
    requires p != Started(0) && Loader(Launched(0)) !in turns
    ensures Verdict(TerminalAfter(p, turns)) != DeploymentEnded
  {
    if turns != [] {
      NeverJustEnded(p, turns[..|turns| - 1]);
    }
  }

  /** How many of the turns are the follower's and come after the terminal event. */
  function Waited(p: Progress, turns: seq<Turn>): nat
  {
    if turns == [] then 0
    else
      var n := |turns| - 1;
      Waited(p, turns[..n]) + if turns[n].Follower? && !TerminalAfter(p, turns[..n]).Open? then 1 else 0
  }

  lemma WaitedSnoc(p: Progress, turns: seq<Turn>, k: nat)
    requires k < |turns|
    ensures Waited(p, turns[..k + 1]) == Waited(p, turns[..k])
              + if turns[k].Follower? && !TerminalAfter(p, turns[..k]).Open? then 1 else 0
  {
    assert turns[..k + 1][..k] == turns[..k];
  }

  method LoaderTurn(log: ProgressLog, op: LoaderOp, ghost c: nat)
    requires log.Valid() && c in log.chans
    modifies log
    ensures log.Valid() && c in log.chans && log.Terminal() == TerminalStep(old(log.Terminal()), Loader(op))
    ensures log.hist[c].got == old(log.hist[c].got) && log.hist[c].start == old(log.hist[c].start)
    ensures old(log.done) ==> log.done && log.chans[c].queue == old(log.chans)[c].queue
  {
    match op
    case AddLine(line) => log.Append(line);
    case Launched(cid) => log.MarkContainerStarted(cid);
    case Fail => log.MarkFailed();
  }

  /** A queued line is delivered; a drained channel ends the stream once it is closed. */
  method FollowerTurn(log: ProgressLog, c: nat) returns (lines: seq<string>, open: bool)
    requires log.Valid() && c in log.chans
    modifies log`chans, log`hist
    ensures log.Valid() && c in log.chans && (open <==> old(log.chans)[c].queue != [] || !log.done)
    ensures lines + log.chans[c].queue == old(log.chans)[c].queue
    ensures |lines| == if old(log.chans)[c].queue == [] then 0 else 1
    ensures log.hist[c].got == old(log.hist[c].got) + lines && log.hist[c].start == old(log.hist[c].start)
  {
    var r := log.Receive(c);
    if r.Line? {
      return [r.line], true;
    }
    assert log.hist[c].got + [] == log.hist[c].got;
    return [], !r.Closed?;
  }

  datatype Ending = ChannelClosed | ContextDone | OutOfTurns

  /** The follow loop. */
  method Follow(log: ProgressLog, turns: seq<Turn>, c: nat) returns (lines: seq<string>, e: Ending, ghost used: nat)
    requires log.Valid() && c in log.chans && log.hist[c].got == []
    modifies log
    ensures log.Valid() && c in log.chans && used <= |turns|
    ensures log.Terminal() == TerminalAfter(old(log.Terminal()), turns[..used])
    ensures log.hist[c].got == lines && log.hist[c].start == old(log.hist[c].start)
    ensures e.ChannelClosed? ==> log.done && log.chans[c].queue == []
    ensures e.OutOfTurns? ==> used == |turns| && Waited(old(log.Terminal()), turns) <= CAPACITY
    ensures e.ContextDone? ==> used < |turns| && turns[used] == Cancel
  {
    lines := [];
    var t := 0;
    ghost var p := log.Terminal();
    while t < |turns|
      invariant t <= |turns| && log.Valid() && c in log.chans
      invariant log.Terminal() == TerminalAfter(p, turns[..t])
      invariant Waited(p, turns[..t]) + (if log.done then |log.chans[c].queue| else 0) <= CAPACITY
      invariant !log.done ==> Waited(p, turns[..t]) == 0
      invariant log.hist[c].got == lines && log.hist[c].start == old(log.hist[c].start)
    {
      TerminalSnoc(p, turns, t);
      WaitedSnoc(p, turns, t);
      match turns[t]
      case Cancel =>
        return lines, ContextDone, t;
      case Loader(op) =>
        LoaderTurn(log, op, c);
        t := t + 1;
      case Follower =>
        var more, open := FollowerTurn(log, c);
        lines := lines + more;
        t := t + 1;
        if !open {
          return lines, ChannelClosed, t;
        }
    }
    assert turns[..t] == turns;
    return lines, OutOfTurns, t;
  }

  method Replay(replay: seq<string>, stopAfter: nat) returns (emitted: seq<string>, cancelled: bool)
    ensures cancelled <==> stopAfter < |replay|
    ensures emitted == if cancelled then replay[..stopAfter] else replay
  {
    emitted := [];
    for i := 0 to |replay|
      invariant emitted == replay[..i] && i <= stopAfter
    {
      if i == stopAfter {
        return emitted, true;
      }
      emitted := emitted + [replay[i]];
    }
    return emitted, false;
  }

  /** The outcome of an uncancelled stream, by the log's terminal event. */
  function Verdict(p: Progress): Reason
  {
    match p
    case Open => StillFollowing
    case LoadFailed => DeploymentFailed
    case Started(cid) => if cid == 0 then DeploymentEnded else FromContainer(cid)
  }

  /** The hand-off, once the channel is closed. */
  method Conclude(log: ProgressLog, shown: seq<string>, containerLines: ContainerID -> seq<string>)
    returns (emitted: seq<string>, reason: Reason)
    requires log.done && log.Valid()
    ensures reason == Verdict(log.Terminal())
    ensures emitted == shown + (if reason.FromContainer? then containerLines(reason.cid) else [])
  {
    if log.failed {
      return shown, DeploymentFailed;
    }
    if log.cid == 0 {
      return shown, DeploymentEnded;
    }
    return shown + containerLines(log.cid), FromContainer(log.cid);
  }

  /** Stream. stopAfter is the number of replayed lines after which the context is seen
      cancelled; containerLines are the container's own logs. used is the number of turns
      taken, c the stream's channel, drained unless the stream was cut off: by CaughtUp it
      has then delivered every line accepted since, if the channel was never full. A stream
      still following has not been given CAPACITY turns beyond the terminal event. */
  method Stream(log: ProgressLog?, turns: seq<Turn>, stopAfter: nat, containerLines: ContainerID -> seq<string>)
    returns (emitted: seq<string>, reason: Reason, ghost used: nat, ghost c: nat)
    requires log != null ==> log.Valid()
    modifies log
    ensures used <= |turns| && (log == null ==> reason == NoProgress && emitted == [])
    ensures log != null ==>
              && log.Valid() && reason != NoProgress
              && log.Terminal() == TerminalAfter(old(log.Terminal()), turns[..used])
    ensures log != null && reason != Cancelled ==>
              && c in log.chans && log.hist[c].start == |old(log.accepted)|
              && (if reason == StillFollowing then used == |turns| && Waited(old(log.Terminal()), turns) <= CAPACITY
                  else reason == Verdict(log.Terminal()) && log.chans[c].queue == [])
              && emitted == Suffix(old(log.accepted), KEEP) + log.hist[c].got
                          + (if reason.FromContainer? then containerLines(reason.cid) else [])
    ensures log != null && reason == Cancelled ==>
              && c in log.chans
              && (if stopAfter < |Suffix(old(log.accepted), KEEP)|
                  then used == 0 && emitted == Suffix(old(log.accepted), KEEP)[..stopAfter]
                  else && used < |turns| && turns[used] == Cancel
                       && emitted == Suffix(old(log.accepted), KEEP) + log.hist[c].got)
  {
    if log == null {
      return [], NoProgress, 0, 0;
    }
    var replay, ch := log.Subscribe();
    assert turns[..0] == [];
    var shown, stopped := Replay(replay, stopAfter);
    if stopped {
      return shown, Cancelled, 0, ch;
    }
    c := ch;
    emitted, reason, used := FollowUp(log, turns, ch, shown, containerLines);
  }

  /** After the replay: the lines that follow, then the hand-off. */
  method FollowUp(log: ProgressLog, turns: seq<Turn>, c: nat, shown: seq<string>,
                  containerLines: ContainerID -> seq<string>)
    returns (emitted: seq<string>, reason: Reason, ghost used: nat)
    requires log.Valid() && c in log.chans && log.hist[c].got == []
    modifies log
    ensures log.Valid() && c in log.chans && used <= |turns| && reason != NoProgress
    ensures log.Terminal() == TerminalAfter(old(log.Terminal()), turns[..used])
    ensures log.hist[c].start == old(log.hist[c].start)
    ensures emitted == shown + log.hist[c].got + (if reason.FromContainer? then containerLines(reason.cid) else [])
    ensures match reason
            case Cancelled => used < |turns| && turns[used] == Cancel
            case StillFollowing => used == |turns| && Waited(old(log.Terminal()), turns) <= CAPACITY
            case _ => reason == Verdict(log.Terminal()) && log.chans[c].queue == []
  {
    var followed, e;
    followed, e, used := Follow(log, turns, c);
    emitted := shown + followed;
    match e
    case ContextDone => reason := Cancelled;
    case OutOfTurns => reason := StillFollowing;
    case ChannelClosed => emitted, reason := Conclude(log, emitted, containerLines);
  }
}
