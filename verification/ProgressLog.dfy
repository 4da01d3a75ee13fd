/** The buffer of lifecycle lines a deployment shows before its container exists, and its
    followers. */
module ProgressLogs {
  import opened Agreement
  import opened DockerEngine
  import opened Sequences

  const KEEP := 1000
  const CAPACITY := 64

  /** A Go channel of lines; sending on or closing a closed one panics. */
  datatype Chan = Chan(queue: seq<string>, closed: bool)

  predicate Full(c: Chan) { |c.queue| >= CAPACITY }

  /** The non-blocking send: a full channel drops the line. */
  function Offer(c: Chan, line: string): Chan
    requires !c.closed
  {
    if Full(c) then c else c.(queue := c.queue + [line])
  }

  function CloseChan(c: Chan): Chan
    requires !c.closed
  {
    c.(closed := true)
  }

  /** A channel's past: how many lines had been accepted when it was handed out, what has
      been received from it, and whether it never dropped a line. */
  datatype History = History(start: nat, got: seq<string>, lossless: bool)

  /** In order, from the lines accepted since it subscribed; all of them if its channel was
      never full. */
  ghost predicate Follows(c: Chan, h: History, accepted: seq<string>)
  {
    && h.start <= |accepted| && |c.queue| <= CAPACITY
    && Subsequence(h.got + c.queue, accepted[h.start..])
    && (h.lossless ==> h.got + c.queue == accepted[h.start..])
  }

  /** The history of a channel that has just been offered a line. */
  function Offered(c: Chan, h: History): History { h.(lossless := h.lossless && !Full(c)) }

  lemma FollowsOffer(c: Chan, h: History, accepted: seq<string>, line: string)
    requires !c.closed && Follows(c, h, accepted)
    ensures Follows(Offer(c, line), Offered(c, h), accepted + [line])
  {
    assert (accepted + [line])[h.start..] == accepted[h.start..] + [line];
    SubsequenceSnoc(h.got + c.queue, accepted[h.start..], line);
    if !Full(c) {
      assert h.got + Offer(c, line).queue == h.got + c.queue + [line];
    }
  }

  lemma FollowsNew(c: Chan, accepted: seq<string>)
    requires c.queue == []
    ensures Follows(c, History(|accepted|, [], true), accepted)
  {
    assert accepted[|accepted|..] == [] && [] + c.queue == [];
  }

  lemma FollowsReceive(c: Chan, h: History, accepted: seq<string>)
    requires Follows(c, h, accepted) && c.queue != []
    ensures Follows(c.(queue := c.queue[1..]), h.(got := h.got + [c.queue[0]]), accepted)
  {
    assert h.got + [c.queue[0]] + c.queue[1..] == h.got + c.queue;
  }

  /** A follower that has drained its channel has seen, in order, lines accepted since it
      subscribed, and every one of them if its channel was never full. */
  lemma CaughtUp(c: Chan, h: History, accepted: seq<string>)
    requires Follows(c, h, accepted) && c.queue == []
    ensures Subsequence(h.got, accepted[h.start..]) && |h.got| <= |accepted| - h.start
    ensures h.lossless || |h.got| == |accepted| - h.start ==> h.got == accepted[h.start..]
  {
    assert h.got + c.queue == h.got;
    SubsequenceLength(h.got, accepted[h.start..]);
  }

  datatype Received = Line(line: string) | Closed | Blocked

  class ProgressLog {
    var lines: seq<string>
    /** Every channel handed out, by number, and those still subscribed. */
    var chans: map<nat, Chan>
    var subs: set<nat>
    var next: nat
    var cid: ContainerID
    var failed: bool
    var done: bool
    /** Every line accepted before the terminal event. */
    ghost var accepted: seq<string>
    ghost var hist: map<nat, History>

    ghost predicate Valid()
      reads this
    {
      && lines == Suffix(accepted, KEEP)
      && hist.Keys == chans.Keys
      && (forall c :: c in chans ==> c < next && Follows(chans[c], hist[c], accepted))
      && (forall c :: c in subs <==> c in chans && !chans[c].closed)
      && (done ==> subs == {} && (failed ==> cid == 0))
      && (!done ==> cid == 0 && !failed && subs == chans.Keys)
    }

    /** The first terminal event, as the deployment record latches it. */
    ghost function Terminal(): Progress
      reads this
    {
      if !done then Open else if failed then LoadFailed else Started(cid)
    }

    constructor ()
      ensures Valid() && Terminal() == Open && accepted == [] && chans == map[]
    {
      lines, chans, subs, next, cid, failed, done := [], map[], {}, 0, 0, false, false;
      accepted, hist := [], map[];
    }

    /** append. A no-op once terminal; otherwise kept, and offered to every follower. */
    method Append(line: string)
      requires Valid()
      modifies this
      ensures Valid() && Terminal() == old(Terminal()) && chans.Keys == old(chans).Keys
      ensures old(done) ==> accepted == old(accepted) && hist == old(hist) && chans == old(chans)
      ensures !old(done) ==>
                && accepted == old(accepted) + [line]
                && (forall c :: c in chans ==> hist[c] == Offered(old(chans)[c], old(hist)[c]))
    {
      if done {
        return;
      }
      Keep(line);
      FanOut(line);
    }

    /** The line reaches every open channel with room, and its history. */
    method FanOut(line: string)
      requires hist.Keys == chans.Keys && subs == chans.Keys
      requires forall c :: c in chans ==> !chans[c].closed && Follows(chans[c], hist[c], accepted)
      modifies this`chans, this`accepted, this`hist
      ensures accepted == old(accepted) + [line] && chans.Keys == old(chans).Keys && hist.Keys == chans.Keys
      ensures forall c :: c in chans ==> !chans[c].closed && Follows(chans[c], hist[c], accepted)
      ensures forall c :: c in chans ==> hist[c] == Offered(old(chans)[c], old(hist)[c])
    {
      ghost var chans0 := chans;
      OfferAll(line);
      Accept(line, chans0);
    }

    /** The bounded buffer. */
    method Keep(line: string)
      requires lines == Suffix(accepted, KEEP)
      modifies this`lines
      ensures lines == Suffix(accepted + [line], KEEP)
    {
      SuffixOfSuffix(accepted, KEEP, line);
      lines := lines + [line];
      if |lines| > KEEP {
        lines := lines[|lines| - KEEP..];
      }
    }

    /** The line enters the history of every open channel. */
    ghost method Accept(line: string, chans0: map<nat, Chan>)
      requires hist.Keys == chans0.Keys == chans.Keys
      requires forall c :: c in chans0 ==> !chans0[c].closed && Follows(chans0[c], hist[c], accepted)
      requires forall c :: c in chans ==> chans[c] == Offer(chans0[c], line)
      modifies this`accepted, this`hist
      ensures accepted == old(accepted) + [line] && hist.Keys == chans.Keys
      ensures forall c :: c in chans ==>
                hist[c] == Offered(chans0[c], old(hist)[c]) && Follows(chans[c], hist[c], accepted)
    {
      forall c | c in chans
        ensures Follows(Offer(chans0[c], line), Offered(chans0[c], hist[c]), accepted + [line])
      {
        FollowsOffer(chans0[c], hist[c], accepted, line);
      }
      ghost var hist0 := hist;
      accepted, hist := accepted + [line], map c | c in hist0 :: Offered(chans0[c], hist0[c]);
    }

    /** The fan-out loop: no send ever hits a closed channel. */
    method OfferAll(line: string)
      requires subs <= chans.Keys && forall c :: c in subs ==> !chans[c].closed
      modifies this`chans
      ensures chans.Keys == old(chans).Keys
      ensures forall c :: c in chans ==> chans[c] == if c in subs then Offer(old(chans)[c], line) else old(chans)[c]
    {
      var todo := subs;
      while todo != {}
        invariant todo <= subs && chans.Keys == old(chans).Keys
        invariant forall c :: c in chans ==>
                    chans[c] == if c in subs - todo then Offer(old(chans)[c], line) else old(chans)[c]
      {
        var c :| c in todo;
        todo := todo - {c};
        chans := chans[c := Offer(chans[c], line)];
      }
    }

    /** closeSubsLocked: no channel is closed twice. */
    method CloseSubs()
      requires subs <= chans.Keys && forall c :: c in subs ==> !chans[c].closed
      modifies this`chans, this`subs
      ensures chans.Keys == old(chans).Keys && subs == {}
      ensures forall c :: c in chans ==> chans[c] == if c in old(subs) then CloseChan(old(chans)[c]) else old(chans)[c]
    {
      while subs != {}
        invariant subs <= old(subs) && chans.Keys == old(chans).Keys
        invariant forall c :: c in chans ==>
                    chans[c] == if c in old(subs) - subs then CloseChan(old(chans)[c]) else old(chans)[c]
      {
        var c :| c in subs;
        chans := chans[c := CloseChan(chans[c])];
        subs := subs - {c};
      }
    }

    /** What a terminal event changes: open channels are closed, with what they hold. */
    twostate predicate Ended(event: Progress)
      reads this
    {
      && Terminal() == Latch(old(Terminal()), event)
      && accepted == old(accepted) && hist == old(hist)
      && chans.Keys == old(chans).Keys
      && (forall c :: c in chans ==> chans[c].queue == old(chans)[c].queue)
    }

    method MarkContainerStarted(cid: ContainerID)
      requires Valid()
      modifies this
      ensures Valid() && done && Ended(Started(cid))
    {
      if done {
        return;
      }
      this.cid := cid;
      done := true;
      CloseSubs();
    }

    method MarkFailed()
      requires Valid()
      modifies this
      ensures Valid() && done && Ended(LoadFailed)
    {
      if done {
        return;
      }
      failed := true;
      done := true;
      CloseSubs();
    }

    /** subscribe. After the terminal event the channel is handed out closed. */
    method Subscribe() returns (replay: seq<string>, c: nat)
      requires Valid()
      modifies this`chans, this`subs, this`next, this`hist
      ensures Valid() && c !in old(chans)
      ensures replay == Suffix(accepted, KEEP)
      ensures chans == old(chans)[c := Chan([], done)]
      ensures hist == old(hist)[c := History(|accepted|, [], true)]
    {
      replay, c, next := lines, next, next + 1;
      FollowsNew(Chan([], done), accepted);
      chans := chans[c := Chan([], done)];
      hist := hist[c := History(|accepted|, [], true)];
      if !done {
        subs := subs + {c};
      }
    }

    /** The follower's end of the channel. */
    method Receive(c: nat) returns (r: Received)
      requires Valid() && c in chans
      modifies this`chans, this`hist
      ensures Valid() && chans.Keys == old(chans).Keys
      ensures var q := old(chans)[c].queue;
              if q != [] then
                && r == Line(q[0]) && chans == old(chans)[c := old(chans)[c].(queue := q[1..])]
                && hist == old(hist)[c := old(hist)[c].(got := old(hist)[c].got + [q[0]])]
              else r == (if done then Closed else Blocked) && chans == old(chans) && hist == old(hist)
    {
      if chans[c].queue != [] {
        var line := chans[c].queue[0];
        FollowsReceive(chans[c], hist[c], accepted);
        hist := hist[c := hist[c].(got := hist[c].got + [line])];
        chans := chans[c := chans[c].(queue := chans[c].queue[1..])];
        return Line(line);
      }
      return if chans[c].closed then Closed else Blocked;
    }
  }
}
