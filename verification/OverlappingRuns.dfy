/** Runs of the command cache that overlap. */
module OverlappingRuns {
  import opened Dedup

  /** The two critical sections of Run, as separate steps of concurrent callers. The clock
      is read with the lookup. */
  datatype Action<R> = Lookup(caller: nat, rq: Request<R>) | Store(caller: nat)

  datatype Started<R> = Started(id: string, start: int, result: R)

  /** running are the commands being executed, by caller; executions are all that began. */
  datatype Shared<R> = Shared(entries: map<string, Entry<R>>, running: map<nat, Request<R>>,
                              executions: seq<Started<R>>)

  predicate Live<R>(s: Shared<R>, id: string, now: int)
  {
    id in s.entries && now < s.entries[id].expiresAt
  }

  /** A lookup by a free caller that does not hit; the empty id never does. */
  predicate Executes<R>(s: Shared<R>, a: Action<R>)
  {
    a.Lookup? && a.caller !in s.running && (a.rq.id == "" || !Live(s, a.rq.id, a.rq.now))
  }

  function Collected<R>(entries: map<string, Entry<R>>, ttl: int, now: int): map<string, Entry<R>>
  {
    map id | id in entries && now <= entries[id].expiresAt + ttl :: entries[id]
  }

  function Interleave<R>(s: Shared<R>, ttl: int, a: Action<R>): Shared<R>
  {
    match a
    case Lookup(c, rq) =>
      if !Executes(s, a) then s
      else s.(running := s.running[c := rq], executions := s.executions + [Started(rq.id, rq.now, rq.outcome)])
    case Store(c) =>
      if c !in s.running then s
      else
        var rq := s.running[c];
        s.(running := s.running - {c},
           entries := if rq.id == "" then s.entries
                      else Collected(s.entries[rq.id := Entry(rq.outcome, rq.now + ttl)], ttl, rq.now))
  }

  /** A store leaves exactly its own entry and those of others that did not expire more than
      ttl before it began, as they were. */
  lemma StoreCollects<R>(s: Shared<R>, ttl: int, c: nat, id: string)
    requires c in s.running && s.running[c].id != "" && ttl >= 0
    ensures var rq, s' := s.running[c], Interleave(s, ttl, Store(c));
            if id == rq.id then id in s'.entries && s'.entries[id] == Entry(rq.outcome, rq.now + ttl)
            else && (id in s'.entries <==> id in s.entries && rq.now <= s.entries[id].expiresAt + ttl)
                 && (id in s'.entries ==> s'.entries[id] == s.entries[id])
  {
  }

  ghost predicate Follows<R>(s: Shared<R>, ttl: int, a: Action<R>, s': Shared<R>) { s' == Interleave(s, ttl, a) }

  /** The states of an interleaving whose lookups come with a non-decreasing clock. */
  ghost predicate IsTrace<R(!new)>(ttl: int, states: seq<Shared<R>>, actions: seq<Action<R>>)
  {
    && |states| == |actions| + 1 && states[0] == Shared(map[], map[], [])
    && (forall k :: 0 <= k < |actions| ==> Follows(states[k], ttl, actions[k], states[k + 1]))
    && (forall j, k :: 0 <= j < k < |actions| && actions[j].Lookup? && actions[k].Lookup? ==>
          actions[j].rq.now <= actions[k].rq.now)
  }

  /** Two executions of id less than ttl apart. */
  ghost predicate Repeats<R>(s: Shared<R>, ttl: int, id: string)
  {
    exists i, j :: 0 <= i < j < |s.executions| && Within(s.executions, ttl, id, i, j)
  }

  predicate Within<R>(executions: seq<Started<R>>, ttl: int, id: string, i: nat, j: nat)
    requires i < |executions| && j < |executions|
  {
    executions[i].id == id && executions[j].id == id && executions[j].start < executions[i].start + ttl
  }

  /** Some caller is still executing id, having begun less than ttl ago. */
  ghost predicate RunsWithin<R>(s: Shared<R>, ttl: int, id: string, now: int)
  {
    exists c :: c in s.running && s.running[c].id == id && now < s.running[c].now + ttl
  }

  /** A store that replaces an entry still live at `now` by one that is not. */
  predicate Displaces<R>(s: Shared<R>, ttl: int, a: Action<R>, id: string, now: int)
  {
    && a.Store? && a.caller in s.running && s.running[a.caller].id == id
    && Live(s, id, now) && s.running[a.caller].now + ttl <= now
  }

  /** An executing lookup of id that finds it being executed since less than ttl, or comes
      after a late store has displaced an entry it would have hit. */
  ghost predicate Unsafe<R(!new)>(ttl: int, states: seq<Shared<R>>, actions: seq<Action<R>>, id: string, k: nat)
    requires |states| == |actions| + 1 && k < |actions|
  {
    && Executes(states[k], actions[k]) && actions[k].rq.id == id
    && (RunsWithin(states[k], ttl, id, actions[k].rq.now)
        || exists m :: 0 <= m < k && Displaces(states[m], ttl, actions[m], id, actions[k].rq.now))
  }

  // What every state of a trace satisfies.

  ghost predicate Recorded<R(!new)>(executions: seq<Started<R>>, id: string, start: int, result: R)
  {
    exists i :: 0 <= i < |executions| && executions[i] == Started(id, start, result)
  }

  /** Every run and every entry stems from a recorded execution. */
  ghost predicate Sourced<R(!new)>(s: Shared<R>, ttl: int)
  {
    && (forall c :: c in s.running ==>
          Recorded(s.executions, s.running[c].id, s.running[c].now, s.running[c].outcome))
    && (forall id :: id in s.entries ==>
          Recorded(s.executions, id, s.entries[id].expiresAt - ttl, s.entries[id].result))
  }

  lemma RecordedMore<R(!new)>(executions: seq<Started<R>>, more: seq<Started<R>>, id: string, start: int, result: R)
    requires Recorded(executions, id, start, result)
    ensures Recorded(executions + more, id, start, result)
  {
    var i :| 0 <= i < |executions| && executions[i] == Started(id, start, result);
    assert (executions + more)[i] == Started(id, start, result);
  }

  lemma SourcedStep<R(!new)>(s: Shared<R>, ttl: int, a: Action<R>)
    requires Sourced(s, ttl)
    ensures Sourced(Interleave(s, ttl, a), ttl)
  {
    var s' := Interleave(s, ttl, a);
    if Executes(s, a) {
      var more := [Started(a.rq.id, a.rq.now, a.rq.outcome)];
      assert (s.executions + more)[|s.executions|] == more[0];
      forall c | c in s'.running
        ensures Recorded(s'.executions, s'.running[c].id, s'.running[c].now, s'.running[c].outcome)
      {
        if c != a.caller {
          RecordedMore(s.executions, more, s.running[c].id, s.running[c].now, s.running[c].outcome);
        }
      }
      forall id | id in s'.entries
        ensures Recorded(s'.executions, id, s'.entries[id].expiresAt - ttl, s'.entries[id].result)
      {
        RecordedMore(s.executions, more, id, s.entries[id].expiresAt - ttl, s.entries[id].result);
      }
    }
  }

  lemma {:induction false} TraceIsSourced<R(!new)>(ttl: int, states: seq<Shared<R>>, actions: seq<Action<R>>, k: nat)
    requires IsTrace(ttl, states, actions) && k <= |actions|
    ensures Sourced(states[k], ttl)
  {
    if k > 0 {
      TraceIsSourced(ttl, states, actions, k - 1);
      assert Follows(states[k - 1], ttl, actions[k - 1], states[k]);
      SourcedStep(states[k - 1], ttl, actions[k - 1]);
    }
  }

  /** What a caller that need not execute is given. */
  function HitResult<R>(s: Shared<R>, a: Action<R>): R
    requires a.Lookup? && a.caller !in s.running && !Executes(s, a)
  {
    s.entries[a.rq.id].result
  }

  /** A hit repeats the result of an execution of that id that began less than ttl before. */
  lemma HitIsRecent<R(!new)>(ttl: int, states: seq<Shared<R>>, actions: seq<Action<R>>, k: nat)
    requires IsTrace(ttl, states, actions) && k < |actions|
    requires actions[k].Lookup? && actions[k].caller !in states[k].running && !Executes(states[k], actions[k])
    ensures actions[k].rq.id != ""
    ensures exists i :: 0 <= i < |states[k].executions|
              && states[k].executions[i].id == actions[k].rq.id
              && actions[k].rq.now < states[k].executions[i].start + ttl
              && states[k].executions[i].result == HitResult(states[k], actions[k])
  {
    TraceIsSourced(ttl, states, actions, k);
    var s, id := states[k], actions[k].rq.id;
    var i :| 0 <= i < |s.executions|
             && s.executions[i] == Started(id, s.entries[id].expiresAt - ttl, s.entries[id].result);
  }

  lemma {:induction false} ExecutionsGrow<R(!new)>(ttl: int, states: seq<Shared<R>>, actions: seq<Action<R>>, j: nat,
                                                   k: nat)
    requires IsTrace(ttl, states, actions) && j <= k <= |actions|
    ensures states[j].executions <= states[k].executions
  {
    if j < k {
      ExecutionsGrow(ttl, states, actions, j, k - 1);
      assert Follows(states[k - 1], ttl, actions[k - 1], states[k]);
    }
  }

  /** No lookup before state k came later than T. */
  ghost predicate Until<R(!new)>(actions: seq<Action<R>>, k: nat, T: int)
    requires k <= |actions|
  {
    forall j :: 0 <= j < k && actions[j].Lookup? ==> actions[j].rq.now <= T
  }

  ghost predicate StartedBy<R>(s: Shared<R>, T: int)
  {
    && (forall c :: c in s.running ==> s.running[c].now <= T)
    && (forall i :: 0 <= i < |s.executions| ==> s.executions[i].start <= T)
  }

  lemma {:induction false} ClockBounds<R(!new)>(ttl: int, states: seq<Shared<R>>, actions: seq<Action<R>>, k: nat,
                                                T: int)
    requires IsTrace(ttl, states, actions) && k <= |actions| && Until(actions, k, T)
    ensures StartedBy(states[k], T)
  {
    if k > 0 {
      ClockBounds(ttl, states, actions, k - 1, T);
      assert Follows(states[k - 1], ttl, actions[k - 1], states[k]);
    }
  }

  /** A run of id that began at `start` is still executing. */
  ghost predicate Runs<R>(s: Shared<R>, id: string, start: int)
  {
    exists c :: c in s.running && s.running[c].id == id && s.running[c].now == start
  }

  /** While an execution is younger than ttl at time T it is running, or stored and live,
      unless this step displaces it. */
  lemma CoverStep<R>(s: Shared<R>, ttl: int, a: Action<R>, id: string, start: int, T: int)
    requires id != "" && StartedBy(s, T) && start <= T < start + ttl
    requires Runs(s, id, start) || Live(s, id, T)
    ensures var s' := Interleave(s, ttl, a);
            Runs(s', id, start) || Live(s', id, T) || Displaces(s, ttl, a, id, T)
  {
    var s' := Interleave(s, ttl, a);
    if Runs(s, id, start) {
      var c :| c in s.running && s.running[c].id == id && s.running[c].now == start;
      if a.Store? && a.caller == c {
        assert Live(s', id, T);
      } else {
        assert c in s'.running && s'.running[c] == s.running[c];
      }
    }
  }

  lemma {:induction false} Covered<R(!new)>(ttl: int, states: seq<Shared<R>>, actions: seq<Action<R>>, id: string,
                                            T: int,
                                            k: nat, i: nat)
    requires IsTrace(ttl, states, actions) && k <= |actions| && Until(actions, k, T) && id != ""
    requires i < |states[k].executions| && states[k].executions[i].id == id
    requires T < states[k].executions[i].start + ttl
    ensures Runs(states[k], id, states[k].executions[i].start) || Live(states[k], id, T)
            || exists m :: 0 <= m < k && Displaces(states[m], ttl, actions[m], id, T)
  {
    if k > 0 {
      var s, a := states[k - 1], actions[k - 1];
      assert Follows(s, ttl, a, states[k]);
      if i < |s.executions| {
        Covered(ttl, states, actions, id, T, k - 1, i);
        ClockBounds(ttl, states, actions, k - 1, T);
        if Runs(s, id, s.executions[i].start) || Live(s, id, T) {
          CoverStep(s, ttl, a, id, s.executions[i].start, T);
        }
      } else {
        assert a.caller in states[k].running;
      }
    }
  }

  /** A second execution within ttl only comes about by an unsafe lookup. */
  lemma {:induction false} RepeatIsUnsafe<R(!new)>(ttl: int, states: seq<Shared<R>>, actions: seq<Action<R>>,
                                                   id: string,
                                                   n: nat)
    returns (k: nat)
    requires IsTrace(ttl, states, actions) && id != "" && n <= |actions| && Repeats(states[n], ttl, id)
    ensures k < n && Unsafe(ttl, states, actions, id, k)
  {
    var i, j :| 0 <= i < j < |states[n].executions| && Within(states[n].executions, ttl, id, i, j);
    var s, a := states[n - 1], actions[n - 1];
    assert Follows(s, ttl, a, states[n]);
    if j < |s.executions| {
      assert Within(s.executions, ttl, id, i, j);
      k := RepeatIsUnsafe(ttl, states, actions, id, n - 1);
    } else {
      k := n - 1;
      assert Until(actions, k, a.rq.now);
      Covered(ttl, states, actions, id, a.rq.now, k, i);
      if Runs(s, id, s.executions[i].start) {
        var c :| c in s.running && s.running[c].id == id && s.running[c].now == s.executions[i].start;
        assert RunsWithin(s, ttl, id, a.rq.now);
      }
    }
  }

  /** An unsafe lookup executes id again within ttl. */
  lemma UnsafeRepeats<R(!new)>(ttl: int, states: seq<Shared<R>>, actions: seq<Action<R>>, id: string, k: nat, n: nat)
    requires IsTrace(ttl, states, actions) && k < n <= |actions| && Unsafe(ttl, states, actions, id, k)
    ensures Repeats(states[n], ttl, id)
  {
    var now := actions[k].rq.now;
    var i := YoungExecution(ttl, states, actions, id, k);
    var j := |states[k].executions|;
    assert Follows(states[k], ttl, actions[k], states[k + 1]);
    ExecutionsGrow(ttl, states, actions, k + 1, n);
    assert states[n].executions[i] == states[k].executions[i];
    assert states[n].executions[j] == Started(id, now, actions[k].rq.outcome);
    assert Within(states[n].executions, ttl, id, i, j);
  }

  /** Before an unsafe lookup there is an execution of id younger than ttl. */
  lemma YoungExecution<R(!new)>(ttl: int, states: seq<Shared<R>>, actions: seq<Action<R>>, id: string, k: nat)
    returns (i: nat)
    requires IsTrace(ttl, states, actions) && k < |actions| && Unsafe(ttl, states, actions, id, k)
    ensures i < |states[k].executions| && states[k].executions[i].id == id
    ensures actions[k].rq.now < states[k].executions[i].start + ttl
  {
    var now := actions[k].rq.now;
    if RunsWithin(states[k], ttl, id, now) {
      TraceIsSourced(ttl, states, actions, k);
      var c :| c in states[k].running && states[k].running[c].id == id && now < states[k].running[c].now + ttl;
      var rq := states[k].running[c];
      i :| 0 <= i < |states[k].executions| && states[k].executions[i] == Started(id, rq.now, rq.outcome);
    } else {
      var m :| 0 <= m < k && Displaces(states[m], ttl, actions[m], id, now);
      TraceIsSourced(ttl, states, actions, m);
      var e := states[m].entries[id];
      i :| 0 <= i < |states[m].executions| && states[m].executions[i] == Started(id, e.expiresAt - ttl, e.result);
      ExecutionsGrow(ttl, states, actions, m, k);
    }
  }

  /** Over every interleaving: id is executed twice within ttl exactly when some executing
      lookup found it running since less than ttl, or missed an entry that a late store had
      displaced. */
  lemma RepeatsIffUnsafe<R(!new)>(ttl: int, states: seq<Shared<R>>, actions: seq<Action<R>>, id: string, n: nat)
    requires IsTrace(ttl, states, actions) && id != "" && n <= |actions|
    ensures Repeats(states[n], ttl, id) <==> exists k :: 0 <= k < n && Unsafe(ttl, states, actions, id, k)
  {
    if Repeats(states[n], ttl, id) {
      var k := RepeatIsUnsafe(ttl, states, actions, id, n);
    }
    if k :| 0 <= k < n && Unsafe(ttl, states, actions, id, k) {
      UnsafeRepeats(ttl, states, actions, id, k, n);
    }
  }

  // ----- one run of an id at a time ------------------------------------------------------

  ghost predicate Busy<R>(s: Shared<R>, id: string)
  {
    exists c :: c in s.running && s.running[c].id == id
  }

  /** No lookup of id falls between an executing lookup of id and its store; runs of other
      ids may overlap freely. */
  ghost predicate Serial<R(!new)>(states: seq<Shared<R>>, actions: seq<Action<R>>, id: string)
    requires |states| == |actions| + 1
  {
    forall k :: 0 <= k < |actions| && actions[k].Lookup? && actions[k].rq.id == id ==> !Busy(states[k], id)
  }

  /** One run of id at most, begun after the stored entry expired. */
  ghost predicate OneAtATime<R>(s: Shared<R>, ttl: int, id: string)
  {
    && (forall c, d :: c in s.running && d in s.running && s.running[c].id == id && s.running[d].id == id ==> c == d)
    && (forall c :: c in s.running && s.running[c].id == id && id in s.entries ==>
          s.entries[id].expiresAt <= s.running[c].now)
  }

  lemma SerialStep<R>(s: Shared<R>, ttl: int, a: Action<R>, id: string)
    requires id != "" && OneAtATime(s, ttl, id)
    requires a.Lookup? && a.rq.id == id ==> !Busy(s, id)
    ensures OneAtATime(Interleave(s, ttl, a), ttl, id)
  {
  }

  lemma {:induction false} SerialKeeps<R(!new)>(ttl: int, states: seq<Shared<R>>, actions: seq<Action<R>>, id: string,
                                                k: nat)
    requires IsTrace(ttl, states, actions) && id != "" && Serial(states, actions, id) && k <= |actions|
    ensures OneAtATime(states[k], ttl, id)
  {
    if k > 0 {
      SerialKeeps(ttl, states, actions, id, k - 1);
      assert Follows(states[k - 1], ttl, actions[k - 1], states[k]);
      SerialStep(states[k - 1], ttl, actions[k - 1], id);
    }
  }

  /** If runs of one id do not overlap, two executions of it start at least ttl apart,
      whatever other ids do. */
  lemma SerialRunsApart<R(!new)>(ttl: int, states: seq<Shared<R>>, actions: seq<Action<R>>, id: string, n: nat)
    requires IsTrace(ttl, states, actions) && id != "" && Serial(states, actions, id) && n <= |actions|
    ensures !Repeats(states[n], ttl, id)
  {
    if Repeats(states[n], ttl, id) {
      var k := RepeatIsUnsafe(ttl, states, actions, id, n);
      assert !Busy(states[k], id);
      var m :| 0 <= m < k && Displaces(states[m], ttl, actions[m], id, actions[k].rq.now);
      SerialKeeps(ttl, states, actions, id, m);
      assert Until(actions, m, actions[k].rq.now);
      ClockBounds(ttl, states, actions, m, actions[k].rq.now);
    }
  }

  /** A lookup of an id that is being executed since less than ttl: it executes the id
      again, within ttl, exactly when no live entry is stored. */
  lemma OverlappingLookup<R(!new)>(ttl: int, states: seq<Shared<R>>, actions: seq<Action<R>>, id: string, k: nat)
    requires IsTrace(ttl, states, actions) && id != "" && k < |actions|
    requires actions[k].Lookup? && actions[k].rq.id == id && actions[k].caller !in states[k].running
    requires RunsWithin(states[k], ttl, id, actions[k].rq.now)
    ensures |states[k + 1].executions| > |states[k].executions| <==> !Live(states[k], id, actions[k].rq.now)
    ensures !Live(states[k], id, actions[k].rq.now) ==> Repeats(states[k + 1], ttl, id)
  {
    assert Follows(states[k], ttl, actions[k], states[k + 1]);
    if !Live(states[k], id, actions[k].rq.now) {
      UnsafeRepeats(ttl, states, actions, id, k, k + 1);
    }
  }

  /** Both callers look up before either stores. */
  lemma OverlapExecutesTwice(ttl: int, states: seq<Shared<int>>)
    requires ttl > 0
    requires IsTrace(ttl, states, [Lookup(1, Request("cmd", 0, 7)), Lookup(2, Request("cmd", 0, 7))])
    ensures states[2].executions == [Started("cmd", 0, 7), Started("cmd", 0, 7)] && Repeats(states[2], ttl, "cmd")
  {
    var actions := [Lookup(1, Request("cmd", 0, 7)), Lookup(2, Request("cmd", 0, 7))];
    assert Follows(states[0], ttl, actions[0], states[1]) && Follows(states[1], ttl, actions[1], states[2]);
    assert Within(states[2].executions, ttl, "cmd", 0, 1);
  }

  /** A run that outlasts ttl stores over the result of the run that followed it: the third
      caller finds nothing running and still executes the command one tick later. */
  lemma LateStoreExecutesTwice(ttl: int, states: seq<Shared<int>>)
    requires ttl > 1
    requires IsTrace(ttl, states, LateStore(ttl))
    ensures states[4].running == map[] && Repeats(states[5], ttl, "cmd")
  {
    var actions := LateStore(ttl);
    assert Follows(states[0], ttl, actions[0], states[1]) && Follows(states[1], ttl, actions[1], states[2]);
    assert states[2] == Shared(map[], map[1 := actions[0].rq, 2 := actions[1].rq],
                               [Started("cmd", 0, 7), Started("cmd", ttl, 8)]);
    assert Follows(states[2], ttl, actions[2], states[3]) && Follows(states[3], ttl, actions[3], states[4]);
    assert states[3].entries == map["cmd" := Entry(8, 2 * ttl)];
    assert states[4].entries == map["cmd" := Entry(7, ttl)];
    assert Follows(states[4], ttl, actions[4], states[5]);
    assert Within(states[5].executions, ttl, "cmd", 1, 2);
  }

  function LateStore(ttl: int): seq<Action<int>>
  {
    [Lookup(1, Request("cmd", 0, 7)), Lookup(2, Request("cmd", ttl, 8)), Store(2), Store(1),
     Lookup(3, Request("cmd", ttl + 1, 9))]
  }
}
