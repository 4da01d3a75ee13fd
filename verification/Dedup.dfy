/** Command deduplication: an expiring, garbage-collected cache of command results. */
module Dedup {

  /** One command arriving at time now; outcome is what executing it would return. */
  datatype Request<R> = Request(id: string, now: int, outcome: R)

  datatype Answer<R> = Answer(result: R, hit: bool)

  datatype Execution<R> = Execution(start: int, result: R)

  /** The reference: the latest execution of every id, kept forever. */
  type Latest<R> = map<string, Execution<R>>

  predicate Remembers<R>(latest: Latest<R>, ttl: int, rq: Request<R>)
  {
    rq.id != "" && rq.id in latest && rq.now < latest[rq.id].start + ttl
  }

  function RefAnswer<R>(latest: Latest<R>, ttl: int, rq: Request<R>): Answer<R>
  {
    if Remembers(latest, ttl, rq) then Answer(latest[rq.id].result, true) else Answer(rq.outcome, false)
  }

  function RefNext<R>(latest: Latest<R>, ttl: int, rq: Request<R>): Latest<R>
  {
    if rq.id == "" || Remembers(latest, ttl, rq) then latest
    else latest[rq.id := Execution(rq.now, rq.outcome)]
  }

  /** The reference cache after the first n requests. */
  function RefAfter<R>(ttl: int, requests: seq<Request<R>>, n: nat): Latest<R>
    requires n <= |requests|
  {
    if n == 0 then map[] else RefNext(RefAfter(ttl, requests, n - 1), ttl, requests[n - 1])
  }

  function RefAnswerAt<R>(ttl: int, requests: seq<Request<R>>, n: nat): Answer<R>
    requires n < |requests|
  {
    RefAnswer(RefAfter(ttl, requests, n), ttl, requests[n])
  }

  /** Request n is executed rather than answered from the cache. */
  predicate Executed<R>(ttl: int, requests: seq<Request<R>>, n: nat)
    requires n < |requests|
  {
    !RefAnswerAt(ttl, requests, n).hit
  }

  predicate Clocked<R>(requests: seq<Request<R>>)
  {
    forall i, j :: 0 <= i < j < |requests| ==> requests[i].now <= requests[j].now
  }

  /** The reference entry for an id is its latest executed request. */
  lemma {:induction false} LatestIsLastExecution<R>(ttl: int, requests: seq<Request<R>>, n: nat, id: string)
    returns (k: int)
    requires n <= |requests| && id != ""
    ensures id in RefAfter(ttl, requests, n) <==> k >= 0
    ensures k < n
    ensures k >= 0 ==>
              && requests[k].id == id && Executed(ttl, requests, k)
              && RefAfter(ttl, requests, n)[id] == Execution(requests[k].now, requests[k].outcome)
    ensures forall j :: 0 <= j < n && j > k && requests[j].id == id ==> !Executed(ttl, requests, j)
  {
    if n == 0 {
      k := -1;
    } else if requests[n - 1].id == id && Executed(ttl, requests, n - 1) {
      k := n - 1;
    } else {
      k := LatestIsLastExecution(ttl, requests, n - 1, id);
    }
  }

  /** Two executions of one id start at least ttl apart. */
  lemma ExecutionsApart<R>(ttl: int, requests: seq<Request<R>>, i: nat, j: nat)
    requires Clocked(requests) && i < j < |requests|
    requires requests[i].id == requests[j].id != ""
    requires Executed(ttl, requests, i) && Executed(ttl, requests, j)
    ensures requests[j].now >= requests[i].now + ttl
  {
    var k := LatestIsLastExecution(ttl, requests, j, requests[j].id);
    assert k >= i;
  }

  /** A hit repeats the result of the latest execution of that id, which is less than
      ttl old; the empty id never hits. */
  lemma HitRepeatsLatest<R>(ttl: int, requests: seq<Request<R>>, n: nat) returns (k: nat)
    requires n < |requests| && !Executed(ttl, requests, n)
    ensures requests[n].id != ""
    ensures k < n && requests[k].id == requests[n].id && Executed(ttl, requests, k)
    ensures RefAnswerAt(ttl, requests, n).result == requests[k].outcome
    ensures requests[n].now < requests[k].now + ttl
    ensures forall j :: k < j < n && requests[j].id == requests[n].id ==> !Executed(ttl, requests, j)
  {
    k := LatestIsLastExecution(ttl, requests, n, requests[n].id);
  }

  /** A miss is answered with what its own execution returned, and the empty id always is one. */
  lemma MissAnswersItself<R>(ttl: int, requests: seq<Request<R>>, n: nat)
    requires n < |requests|
    ensures Executed(ttl, requests, n) ==> RefAnswerAt(ttl, requests, n).result == requests[n].outcome
    ensures requests[n].id == "" ==> Executed(ttl, requests, n)
  {
  }

  // ----- the cache itself ---------------------------------------------------------

  datatype Entry<R> = Entry(result: R, expiresAt: int)

  class Cache<R> {
    const ttl: int
    var entries: map<string, Entry<R>>
    /** The reference cache fed with the same requests. */
    ghost var latest: Latest<R>
    ghost var clock: int

    /** Live entries agree with the reference; whatever the GC dropped had expired. */
    ghost predicate Valid()
      reads this
    {
      && (forall id :: id in entries ==>
            && id in latest
            && entries[id] == Entry(latest[id].result, latest[id].start + ttl))
      && (forall id :: id in latest ==> latest[id].start <= clock)
      && (forall id :: id in latest && id !in entries ==> latest[id].start + ttl <= clock)
      && "" !in latest
    }

    constructor (ttl: int)
      ensures Valid() && entries == map[] && latest == map[] && this.ttl == ttl
    {
      this.ttl := ttl;
      entries, latest, clock := map[], map[], 0;
    }

    /** Run, with calls not overlapping: lookup, execution and store of one command
        happen before the next lookup. */
    method Run(rq: Request<R>) returns (answer: Answer<R>)
      requires Valid() && (latest == map[] || clock <= rq.now)
      modifies this
      ensures Valid() && clock == rq.now
      ensures answer == RefAnswer(old(latest), ttl, rq)
      ensures latest == RefNext(old(latest), ttl, rq)
      ensures !answer.hit && rq.id != "" ==>
                forall id :: id in entries ==> entries[id].expiresAt >= rq.now - ttl
    {
      clock := rq.now;
      if rq.id == "" {
        return Answer(rq.outcome, false);
      }
      if rq.id in entries && rq.now < entries[rq.id].expiresAt {
        return Answer(entries[rq.id].result, true);
      }
      answer := Answer(rq.outcome, false);
      entries := entries[rq.id := Entry(rq.outcome, rq.now + ttl)];
      latest := latest[rq.id := Execution(rq.now, rq.outcome)];
      CollectExpired(rq.now);
    }

    /** The opportunistic GC loop: drops every entry that expired more than ttl ago. */
    method CollectExpired(now: int)
      requires Valid() && clock == now
      modifies this`entries
      ensures Valid()
      ensures forall id :: id in entries <==> id in old(entries) && now <= old(entries)[id].expiresAt + ttl
      ensures forall id :: id in entries ==> entries[id] == old(entries)[id]
    {
      var todo := entries.Keys;
      while todo != {}
        invariant todo <= entries.Keys && Valid()
        invariant forall id :: id in entries ==> id in old(entries) && entries[id] == old(entries)[id]
        invariant forall id :: id in old(entries) && id !in entries ==> now > old(entries)[id].expiresAt + ttl
        invariant forall id :: id in entries && id !in todo ==> now <= entries[id].expiresAt + ttl
      {
        var id :| id in todo;
        todo := todo - {id};
        if now > entries[id].expiresAt + ttl {
          entries := entries - {id};
        }
      }
    }
  }

  /** The first n answers are the reference's. */
  predicate AnswersLike<R(==)>(ttl: int, requests: seq<Request<R>>, n: nat, answers: seq<Answer<R>>)
    requires n <= |requests|
  {
    |answers| == n && forall k :: 0 <= k < n ==> answers[k] == RefAnswerAt(ttl, requests, k)
  }

  lemma AnswersMore<R>(ttl: int, requests: seq<Request<R>>, n: nat, answers: seq<Answer<R>>, a: Answer<R>)
    requires n < |requests| && AnswersLike(ttl, requests, n, answers)
    requires a == RefAnswer(RefAfter(ttl, requests, n), ttl, requests[n])
    ensures AnswersLike(ttl, requests, n + 1, answers + [a])
  {
  }

  /** The command loop over one cache: whatever the clock and the ids, the collected
      cache answers exactly like the one that never forgets. */
  method ServeAll<R>(ttl: int, requests: seq<Request<R>>) returns (answers: seq<Answer<R>>)
    requires Clocked(requests)
    ensures |answers| == |requests|
    ensures forall n :: 0 <= n < |requests| ==> answers[n] == RefAnswerAt(ttl, requests, n)
  {
    var cache := new Cache<R>(ttl);
    answers := [];
    for n := 0 to |requests|
      invariant cache.ttl == ttl && cache.Valid() && fresh(cache)
      invariant cache.latest == RefAfter(ttl, requests, n)
      invariant n > 0 ==> cache.clock == requests[n - 1].now
      invariant AnswersLike(ttl, requests, n, answers)
    {
      var a := cache.Run(requests[n]);
      AnswersMore(ttl, requests, n, answers, a);
      answers := answers + [a];
    }
  }
}
