/** A disaggregated deployment group and its round-robin endpoint selection. */
module Deployment {
  import opened DockerEngine

  datatype ContainerInfo = ContainerInfo(containerID: ContainerID, hostPort: int, replicaIdx: int)

  /** Only ever compared, like container ids. */
  type DeploymentID = int

  datatype Endpoint = NoEndpoint | Local(port: int)

  const WRAP := 0x1_0000_0000

  /** The uint32 counter after one Add(1). */
  function Advance(counter: nat): nat { (counter + 1) % WRAP }

  /** The replica selected when the counter stood at `counter`. */
  function Pick(counter: nat, n: nat): nat
    requires n > 0
  {
    counter % WRAP % n
  }

  class DeploymentGroup {
    const id: DeploymentID
    const model: string
    const prefill: array<ContainerInfo>
    const decode: array<ContainerInfo>
    var prefillNext: nat
    var decodeNext: nat

    constructor (id: DeploymentID, model: string, prefillCount: nat, decodeCount: nat)
      ensures this.id == id && this.model == model && prefillNext == 0 && decodeNext == 0
      ensures fresh(prefill) && fresh(decode) && prefill != decode
      ensures prefill.Length == prefillCount && decode.Length == decodeCount
      ensures forall k :: 0 <= k < prefillCount ==> prefill[k].containerID == 0
      ensures forall k :: 0 <= k < decodeCount ==> decode[k].containerID == 0
    {
      this.id, this.model := id, model;
      prefill := new ContainerInfo[prefillCount](_ => ContainerInfo(0, 0, 0));
      decode := new ContainerInfo[decodeCount](_ => ContainerInfo(0, 0, 0));
      prefillNext, decodeNext := 0, 0;
    }

    method NextPrefill() returns (e: Endpoint)
      requires prefillNext < WRAP
      modifies this`prefillNext
      ensures if prefill.Length == 0 then e == NoEndpoint && prefillNext == old(prefillNext)
              else && prefillNext == Advance(old(prefillNext))
                   && e == Local(prefill[Pick(old(prefillNext), prefill.Length)].hostPort)
    {
      if prefill.Length == 0 {
        return NoEndpoint;
      }
      prefillNext := (prefillNext + 1) % WRAP;
      var i := (prefillNext + WRAP - 1) % WRAP;
      e := Local(prefill[i % prefill.Length].hostPort);
    }

    method NextDecode() returns (e: Endpoint)
      requires decodeNext < WRAP
      modifies this`decodeNext
      ensures if decode.Length == 0 then e == NoEndpoint && decodeNext == old(decodeNext)
              else && decodeNext == Advance(old(decodeNext))
                   && e == Local(decode[Pick(old(decodeNext), decode.Length)].hostPort)
    {
      if decode.Length == 0 {
        return NoEndpoint;
      }
      decodeNext := (decodeNext + 1) % WRAP;
      var i := (decodeNext + WRAP - 1) % WRAP;
      e := Local(decode[i % decode.Length].hostPort);
    }
  }

  // ----- fairness over a window of consecutive calls ------------------------------

  /** The counter after k calls. */
  function After(counter: nat, k: nat): nat
  {
    if k == 0 then counter else Advance(After(counter, k - 1))
  }

  /** How often replica r is selected by k consecutive calls. */
  function Selected(counter: nat, k: nat, n: nat, r: nat): nat
    requires n > 0
  {
    if k == 0 then 0
    else Selected(counter, k - 1, n, r) + if Pick(After(counter, k - 1), n) == r then 1 else 0
  }

  /** How many x < m leave remainder r. */
  function Below(m: nat, n: nat, r: nat): nat
    requires n > 0
  {
    if m == 0 then 0 else Below(m - 1, n, r) + if (m - 1) % n == r then 1 else 0
  }

  lemma QuotientUnique(n: nat, q: nat, rem: nat, q': nat, rem': nat)
    requires rem < n && rem' < n && q * n + rem == q' * n + rem'
    ensures q == q' && rem == rem'
  {
    if q < q' {
      Gap(n, q, q');
    } else if q' < q {
      Gap(n, q', q);
    }
  }

  lemma Distribute(q: int, n: int)
    ensures (q + 1) * n == q * n + n
  {
  }

  lemma {:induction false} Gap(n: nat, q: nat, q': nat)
    requires q < q'
    ensures q' * n >= q * n + n
    decreases q'
  {
    if q + 1 < q' {
      Gap(n, q, q' - 1);
    }
    Distribute(q' - 1, n);
  }

  lemma DivModUnique(m: nat, n: nat, q: nat, rem: nat)
    requires rem < n && m == q * n + rem
    ensures m / n == q && m % n == rem
  {
    var q', rem' := m / n, m % n;
    assert m == q' * n + rem';
    QuotientUnique(n, q, rem, q', rem');
  }

  lemma SuccMod(m: nat, n: nat)
    requires n > 0
    ensures if m % n == n - 1 then (m + 1) / n == m / n + 1 && (m + 1) % n == 0
            else (m + 1) / n == m / n && (m + 1) % n == m % n + 1
  {
    var q, rem := m / n, m % n;
    assert m == q * n + rem;
    if rem == n - 1 {
      assert m + 1 == (q + 1) * n + 0;
      DivModUnique(m + 1, n, q + 1, 0);
    } else {
      DivModUnique(m + 1, n, q, rem + 1);
    }
  }

  lemma {:induction false} BelowClosed(m: nat, n: nat, r: nat)
    requires r < n
    ensures Below(m, n, r) == m / n + if r < m % n then 1 else 0
  {
    if m == 0 {
      DivModUnique(0, n, 0, 0);
    } else {
      BelowClosed(m - 1, n, r);
      SuccMod(m - 1, n);
    }
  }

  lemma {:induction false} AfterIsSum(c: nat, k: nat)
    requires c < WRAP
    ensures After(c, k) == (c + k) % WRAP
  {
    if k > 0 {
      AfterIsSum(c, k - 1);
    }
  }

  lemma AfterSmall(c: nat, k: nat)
    requires c + k < WRAP
    ensures After(c, k) == c + k
  {
    AfterIsSum(c, k);
  }

  lemma PickSmall(x: nat, n: nat)
    requires n > 0 && x < WRAP
    ensures Pick(x, n) == x % n
  {
  }

  /** Selections in a window [c, c + k) of counter values that does not wrap. */
  lemma {:induction false} SelectedNoWrap(c: nat, k: nat, n: nat, r: nat)
    requires n > 0 && c < WRAP && c + k <= WRAP
    ensures Selected(c, k, n, r) == Below(c + k, n, r) - Below(c, n, r)
  {
    if k > 0 {
      SelectedNoWrap(c, k - 1, n, r);
      AfterSmall(c, k - 1);
      PickSmall(c + k - 1, n);
    }
  }

  lemma BelowBalanced(lo: nat, hi: nat, n: nat, r: nat, s: nat)
    requires lo <= hi && r < n && s < n
    ensures (Below(hi, n, r) - Below(lo, n, r)) - (Below(hi, n, s) - Below(lo, n, s)) <= 1
  {
    BelowClosed(lo, n, r);
    BelowClosed(lo, n, s);
    BelowClosed(hi, n, r);
    BelowClosed(hi, n, s);
  }

  /** No wrap in the window: selection counts of any two replicas differ by at most 1. */
  lemma FairWithoutWrap(c: nat, k: nat, n: nat, r: nat, s: nat)
    requires r < n && s < n && c < WRAP && c + k <= WRAP
    ensures -1 <= Selected(c, k, n, r) - Selected(c, k, n, s) <= 1
  {
    SelectedNoWrap(c, k, n, r);
    SelectedNoWrap(c, k, n, s);
    BelowBalanced(c, c + k, n, r, s);
    BelowBalanced(c, c + k, n, s, r);
  }

  lemma {:induction false} SelectedSplit(c: nat, j: nat, k: nat, n: nat, r: nat)
    requires n > 0
    ensures Selected(c, j + k, n, r) == Selected(c, j, n, r) + Selected(After(c, j), k, n, r)
    ensures After(c, j + k) == After(After(c, j), k)
  {
    if k > 0 {
      SelectedSplit(c, j, k - 1, n, r);
    }
  }

  /** One wrap: at most 2. */
  lemma FairAcrossOneWrap(c: nat, k: nat, n: nat, r: nat, s: nat)
    requires r < n && s < n && c < WRAP && WRAP <= c + k <= 2 * WRAP
    ensures -2 <= Selected(c, k, n, r) - Selected(c, k, n, s) <= 2
  {
    var j := WRAP - c;
    AfterIsSum(c, j);
    SelectedSplit(c, j, k - j, n, r);
    SelectedSplit(c, j, k - j, n, s);
    FairWithoutWrap(c, j, n, r, s);
    FairWithoutWrap(0, k - j, n, r, s);
  }

  lemma {:induction false} SelectedWhenDividing(c: nat, k: nat, n: nat, m: nat, r: nat)
    requires n > 0 && m * n == WRAP && c < WRAP
    ensures Selected(c, k, n, r) == Below(c + k, n, r) - Below(c, n, r)
  {
    if k > 0 {
      SelectedWhenDividing(c, k - 1, n, m, r);
      AfterIsSum(c, k - 1);
      ModMod(c + k - 1, n, m);
      PickAfter(c + k - 1, n);
    }
  }

  lemma PickAfter(x: nat, n: nat)
    requires n > 0
    ensures Pick(x % WRAP, n) == x % WRAP % n
  {
  }

  lemma ModMod(x: nat, n: nat, m: nat)
    requires n > 0 && m * n == WRAP
    ensures x % WRAP % n == x % n
  {
    var q, rem := x / WRAP, x % WRAP;
    var q', rem' := rem / n, rem % n;
    assert x == q * (m * n) + q' * n + rem';
    assert q * (m * n) == q * m * n;
    assert x == (q * m + q') * n + rem' by {
      assert (q * m + q') * n == q * m * n + q' * n;
    }
    DivModUnique(x, n, q * m + q', rem');
  }

  /** When the replica count divides 2^32 wrapping is invisible: the bound is 1 over
      any window. */
  lemma FairWhenDividing(c: nat, k: nat, n: nat, m: nat, r: nat, s: nat)
    requires r < n && s < n && m * n == WRAP && c < WRAP
    ensures -1 <= Selected(c, k, n, r) - Selected(c, k, n, s) <= 1
  {
    SelectedWhenDividing(c, k, n, m, r);
    SelectedWhenDividing(c, k, n, m, s);
    BelowBalanced(c, c + k, n, r, s);
    BelowBalanced(c, c + k, n, s, r);
  }

  /** Any two replicas' selection counts differ by at most 1, over every window. */
  ghost predicate AlwaysFair(n: nat)
    requires n > 0
  {
    forall c: nat, k: nat, r: nat, s: nat :: c < WRAP && r < n && s < n ==>
      Selected(c, k, n, r) - Selected(c, k, n, s) <= 1
  }

  /** The window of 2 * rem calls around the wrap: the counter's last rem values and its
      first rem values select the same replicas. */
  lemma AroundTheWrap(n: nat, q: nat, rem: nat, r: nat)
    requires 0 < rem < n && WRAP == q * n + rem && r < n
    ensures Selected(WRAP - rem, 2 * rem, n, r) == if r < rem then 2 else 0
  {
    var c := WRAP - rem;
    AfterIsSum(c, rem);
    SelectedSplit(c, rem, rem, n, r);
    SelectedNoWrap(c, rem, n, r);
    SelectedNoWrap(0, rem, n, r);
    BelowClosed(WRAP, n, r);
    BelowClosed(c, n, r);
    BelowClosed(rem, n, r);
    DivModUnique(WRAP, n, q, rem);
    DivModUnique(c, n, q, 0);
    DivModUnique(rem, n, 0, rem);
  }

  /** Round-robin is fair over every window exactly when the replica count divides 2^32;
      otherwise some window favours a replica by 2. */
  lemma FairIffDividing(n: nat)
    requires n > 0
    ensures AlwaysFair(n) <==> WRAP % n == 0
    ensures WRAP % n != 0 ==>
              exists c: nat, k: nat, r: nat, s: nat :: c < WRAP && r < n && s < n
                && Selected(c, k, n, r) - Selected(c, k, n, s) == 2
  {
    var q, rem := WRAP / n, WRAP % n;
    assert WRAP == q * n + rem;
    if rem == 0 {
      forall c: nat, k: nat, r: nat, s: nat | c < WRAP && r < n && s < n
        ensures Selected(c, k, n, r) - Selected(c, k, n, s) <= 1
      {
        FairWhenDividing(c, k, n, q, r, s);
      }
    } else {
      AroundTheWrap(n, q, rem, 0);
      AroundTheWrap(n, q, rem, rem);
      assert Selected(WRAP - rem, 2 * rem, n, 0) - Selected(WRAP - rem, 2 * rem, n, rem) == 2;
    }
  }

  /** Three replicas: the two calls around the wrap both pick replica 0. */
  lemma WrapSkews()
    ensures Selected(WRAP - 1, 2, 3, 0) - Selected(WRAP - 1, 2, 3, 1) == 2
  {
    AroundTheWrap(3, WRAP / 3, 1, 0);
    AroundTheWrap(3, WRAP / 3, 1, 1);
  }
}
