/**
 Posting a payload to the intake: the retry ladder of one endpoint and the fan-out in which
 the first endpoint alone decides the outcome.
 */
module Intake {
  import opened Basics

  /** In nanoseconds. */
  const BACKOFF_MAX: int := 30_000_000_000

  /** What one request comes back with; without a response the status reads as zero. */
  datatype Reply = NoReply | Status(code: nat)

  /** A destination: whether its URL can form a request, the reply its i-th request would get,
      and how many backoff sleeps the caller's deadline lets pass. */
  datatype Endpoint = Endpoint(valid: bool, reply: nat -> Reply, deadline: nat)

  function Code(r: Reply): nat { if r.NoReply? then 0 else r.code }

  predicate Delivered(r: Reply) { r.Status? && r.code / 100 == 2 }

  /** Bad request, unauthorized, forbidden, or payload too large. */
  predicate Permanent(status: int)
  {
    status == 400 || status == 401 || status == 403 || status == 413
  }

  predicate Settles(r: Reply) { Delivered(r) || Permanent(Code(r)) }

  datatype Verdict = Accepted | Refused | Transient

  /** How the log batcher reads a status and error. */
  function Classify(status: int, ok: bool): Verdict
  {
    if ok then Accepted else if Permanent(status) then Refused else Transient
  }

  /** Position of the first of `n` replies that settles the payload, or `n`. */
  function First(reply: nat -> Reply, n: nat): (i: nat)
    ensures i <= n && (i < n ==> Settles(reply(i)))
    ensures forall j | 0 <= j < i :: !Settles(reply(j))
  {
    if n == 0 then 0
    else
      var i := First(reply, n - 1);
      if i < n - 1 || Settles(reply(n - 1)) then i else n
  }

  /** The most requests an endpoint can see. */
  function Limit(maxTries: nat, ep: Endpoint): nat
  {
    if ep.valid then Min(maxTries, ep.deadline + 1) else 0
  }

  function LadderVerdict(maxTries: nat, ep: Endpoint): Verdict
  {
    var n := Limit(maxTries, ep);
    var i := First(ep.reply, n);
    if i == n then Transient else if Delivered(ep.reply(i)) then Accepted else Refused
  }

  /** The primary endpoint alone; no endpoint at all counts as accepted. */
  function PostVerdict(maxTries: nat, eps: seq<Endpoint>): Verdict
  {
    if eps == [] then Accepted else LadderVerdict(maxTries, eps[0])
  }

  /** The sleep before retry `j`, counted from zero. */
  function Sleep(backoff: int, j: nat): int
  {
    if j == 0 then backoff else Min(backoff * Pow2(j), BACKOFF_MAX)
  }

  lemma SleepDoubles(backoff: int, j: nat)
    ensures Sleep(backoff, j + 1) == Min(Sleep(backoff, j) * 2, BACKOFF_MAX)
  {
    assert backoff * Pow2(j + 1) == backoff * Pow2(j) * 2;
  }

  /** A verdict is exactly the first settling reply within reach: accepted for a 2xx,
      refused for a permanent status. */
  lemma VerdictMeaning(maxTries: nat, ep: Endpoint, i: nat)
    requires i < Limit(maxTries, ep) && Settles(ep.reply(i))
    requires forall j | 0 <= j < i :: !Settles(ep.reply(j))
    ensures LadderVerdict(maxTries, ep) == if Delivered(ep.reply(i)) then Accepted else Refused
  {
    var n := Limit(maxTries, ep);
    var k := First(ep.reply, n);
    if k > i {
      assert false;
    }
  }

  /** And transient exactly when no reply within reach settles. */
  lemma TransientMeaning(maxTries: nat, ep: Endpoint)
    ensures LadderVerdict(maxTries, ep).Transient? <==> forall i: nat | i < Limit(maxTries, ep) :: !Settles(ep.reply(i))
  {
  }

  /** What one endpoint saw of a post. */
  datatype Attempt = Attempt(requests: nat, sleeps: seq<int>)

  ghost predicate AttemptOk(maxTries: nat, backoff: int, ep: Endpoint, a: Attempt)
  {
    && a.requests == Min(First(ep.reply, Limit(maxTries, ep)) + 1, Limit(maxTries, ep))
    && |a.sleeps| <= maxTries
    && (forall j | 0 <= j < |a.sleeps| :: a.sleeps[j] == Sleep(backoff, j))
    && (a.requests > 0 ==> |a.sleeps| == a.requests - 1 || |a.sleeps| == a.requests == ep.deadline + 1)
    && (a.requests == 0 ==> a.sleeps == [])
  }

  class Client {
    const maxTries: nat
    const backoff: int

    constructor (maxTries: nat, backoff: int)
      ensures this.maxTries == maxTries && this.backoff == backoff
    {
      this.maxTries, this.backoff := maxTries, backoff;
    }

    /** The retry ladder. A sleep the deadline cuts short ends it. */
    method Send(ep: Endpoint) returns (status: int, ok: bool, a: Attempt)
      ensures Classify(status, ok) == LadderVerdict(maxTries, ep)
      ensures AttemptOk(maxTries, backoff, ep, a)
    {
      status, ok, a := 0, false, Attempt(0, []);
      if !ep.valid {
        return;
      }
      var wait := backoff;
      ghost var n := Limit(maxTries, ep);
      var try := 0;
      while try < maxTries
        invariant 0 <= try <= n && a == Attempt(try, a.sleeps) && !ok && !Permanent(status)
        invariant |a.sleeps| == if try == 0 then 0 else try - 1
        invariant forall j | 0 <= j < |a.sleeps| :: a.sleeps[j] == Sleep(backoff, j)
        invariant wait == Sleep(backoff, if try == 0 then 0 else try - 1)
        invariant forall j | 0 <= j < try :: !Settles(ep.reply(j))
      {
        if try > 0 {
          a := a.(sleeps := a.sleeps + [wait]);
          if try > ep.deadline {
            return;
          }
          SleepDoubles(backoff, try - 1);
          wait := wait * 2;
          if wait > BACKOFF_MAX {
            wait := BACKOFF_MAX;
          }
        }
        var r := ep.reply(try);
        a := a.(requests := try + 1);
        status := Code(r);
        if Delivered(r) {
          VerdictMeaning(maxTries, ep, try);
          ok := true;
          return;
        }
        if Permanent(status) {
          VerdictMeaning(maxTries, ep, try);
          return;
        }
        try := try + 1;
      }
    }

    /** The same payload to every endpoint; the first gates the result, and no reply of the
        others changes it. */
    method PostAll(eps: seq<Endpoint>) returns (status: int, ok: bool, seen: seq<Attempt>)
      ensures Classify(status, ok) == PostVerdict(maxTries, eps)
      ensures Classify(status, ok) == if eps == [] then Accepted else LadderVerdict(maxTries, eps[0])
      ensures |seen| == |eps| && forall i | 0 <= i < |eps| :: AttemptOk(maxTries, backoff, eps[i], seen[i])
    {
      if |eps| == 0 {
        return 0, true, [];
      }
      var first;
      status, ok, first := Send(eps[0]);
      seen := [first];
      for i := 1 to |eps|
        invariant |seen| == i
        invariant forall k | 0 <= k < i :: AttemptOk(maxTries, backoff, eps[k], seen[k])
      {
        var _, _, a := Send(eps[i]);
        seen := seen + [a];
      }
    }
  }
}
