/**
 * The calls a subscription-plan extension makes to its host: fetching a
 * session token (`useSessionToken().getSessionToken`) and the container's
 * `done` and `close` (`useContainer()`). Every primary action fetches one
 * token and then calls `done`; every secondary action calls `close` only.
 */
module HostContainer {

  datatype Call = GetSessionToken | Done | Close

  /** What one press of a primary action ("Add to plan", "Create plan", ...) issues. */
  const PrimaryCalls: seq<Call> := [GetSessionToken, Done]

  /** What one press of the secondary action ("Cancel") issues. */
  const SecondaryCalls: seq<Call> := [Close]

  /** Number of occurrences of `c` in the trace `t`. */
  function Count(t: seq<Call>, c: Call): nat
  {
    if t == [] then 0 else (if t[0] == c then 1 else 0) + Count(t[1..], c)
  }

  lemma {:induction false} CountAppend(a: seq<Call>, b: seq<Call>, c: Call)
    ensures Count(a + b, c) == Count(a, c) + Count(b, c)
  {
    if a == [] {
      assert a + b == b;
    } else {
      assert (a + b)[1..] == a[1..] + b;
      CountAppend(a[1..], b, c);
    }
  }

  /** A trace made of whole primary and secondary actions, one after another. */
  ghost predicate Protocol(t: seq<Call>)
    decreases |t|
  {
    t == [] ||
    (|t| >= 2 && t[|t| - 2..] == PrimaryCalls && Protocol(t[..|t| - 2])) ||
    (t[|t| - 1..] == SecondaryCalls && Protocol(t[..|t| - 1]))
  }

  lemma ProtocolAfterPrimary(t: seq<Call>)
    requires Protocol(t)
    ensures Protocol(t + PrimaryCalls)
  {
    var u := t + PrimaryCalls;
    assert u[|u| - 2..] == PrimaryCalls;
    assert u[..|u| - 2] == t;
  }

  lemma ProtocolAfterSecondary(t: seq<Call>)
    requires Protocol(t)
    ensures Protocol(t + SecondaryCalls)
  {
    var u := t + SecondaryCalls;
    assert u[|u| - 1..] == SecondaryCalls;
    assert u[..|u| - 1] == t;
  }

  /** The last action of a non-empty protocol trace, split off. */
  lemma ProtocolLast(t: seq<Call>) returns (p: seq<Call>, a: seq<Call>)
    requires Protocol(t) && t != []
    ensures t == p + a && Protocol(p) && |p| < |t|
    ensures a == PrimaryCalls || a == SecondaryCalls
  {
    var n := |t|;
    if n >= 2 && t[n - 2..] == PrimaryCalls && Protocol(t[..n - 2]) {
      p, a := t[..n - 2], PrimaryCalls;
    } else {
      p, a := t[..n - 1], SecondaryCalls;
    }
    assert t == p + a;
  }

  /** In a protocol trace, `done` is only ever called right after a token was fetched. */
  lemma {:induction false} ProtocolTokenBeforeDone(t: seq<Call>, i: int)
    requires Protocol(t)
    requires 0 <= i < |t| && t[i] == Done
    ensures 0 < i && t[i - 1] == GetSessionToken
    decreases |t|
  {
    var p, a := ProtocolLast(t);
    if i < |p| {
      assert p[i] == t[i];
      ProtocolTokenBeforeDone(p, i);
      assert p[i - 1] == t[i - 1];
    } else {
      assert t[i] == a[i - |p|] && t[i - 1] == (p + a)[i - 1];
    }
  }

  /** In a protocol trace, tokens are fetched exactly as often as `done` is called. */
  lemma {:induction false} ProtocolBalanced(t: seq<Call>)
    requires Protocol(t)
    ensures Count(t, GetSessionToken) == Count(t, Done)
    decreases |t|
  {
    if t != [] {
      var p, a := ProtocolLast(t);
      ProtocolBalanced(p);
      ActionCallCounts();
      CountAppend(p, a, GetSessionToken);
      CountAppend(p, a, Done);
    }
  }

  /** A primary action fetches exactly one token and calls `done` once, never `close`;
      a secondary action calls `close` once and nothing else. */
  lemma ActionCallCounts()
    ensures Count(PrimaryCalls, GetSessionToken) == 1 && Count(PrimaryCalls, Done) == 1
    ensures Count(PrimaryCalls, Close) == 0
    ensures Count(SecondaryCalls, Close) == 1
    ensures Count(SecondaryCalls, GetSessionToken) == 0 && Count(SecondaryCalls, Done) == 0
    ensures PrimaryCalls[0] == GetSessionToken && PrimaryCalls[|PrimaryCalls| - 1] == Done
  {
  }
}
