/** The relay client's reconnect loop: sessions follow one another with a doubling, capped wait. */
module Backoff {
  const CAP: nat := 60

  function Pow2(k: nat): nat {
    if k == 0 then 1 else 2 * Pow2(k - 1)
  }

  function Capped(n: nat): nat {
    if n > CAP then CAP else n
  }

  /** The wait after session `k`, counting from zero. */
  function WaitAfter(k: nat): nat {
    Capped(Pow2(k))
  }

  /** Doubling a capped wait and capping again is capping the doubled wait. */
  lemma WaitDoubles(k: nat)
    ensures Capped(2 * WaitAfter(k)) == WaitAfter(k + 1)
  {
  }

  /** The loop until its context is cancelled during the wait after session number `sessions`: it returns the
      waits in seconds. The wait is never reset, however long a session lasted. */
  method Start(sessions: nat) returns (waits: seq<nat>)
    ensures |waits| == sessions
    ensures forall k :: 0 <= k < sessions ==> waits[k] == WaitAfter(k)
    ensures sessions > 0 ==> waits[0] == 1
    ensures forall k :: 1 <= k < sessions ==> waits[k] == if waits[k - 1] < 30 then 2 * waits[k - 1] else 60
  {
    var backoff := 1;
    waits := [];
    assert backoff == WaitAfter(0);
    hide WaitAfter;
    while |waits| < sessions
      invariant |waits| <= sessions
      invariant backoff == WaitAfter(|waits|)
      invariant forall k :: 0 <= k < |waits| ==> waits[k] == WaitAfter(k)
      invariant if waits == [] then backoff == 1
                else waits[0] == 1 && backoff == if waits[|waits| - 1] < 30 then 2 * waits[|waits| - 1] else 60
      invariant forall k :: 1 <= k < |waits| ==> waits[k] == if waits[k - 1] < 30 then 2 * waits[k - 1] else 60
    {
      WaitDoubles(|waits|);
      waits := waits + [backoff];
      backoff := backoff * 2;
      if backoff > CAP {
        backoff := CAP;
      }
    }
  }
}
