/** `gracefullyLeaveParticipants`: the moderator removes the participants one
    by one and after each removal waits for the event counters that removal
    should produce. */
module Participants {

  datatype EventName = SessionDisconnected | ConnectionDestroyed

  /** What the harness does to the browser, in order: pressing ENTER on the
      remove-user button, or waiting for an event counter to reach a count. */
  datatype Step = PressRemoveUser | AwaitEvent(event: EventName, count: int)

  /** (n-1) + (n-2) + ... + (n-m): the connectionDestroyed events of the first
      m removals, the i-th of which is seen by the n-i participants left. */
  function Sum(n: int, m: nat): int
  {
    if m == 0 then 0 else Sum(n, m - 1) + (n - m)
  }

  /** The connectionDestroyed count awaited after the j-th removal: the last
      removal adds no event, since nobody is left to see it. */
  function DestroyedTarget(n: int, j: nat): int
  {
    Sum(n, if j < n then j else if n > 0 then n - 1 else 0)
  }

  /** The steps of the j-th round. */
  function Round(n: int, j: nat): seq<Step>
  {
    [PressRemoveUser, AwaitEvent(SessionDisconnected, j), AwaitEvent(ConnectionDestroyed, DestroyedTarget(n, j))]
  }

  /** The loop of `gracefullyLeaveParticipants`, returning the steps it takes
      instead of driving a browser. */
  method GracefullyLeaveParticipants(numberOfParticipants: int) returns (steps: seq<Step>)
    ensures numberOfParticipants <= 0 ==> steps == []
    ensures numberOfParticipants > 0 ==> |steps| == 3 * numberOfParticipants
    ensures forall j :: 1 <= j <= numberOfParticipants ==>
              steps[3 * (j - 1)..3 * j] == Round(numberOfParticipants, j)
  {
    var n := numberOfParticipants;
    var accumulated := 0;
    steps := [];
    var j := 1;
    while j <= n
      invariant 1 <= j <= if n > 0 then n + 1 else 1
      invariant |steps| == 3 * (j - 1)
      invariant accumulated == DestroyedTarget(n, j - 1)
      invariant forall i :: 1 <= i < j ==> steps[3 * (i - 1)..3 * i] == Round(n, i)
    {
      accumulated := if j != n then accumulated + n - j else accumulated;
      ghost var before := steps;
      steps := steps + [PressRemoveUser, AwaitEvent(SessionDisconnected, j), AwaitEvent(ConnectionDestroyed, accumulated)];
      forall i | 1 <= i < j ensures steps[3 * (i - 1)..3 * i] == Round(n, i) {
        assert steps[3 * (i - 1)..3 * i] == before[3 * (i - 1)..3 * i];
      }
      assert steps[3 * (j - 1)..3 * j] == Round(n, j);
      j := j + 1;
    }
  }

  /** Closed form: after j < n removals, j*n - j*(j+1)/2 connectionDestroyed
      events have been seen. */
  lemma {:induction false} SumClosedForm(n: int, m: nat)
    ensures 2 * Sum(n, m) == 2 * m * n - m * (m + 1)
  {
    if m > 0 {
      SumClosedForm(n, m - 1);
    }
  }

  /** After the last removal the count stands at n(n-1)/2: every pair of
      participants accounts for exactly one connectionDestroyed event. */
  lemma LastTarget(n: nat)
    requires n > 0
    ensures 2 * DestroyedTarget(n, n) == n * (n - 1)
    ensures DestroyedTarget(n, n) == DestroyedTarget(n, n - 1)
  {
    SumClosedForm(n, n - 1);
  }

  /** The awaited count never decreases from one round to the next. */
  lemma {:induction false} TargetMonotone(n: int, j: nat, k: nat)
    requires j <= k <= n
    ensures DestroyedTarget(n, j) <= DestroyedTarget(n, k)
    decreases k - j
  {
    if j < k {
      TargetMonotone(n, j, k - 1);
      if k < n {
        assert DestroyedTarget(n, k) == DestroyedTarget(n, k - 1) + (n - k);
      }
    }
  }
}
