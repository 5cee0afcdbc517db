/** The task loop of a worker process (backend/worker/main.py): one claim at a time, an
    exception counts as finding nothing, and empty polls back off. */
module WorkerLoop {
  import opened Settings

  /** How one call of claim_and_process_one_task ends. */
  datatype Poll = FoundWork | FoundNothing | Raised

  /** In milliseconds. */
  const INITIAL_IDLE := 100
  const MAX_IDLE := 1000

  /** Polls just before number i that found nothing, back to the last one that did. */
  function IdleStreak(polls: seq<Poll>, i: nat): (n: nat)
    requires i <= |polls|
    ensures n <= i
    ensures forall j :: i - n <= j < i ==> polls[j] != FoundWork
    ensures n < i ==> polls[i - n - 1] == FoundWork
  {
    if i == 0 || polls[i - 1] == FoundWork then 0 else 1 + IdleStreak(polls, i - 1)
  }

  /** The sleep an empty poll number i asks for. */
  function IdleSleep(polls: seq<Poll>, i: nat): (d: int)
    requires i <= |polls|
    ensures d <= MAX_IDLE
  {
    Min(INITIAL_IDLE * Pow2(IdleStreak(polls, i)), MAX_IDLE)
  }

  lemma SleepAfter(polls: seq<Poll>, i: nat)
    requires i < |polls|
    ensures IdleSleep(polls, i + 1) ==
            if polls[i] == FoundWork then INITIAL_IDLE else Min(IdleSleep(polls, i) * 2, MAX_IDLE)
  {
    assert Pow2(0) == 1;
  }

  /** An empty poll sleeps 100 ms after work, and twice the previous sleep, at most a second,
      after another empty poll. */
  predicate Backs(polls: seq<Poll>, sleeps: seq<int>, i: nat)
    requires i < |sleeps| <= |polls|
  {
    sleeps[i] == if i == 0 || polls[i - 1] == FoundWork then 100 else Min(sleeps[i - 1] * 2, 1000)
  }

  /** Runs polls until the stop event is found set at the top of the loop, which is after
      `polled` of them: none at all if it was set from the start. A poll under way when the
      event is set is finished first. `sleeps[i]` is the sleep that poll i asks for, 0 for none:
      poll again at once after work, otherwise 100 ms doubled for every empty poll before it, at
      most a second. */
  method RunTaskPollLoop(polls: seq<Poll>, polled: nat) returns (sleeps: seq<int>)
    requires polled <= |polls|
    ensures |sleeps| == polled
    ensures forall i :: 0 <= i < polled ==>
                          sleeps[i] == if polls[i] == FoundWork then 0 else IdleSleep(polls, i)
    ensures forall i :: 0 <= i < polled && polls[i] != FoundWork ==> Backs(polls, sleeps, i)
  {
    var idleDelay := INITIAL_IDLE;
    sleeps := [];
    var i := 0;
    assert IdleSleep(polls, 0) == INITIAL_IDLE by { assert Pow2(0) == 1; }
    while i != polled
      invariant 0 <= i <= polled && |sleeps| == i
      invariant idleDelay == IdleSleep(polls, i)
      invariant 0 < i && polls[i - 1] != FoundWork ==> idleDelay == Min(sleeps[i - 1] * 2, 1000)
      invariant i == 0 || polls[i - 1] == FoundWork ==> idleDelay == 100
      invariant forall j :: 0 <= j < i && polls[j] != FoundWork ==> Backs(polls, sleeps, j)
      invariant forall j :: 0 <= j < i ==> sleeps[j] == if polls[j] == FoundWork then 0 else IdleSleep(polls, j)
      decreases polled - i
    {
      SleepAfter(polls, i);
      if polls[i] == FoundWork {
        idleDelay := INITIAL_IDLE;
        sleeps := sleeps + [0];
      } else {
        sleeps := sleeps + [idleDelay];
        idleDelay := Min(idleDelay * 2, MAX_IDLE);
      }
      i := i + 1;
    }
  }
}
