/**
 * What `NetworkFirstPlausibleClient` does, as the sequence of observable effects it
 * produces: network calls (with their outcome), waits, and writes and deletes of files
 * in the event directory.
 *
 * The network is an oracle `answer`: the engine's network call number `k` (counting from 0
 * over the engine's lifetime) gets a 2xx response iff `answer(k)`. A call while the engine is
 * disabled is not made at all, and counts as a normal return.
 */
module Protocol {
  import opened Wrappers
  import opened Events

  /** One observable action of the engine. */
  datatype Effect =
    | Attempt(event: Event, delivered: bool)  // one network call; `delivered` is false when it threw
    | Wait(ms: int)                           // `delay(ms)`
    | Write(name: string, body: string)       // `File(eventDir, name).writeText(body)`
    | Delete(name: string)                    // `file.delete()`

  /** The waits of the retry loop, in ms: 1 s, 1 min, 6 min, then a final 10 min. */
  const Backoff: seq<int> := [1000, 60000, 360000, 600000]

  /** The `when (retryDelay)` of the retry loop: the next delay, or None for `else -> break`. */
  function NextDelay(delay: int): (r: Option<int>)
    ensures forall i | 0 <= i < 3 :: delay == Backoff[i] ==> r == Some(Backoff[i + 1])
    ensures r.None? <==> delay !in Backoff[..3]
  {
    assert Backoff[..3] == [1000, 60000, 360000];
    if delay == 1000 then Some(60000)
    else if delay == 60000 then Some(360000)
    else if delay == 360000 then Some(600000)
    else None
  }

  /** `m` copies of `e`. */
  function Repeat(e: Event, m: nat): (r: seq<Event>)
    ensures |r| == m
    ensures forall i | 0 <= i < m :: r[i] == e
  {
    if m == 0 then [] else [e] + Repeat(e, m - 1)
  }

  /** The events handed to the network, in order. */
  function Calls(t: seq<Effect>): seq<Event>
    decreases |t|
  {
    if t == [] then [] else (if t[0].Attempt? then [t[0].event] else []) + Calls(t[1..])
  }

  /** The delays waited, in order. */
  function Waits(t: seq<Effect>): seq<int>
    decreases |t|
  {
    if t == [] then [] else (if t[0].Wait? then [t[0].ms] else []) + Waits(t[1..])
  }

  /** The event directory after one effect: a write replaces the file, a delete removes it if present. */
  function ApplyEffect(dir: map<string, string>, x: Effect): map<string, string>
  {
    match x
    case Write(name, body) => dir[name := body]
    case Delete(name) => dir - {name}
    case _ => dir
  }

  /** The event directory after a sequence of effects. */
  function ApplyFiles(dir: map<string, string>, t: seq<Effect>): map<string, string>
    decreases |t|
  {
    if t == [] then dir else ApplyFiles(ApplyEffect(dir, t[0]), t[1..])
  }

  lemma {:induction false} CallsAppend(a: seq<Effect>, b: seq<Effect>)
    ensures Calls(a + b) == Calls(a) + Calls(b)
    decreases |a|
  {
    if a == [] {
      assert a + b == b;
    } else {
      assert (a + b)[0] == a[0];
      assert (a + b)[1..] == a[1..] + b;
      CallsAppend(a[1..], b);
    }
  }

  lemma {:induction false} WaitsAppend(a: seq<Effect>, b: seq<Effect>)
    ensures Waits(a + b) == Waits(a) + Waits(b)
    decreases |a|
  {
    if a == [] {
      assert a + b == b;
    } else {
      assert (a + b)[0] == a[0];
      assert (a + b)[1..] == a[1..] + b;
      WaitsAppend(a[1..], b);
    }
  }

  lemma {:induction false} ApplyFilesAppend(dir: map<string, string>, a: seq<Effect>, b: seq<Effect>)
    ensures ApplyFiles(dir, a + b) == ApplyFiles(ApplyFiles(dir, a), b)
    decreases |a|
  {
    if a == [] {
      assert a + b == b;
    } else {
      assert (a + b)[0] == a[0];
      assert (a + b)[1..] == a[1..] + b;
      ApplyFilesAppend(ApplyEffect(dir, a[0]), a[1..], b);
    }
  }

  /** Effects of a single step: the append lemmas specialised to one more effect. */
  lemma Snoc(dir: map<string, string>, t: seq<Effect>, x: Effect)
    ensures ApplyFiles(dir, t + [x]) == ApplyEffect(ApplyFiles(dir, t), x)
    ensures Calls(t + [x]) == Calls(t) + (if x.Attempt? then [x.event] else [])
    ensures Waits(t + [x]) == Waits(t) + (if x.Wait? then [x.ms] else [])
  {
    ApplyFilesAppend(dir, t, [x]);
    CallsAppend(t, [x]);
    WaitsAppend(t, [x]);
  }

  lemma One(dir: map<string, string>, x: Effect)
    ensures ApplyFiles(dir, [x]) == ApplyEffect(dir, x)
    ensures Calls([x]) == (if x.Attempt? then [x.event] else [])
    ensures Waits([x]) == (if x.Wait? then [x.ms] else [])
  {
    assert [x][1..] == [];
  }

  lemma Two(dir: map<string, string>, x: Effect, y: Effect)
    ensures ApplyFiles(dir, [x, y]) == ApplyEffect(ApplyEffect(dir, x), y)
    ensures Calls([x, y]) == (if x.Attempt? then [x.event] else []) + (if y.Attempt? then [y.event] else [])
    ensures Waits([x, y]) == (if x.Wait? then [x.ms] else []) + (if y.Wait? then [y.ms] else [])
  {
    One(dir, x);
    Snoc(dir, [x], y);
  }

  /** Appending two effects one at a time, then more, is appending them together. */
  lemma PairThen(t: seq<Effect>, x: Effect, y: Effect, tail: seq<Effect>)
    ensures (t + [x]) + [y] + tail == t + ([x, y] + tail)
  {
    assert (t + [x]) + [y] == t + [x, y];
  }

  /** A slice is its first element followed by the rest of the slice. */
  lemma SliceFirst(s: seq<int>, i: nat, k: nat)
    requires i < k <= |s|
    ensures s[i .. k] == [s[i]] + s[i + 1 .. k]
  {
  }

  // ---------------------------------------------------------------------------------------
  // suspendEvent
  // ---------------------------------------------------------------------------------------

  /**
   * The first retry, numbered `j` to 3, whose network call succeeds, retry `r` being network
   * call `n + r` (call `n` is the immediate attempt); 4 when none of them succeeds.
   */
  function FirstRetryFrom(answer: nat -> bool, n: nat, j: nat): (k: nat)
    requires 1 <= j <= 4
    ensures j <= k <= 4
    ensures k < 4 ==> answer(n + k)
    decreases 4 - j
  {
    if j == 4 || answer(n + j) then j else FirstRetryFrom(answer, n, j + 1)
  }

  /** Every retry from `j` on before the first successful one fails. */
  lemma {:induction false} FirstRetryFromIsFirst(answer: nat -> bool, n: nat, j: nat, c: nat)
    requires 1 <= j <= 4
    requires j <= c < FirstRetryFrom(answer, n, j)
    ensures !answer(n + c)
    decreases 4 - j
  {
    if c > j {
      FirstRetryFromIsFirst(answer, n, j + 1, c);
    }
  }

  /**
   * Effects of the retry loop from retry `j` on (retries 1 to `j - 1` having failed): wait
   * `Backoff[j - 1]`, try once, stop with a delete on success; after the third failed retry,
   * wait `Backoff[3]` and stop without trying.
   */
  function RetryTrace(e: Event, name: string, answer: nat -> bool, n: nat, j: nat): seq<Effect>
    requires 1 <= j <= 4
    decreases 4 - j
  {
    if j == 4 then [Wait(Backoff[3])]
    else
      [Wait(Backoff[j - 1]), Attempt(e, answer(n + j))]
      + (if answer(n + j) then [Delete(name)] else RetryTrace(e, name, answer, n, j + 1))
  }

  /**
   * Effects of `suspendEvent(e)` when its immediate attempt is network call `n`, the engine is
   * `enabled` or not, `retry` is `retryOnFailure`, and a failed event is written to file `name`
   * with contents `body`.
   */
  function SuspendTrace(e: Event, name: string, body: string, enabled: bool, retry: bool,
                        answer: nat -> bool, n: nat): seq<Effect>
  {
    if !enabled then []
    else if answer(n) then [Attempt(e, true)]
    else if !retry then [Attempt(e, false)]
    else [Attempt(e, false), Write(name, body)] + RetryTrace(e, name, answer, n, 1)
  }

  /** One retry `j < 4`: wait, one attempt, then a delete on success or the next retry. */
  lemma RetryTraceUnfold(e: Event, name: string, answer: nat -> bool, n: nat, j: nat)
    requires 1 <= j < 4
    ensures answer(n + j) ==> RetryTrace(e, name, answer, n, j) == [Wait(Backoff[j - 1]), Attempt(e, true), Delete(name)]
    ensures answer(n + j) ==> FirstRetryFrom(answer, n, j) == j
    ensures !answer(n + j) ==> RetryTrace(e, name, answer, n, j)
                               == [Wait(Backoff[j - 1]), Attempt(e, false)] + RetryTrace(e, name, answer, n, j + 1)
    ensures !answer(n + j) ==> FirstRetryFrom(answer, n, j) == FirstRetryFrom(answer, n, j + 1)
  {
  }

  /** A failed retry adds one call, one wait and no file change in front of the rest of the loop. */
  lemma FailedRetryStep(e: Event, d: int, tail: seq<Effect>, dir: map<string, string>)
    ensures Calls([Wait(d), Attempt(e, false)] + tail) == [e] + Calls(tail)
    ensures Waits([Wait(d), Attempt(e, false)] + tail) == [d] + Waits(tail)
    ensures ApplyFiles(dir, [Wait(d), Attempt(e, false)] + tail) == ApplyFiles(dir, tail)
  {
    var head := [Wait(d), Attempt(e, false)];
    Two(dir, head[0], head[1]);
    CallsAppend(head, tail);
    WaitsAppend(head, tail);
    ApplyFilesAppend(dir, head, tail);
  }

  /** A successful retry: one call, one wait, and the record removed. */
  lemma SuccessfulRetryStep(e: Event, d: int, name: string, dir: map<string, string>)
    ensures Calls([Wait(d), Attempt(e, true), Delete(name)]) == [e]
    ensures Waits([Wait(d), Attempt(e, true), Delete(name)]) == [d]
    ensures ApplyFiles(dir, [Wait(d), Attempt(e, true), Delete(name)]) == dir - {name}
  {
    Two(dir, Wait(d), Attempt(e, true));
    Snoc(dir, [Wait(d), Attempt(e, true)], Delete(name));
  }

  /** The number of calls the retry loop makes from retry `j` on: one per retry up to the first success. */
  function RetryCallCount(answer: nat -> bool, n: nat, j: nat): nat
    requires 1 <= j <= 4
  {
    var k := FirstRetryFrom(answer, n, j);
    (if k < 4 then k else 3) - j + 1
  }

  /** The calls of a retry `j < 4`: its own call in front of those of the rest of the loop. */
  lemma RetryCallsStep(e: Event, name: string, answer: nat -> bool, n: nat, j: nat)
    requires 1 <= j < 4
    requires !answer(n + j) ==> Calls(RetryTrace(e, name, answer, n, j + 1))
                                == Repeat(e, RetryCallCount(answer, n, j + 1))
    ensures Calls(RetryTrace(e, name, answer, n, j)) == Repeat(e, RetryCallCount(answer, n, j))
  {
    RetryTraceUnfold(e, name, answer, n, j);
    if answer(n + j) {
      SuccessfulRetryStep(e, Backoff[j - 1], name, map[]);
      assert Repeat(e, 1) == [e];
    } else {
      FailedRetryStep(e, Backoff[j - 1], RetryTrace(e, name, answer, n, j + 1), map[]);
      var m := RetryCallCount(answer, n, j + 1);
      assert Repeat(e, m + 1) == [e] + Repeat(e, m);
    }
  }

  /**
   * The retry loop from retry `j` on calls the network once per retry `j..min(k, 3)`, `k` being
   * the first successful retry (4 if none), always with the same event.
   */
  lemma {:induction false} RetryTraceCalls(e: Event, name: string, answer: nat -> bool, n: nat, j: nat)
    requires 1 <= j <= 4
    ensures Calls(RetryTrace(e, name, answer, n, j)) == Repeat(e, RetryCallCount(answer, n, j))
    decreases 4 - j
  {
    if j == 4 {
      One(map[], Wait(Backoff[3]));
    } else {
      if !answer(n + j) {
        RetryTraceCalls(e, name, answer, n, j + 1);
      }
      RetryCallsStep(e, name, answer, n, j);
    }
  }

  /** The waits of a retry `j < 4`: its own wait in front of those of the rest of the loop. */
  lemma RetryWaitsStep(e: Event, name: string, answer: nat -> bool, n: nat, j: nat)
    requires 1 <= j < 4
    requires !answer(n + j) ==> Waits(RetryTrace(e, name, answer, n, j + 1))
                                == Backoff[j .. FirstRetryFrom(answer, n, j + 1)]
    ensures Waits(RetryTrace(e, name, answer, n, j)) == Backoff[j - 1 .. FirstRetryFrom(answer, n, j)]
  {
    RetryTraceUnfold(e, name, answer, n, j);
    var k := FirstRetryFrom(answer, n, j);
    if answer(n + j) {
      SuccessfulRetryStep(e, Backoff[j - 1], name, map[]);
    } else {
      FailedRetryStep(e, Backoff[j - 1], RetryTrace(e, name, answer, n, j + 1), map[]);
    }
    SliceFirst(Backoff, j - 1, k);
  }

  /** The retry loop from retry `j` on waits exactly `Backoff[j - 1 .. k]`, `k` as above. */
  lemma {:induction false} RetryTraceWaits(e: Event, name: string, answer: nat -> bool, n: nat, j: nat)
    requires 1 <= j <= 4
    ensures Waits(RetryTrace(e, name, answer, n, j)) == Backoff[j - 1 .. FirstRetryFrom(answer, n, j)]
    decreases 4 - j
  {
    if j == 4 {
      One(map[], Wait(Backoff[3]));
      SliceFirst(Backoff, 3, 4);
    } else {
      if !answer(n + j) {
        RetryTraceWaits(e, name, answer, n, j + 1);
      }
      RetryWaitsStep(e, name, answer, n, j);
    }
  }

  /** The retry loop from retry `j` on removes the record iff some retry succeeds. */
  lemma {:induction false} RetryTraceFiles(e: Event, name: string, answer: nat -> bool, n: nat, j: nat,
                                           dir: map<string, string>)
    requires 1 <= j <= 4
    ensures ApplyFiles(dir, RetryTrace(e, name, answer, n, j))
            == if FirstRetryFrom(answer, n, j) < 4 then dir - {name} else dir
    decreases 4 - j
  {
    if j == 4 {
      One(dir, Wait(Backoff[3]));
    } else {
      RetryTraceUnfold(e, name, answer, n, j);
      if answer(n + j) {
        SuccessfulRetryStep(e, Backoff[j - 1], name, dir);
      } else {
        FailedRetryStep(e, Backoff[j - 1], RetryTrace(e, name, answer, n, j + 1), dir);
        RetryTraceFiles(e, name, answer, n, j + 1, dir);
      }
    }
  }

  /** The last effect of a retry `j < 4` is the delete, or the last effect of the rest of the loop. */
  lemma RetryLastStep(e: Event, name: string, answer: nat -> bool, n: nat, j: nat)
    requires 1 <= j < 4
    requires !answer(n + j) ==> var t := RetryTrace(e, name, answer, n, j + 1);
                                t[|t| - 1] == if FirstRetryFrom(answer, n, j + 1) < 4 then Delete(name) else Wait(Backoff[3])
    ensures var t := RetryTrace(e, name, answer, n, j);
            t[|t| - 1] == if FirstRetryFrom(answer, n, j) < 4 then Delete(name) else Wait(Backoff[3])
  {
    RetryTraceUnfold(e, name, answer, n, j);
    if !answer(n + j) {
      var tail := RetryTrace(e, name, answer, n, j + 1);
      assert ([Wait(Backoff[j - 1]), Attempt(e, false)] + tail)[|tail| + 1] == tail[|tail| - 1];
    }
  }

  /**
   * The last effect of the retry loop is the delete after the first successful retry, or the
   * final wait when no retry succeeds.
   */
  lemma {:induction false} RetryTraceLast(e: Event, name: string, answer: nat -> bool, n: nat, j: nat)
    requires 1 <= j <= 4
    ensures var t := RetryTrace(e, name, answer, n, j);
            t[|t| - 1] == if FirstRetryFrom(answer, n, j) < 4 then Delete(name) else Wait(Backoff[3])
    decreases 4 - j
  {
    if j < 4 {
      if !answer(n + j) {
        RetryTraceLast(e, name, answer, n, j + 1);
      }
      RetryLastStep(e, name, answer, n, j);
    }
  }

  /** A retry `j < 4` writes nothing itself. */
  lemma RetryWritesNothingStep(e: Event, name: string, answer: nat -> bool, n: nat, j: nat)
    requires 1 <= j < 4
    requires !answer(n + j) ==> var t := RetryTrace(e, name, answer, n, j + 1);
                                forall i | 0 <= i < |t| :: !t[i].Write?
    ensures var t := RetryTrace(e, name, answer, n, j);
            forall i | 0 <= i < |t| :: !t[i].Write?
  {
    RetryTraceUnfold(e, name, answer, n, j);
    if !answer(n + j) {
      var tail := RetryTrace(e, name, answer, n, j + 1);
      var t := [Wait(Backoff[j - 1]), Attempt(e, false)] + tail;
      forall i | 2 <= i < |t| ensures !t[i].Write? {
        assert t[i] == tail[i - 2];
      }
    }
  }

  /** The retry loop writes no file. */
  lemma {:induction false} RetryTraceWritesNothing(e: Event, name: string, answer: nat -> bool, n: nat, j: nat)
    requires 1 <= j <= 4
    ensures var t := RetryTrace(e, name, answer, n, j);
            forall i | 0 <= i < |t| :: !t[i].Write?
    decreases 4 - j
  {
    if j < 4 {
      if !answer(n + j) {
        RetryTraceWritesNothing(e, name, answer, n, j + 1);
      }
      RetryWritesNothingStep(e, name, answer, n, j);
    }
  }

  /**
   * No retry loop is entered when the engine is disabled (nothing happens: the gate counts as
   * success), when the immediate attempt succeeds, or when it fails with retries switched off;
   * in each case the event directory is untouched.
   */
  lemma SuspendWithoutRetry(e: Event, name: string, body: string, enabled: bool, retry: bool,
                            answer: nat -> bool, n: nat, dir: map<string, string>)
    requires !enabled || answer(n) || !retry
    ensures var t := SuspendTrace(e, name, body, enabled, retry, answer, n);
            && t == (if !enabled then [] else [Attempt(e, answer(n))])
            && ApplyFiles(dir, t) == dir
  {
    var t := SuspendTrace(e, name, body, enabled, retry, answer, n);
    assert enabled ==> t[1..] == [];
  }

  /** A failed immediate attempt with retries on: one call, the record written, then the retry loop. */
  lemma SuspendIntoRetry(e: Event, name: string, body: string, answer: nat -> bool, n: nat,
                         dir: map<string, string>)
    requires !answer(n)
    ensures var t := SuspendTrace(e, name, body, true, true, answer, n);
            var tail := RetryTrace(e, name, answer, n, 1);
            && t == [Attempt(e, false), Write(name, body)] + tail
            && Calls(t) == [e] + Calls(tail)
            && Waits(t) == Waits(tail)
            && ApplyFiles(dir, t) == ApplyFiles(dir[name := body], tail)
  {
    var head := [Attempt(e, false), Write(name, body)];
    var tail := RetryTrace(e, name, answer, n, 1);
    Two(dir, head[0], head[1]);
    CallsAppend(head, tail);
    WaitsAppend(head, tail);
    ApplyFilesAppend(dir, head, tail);
  }

  /**
   * Whatever the network answers, one `suspendEvent` makes at most 4 network calls, all
   * with the same event, and its waits are a prefix of 1000, 60000, 360000, 600000 ms.
   */
  lemma SuspendBounded(e: Event, name: string, body: string, enabled: bool, retry: bool,
                       answer: nat -> bool, n: nat)
    ensures var t := SuspendTrace(e, name, body, enabled, retry, answer, n);
            && |Calls(t)| <= 4
            && (forall i | 0 <= i < |Calls(t)| :: Calls(t)[i] == e)
            && |Waits(t)| <= 4
            && Waits(t) == Backoff[..|Waits(t)|]
  {
    if !enabled || answer(n) || !retry {
      SuspendWithoutRetry(e, name, body, enabled, retry, answer, n, map[]);
      if enabled {
        One(map[], Attempt(e, answer(n)));
      }
    } else {
      var k := FirstRetryFrom(answer, n, 1);
      SuspendIntoRetry(e, name, body, answer, n, map[]);
      RetryTraceCalls(e, name, answer, n, 1);
      RetryTraceWaits(e, name, answer, n, 1);
      assert Backoff[0 .. k] == Backoff[..k];
      var m := RetryCallCount(answer, n, 1);
      assert Repeat(e, m + 1) == [e] + Repeat(e, m);
    }
  }

  /**
   * A failed immediate attempt with retries on writes exactly one record, holding the
   * serialised event, right after that attempt and so before any wait.
   */
  lemma RecordWrittenBeforeWaits(e: Event, name: string, body: string, answer: nat -> bool, n: nat)
    requires !answer(n)
    ensures var t := SuspendTrace(e, name, body, true, true, answer, n);
            && t[0] == Attempt(e, false)
            && t[1] == Write(name, body)
            && (forall i | 0 <= i < |t| && t[i].Write? :: i == 1)
  {
    SuspendIntoRetry(e, name, body, answer, n, map[]);
    var t := SuspendTrace(e, name, body, true, true, answer, n);
    var tail := RetryTrace(e, name, answer, n, 1);
    RetryTraceWritesNothing(e, name, answer, n, 1);
    forall i | 2 <= i < |t| ensures !t[i].Write? {
      assert t[i] == tail[i - 2];
    }
  }

  /**
   * The first retry that succeeds, retry `k`, ends the loop: `k + 1` calls in all, the waits
   * are the first `k` of the schedule, and the record is deleted as the very last effect.
   */
  lemma FirstSuccessfulRetryEnds(e: Event, name: string, body: string, answer: nat -> bool, n: nat,
                                 dir: map<string, string>)
    requires !answer(n)
    requires FirstRetryFrom(answer, n, 1) < 4
    ensures var t := SuspendTrace(e, name, body, true, true, answer, n);
            var k := FirstRetryFrom(answer, n, 1);
            && Calls(t) == Repeat(e, k + 1)
            && Waits(t) == Backoff[..k]
            && ApplyFiles(dir, t) == dir - {name}
            && t[|t| - 1] == Delete(name)
  {
    var k := FirstRetryFrom(answer, n, 1);
    var tail := RetryTrace(e, name, answer, n, 1);
    SuspendIntoRetry(e, name, body, answer, n, dir);
    RetryTraceCalls(e, name, answer, n, 1);
    RetryTraceWaits(e, name, answer, n, 1);
    RetryTraceFiles(e, name, answer, n, 1, dir[name := body]);
    RetryTraceLast(e, name, answer, n, 1);
    assert Backoff[0 .. k] == Backoff[..k];
    assert Repeat(e, k + 1) == [e] + Repeat(e, k);
    assert dir[name := body] - {name} == dir - {name};
    assert ([Attempt(e, false), Write(name, body)] + tail)[|tail| + 1] == tail[|tail| - 1];
  }

  /**
   * When the immediate attempt and all three retries fail: exactly 4 calls, all four waits
   * (the last one, 600000 ms, is not followed by a call), and the record is still there.
   */
  lemma ExhaustedRetriesKeepRecord(e: Event, name: string, body: string, answer: nat -> bool, n: nat,
                                   dir: map<string, string>)
    requires forall c | n <= c < n + 4 :: !answer(c)
    ensures var t := SuspendTrace(e, name, body, true, true, answer, n);
            && Calls(t) == Repeat(e, 4)
            && Waits(t) == Backoff
            && ApplyFiles(dir, t) == dir[name := body]
            && t[|t| - 1] == Wait(600000)
  {
    var tail := RetryTrace(e, name, answer, n, 1);
    assert !answer(n) && !answer(n + 1) && !answer(n + 2) && !answer(n + 3);
    assert FirstRetryFrom(answer, n, 1) == 4;
    SuspendIntoRetry(e, name, body, answer, n, dir);
    RetryTraceCalls(e, name, answer, n, 1);
    RetryTraceWaits(e, name, answer, n, 1);
    RetryTraceFiles(e, name, answer, n, 1, dir[name := body]);
    RetryTraceLast(e, name, answer, n, 1);
    assert Backoff[0 .. 4] == Backoff;
    assert Repeat(e, 4) == [e] + Repeat(e, 3);
    assert ([Attempt(e, false), Write(name, body)] + tail)[|tail| + 1] == tail[|tail| - 1];
  }

  /** One failure then success: 2 calls, one wait of 1 s, the record written and then deleted. */
  lemma FailOnceThenSucceed(e: Event, name: string, body: string, answer: nat -> bool, n: nat,
                            dir: map<string, string>)
    requires !answer(n) && answer(n + 1)
    ensures var t := SuspendTrace(e, name, body, true, true, answer, n);
            && t == [Attempt(e, false), Write(name, body), Wait(1000), Attempt(e, true), Delete(name)]
            && |Calls(t)| == 2
            && ApplyFiles(dir, t) == dir - {name}
  {
    FirstSuccessfulRetryEnds(e, name, body, answer, n, dir);
  }

  /** A failed retry `a + 1` of the loop, as the loop records it: one wait, one failed attempt. */
  lemma RetryIterationFails(e: Event, name: string, answer: nat -> bool, n: nat, a: nat, t: seq<Effect>)
    requires a < 3 && !answer(n + a + 1)
    ensures (t + [Wait(Backoff[a])]) + [Attempt(e, false)] + RetryTrace(e, name, answer, n, a + 2)
            == t + RetryTrace(e, name, answer, n, a + 1)
    ensures FirstRetryFrom(answer, n, a + 2) == FirstRetryFrom(answer, n, a + 1)
  {
    RetryTraceUnfold(e, name, answer, n, a + 1);
    PairThen(t, Wait(Backoff[a]), Attempt(e, false), RetryTrace(e, name, answer, n, a + 2));
  }

  /** A successful retry `a + 1` of the loop, as the loop records it: wait, attempt, delete. */
  lemma RetryIterationSucceeds(e: Event, name: string, answer: nat -> bool, n: nat, a: nat, t: seq<Effect>)
    requires a < 3 && answer(n + a + 1)
    ensures (t + [Wait(Backoff[a])]) + [Attempt(e, true)] + [Delete(name)] == t + RetryTrace(e, name, answer, n, a + 1)
    ensures FirstRetryFrom(answer, n, a + 1) == a + 1
  {
    RetryTraceUnfold(e, name, answer, n, a + 1);
    assert (t + [Wait(Backoff[a])]) + [Attempt(e, true)] + [Delete(name)]
           == t + [Wait(Backoff[a]), Attempt(e, true), Delete(name)];
  }

  /** The final wait of the loop, after the third failed retry. */
  lemma RetryFinalWait(e: Event, name: string, answer: nat -> bool, n: nat, t: seq<Effect>)
    ensures t + [Wait(Backoff[3])] == t + RetryTrace(e, name, answer, n, 4)
    ensures FirstRetryFrom(answer, n, 4) == 4
  {
  }

  /** `suspendEvent` as the engine performs it: the failed attempt and the write, then the retry loop. */
  lemma SuspendRetrySplit(e: Event, name: string, body: string, answer: nat -> bool, n: nat, t: seq<Effect>)
    requires !answer(n)
    ensures (t + [Attempt(e, false)]) + [Write(name, body)] + RetryTrace(e, name, answer, n, 1)
            == t + SuspendTrace(e, name, body, true, true, answer, n)
  {
    var tail := RetryTrace(e, name, answer, n, 1);
    assert SuspendTrace(e, name, body, true, true, answer, n) == [Attempt(e, false), Write(name, body)] + tail;
    PairThen(t, Attempt(e, false), Write(name, body), tail);
  }

  /**
   * The directory after a `suspendEvent` that enters the retry loop: the record written and,
   * iff a retry succeeds, deleted again.
   */
  lemma SuspendRetryFiles(e: Event, name: string, body: string, answer: nat -> bool, n: nat,
                          dir: map<string, string>)
    requires !answer(n)
    ensures ApplyFiles(dir, SuspendTrace(e, name, body, true, true, answer, n))
            == if FirstRetryFrom(answer, n, 1) < 4 then dir[name := body] - {name} else dir[name := body]
  {
    SuspendIntoRetry(e, name, body, answer, n, dir);
    RetryTraceFiles(e, name, answer, n, 1, dir[name := body]);
  }

  // ---------------------------------------------------------------------------------------
  // Startup replay
  // ---------------------------------------------------------------------------------------

  /** `listing` names every file of `dir` exactly once (what `listFiles()` returns). */
  predicate ListsDirectory(listing: seq<string>, dir: map<string, string>) {
    && (forall i, j | 0 <= i < j < |listing| :: listing[i] != listing[j])
    && (forall f | f in listing :: f in dir)
    && (forall f | f in dir :: f in listing)
  }

  /** The contents of file `f` of `dir` (`readText()`); "" for a file that is not there. */
  function Content(dir: map<string, string>, f: string): string {
    if f in dir then dir[f] else ""
  }

  /**
   * Effects of replaying the file `f` with contents `content`: an undecodable record is
   * deleted; a decodable one is posted once and deleted unless the post threw (a disabled
   * engine posts nothing and returns normally, so the record is deleted).
   */
  function ReplayFile(f: string, content: string, decode: string -> Option<Event>, enabled: bool,
                      ok: bool): seq<Effect>
  {
    match decode(content)
    case None => [Delete(f)]
    case Some(e) =>
      if !enabled then [Delete(f)]
      else [Attempt(e, ok)] + (if ok then [Delete(f)] else [])
  }

  /**
   * Effects of replaying the files of `listing` in that order, the first network call being
   * call `n`. Each decodable record makes one call (when enabled), so the call of a record is
   * call `n` plus the number of decodable records listed before it.
   */
  function ReplayTrace(listing: seq<string>, dir: map<string, string>, decode: string -> Option<Event>,
                       enabled: bool, answer: nat -> bool, n: nat): seq<Effect>
    decreases |listing|
  {
    if listing == [] then []
    else
      var p := listing[..|listing| - 1];
      var f := listing[|listing| - 1];
      ReplayTrace(p, dir, decode, enabled, answer, n)
      + ReplayFile(f, Content(dir, f), decode, enabled, answer(n + |Decoded(p, dir, decode)|))
  }

  /** The events that decode, from the files of `listing`, in that order. */
  function Decoded(listing: seq<string>, dir: map<string, string>, decode: string -> Option<Event>): seq<Event>
    decreases |listing|
  {
    if listing == [] then []
    else
      var f := listing[|listing| - 1];
      Decoded(listing[..|listing| - 1], dir, decode) + (match decode(Content(dir, f)) case None => [] case Some(e) => [e])
  }

  lemma ReplayFileCalls(f: string, content: string, decode: string -> Option<Event>, enabled: bool, ok: bool)
    ensures Calls(ReplayFile(f, content, decode, enabled, ok))
            == (if enabled && decode(content).Some? then [decode(content).value] else [])
  {
    var t := ReplayFile(f, content, decode, enabled, ok);
    if |t| == 1 { One(map[], t[0]); } else { Two(map[], t[0], t[1]); }
  }

  /** Replaying one more listed file: the effects so far, then that file's. */
  lemma ReplayTraceSnoc(listing: seq<string>, dir: map<string, string>, decode: string -> Option<Event>,
                        enabled: bool, answer: nat -> bool, n: nat)
    requires listing != []
    ensures var before := ReplayTrace(listing[..|listing| - 1], dir, decode, enabled, answer, n);
            var f := listing[|listing| - 1];
            ReplayTrace(listing, dir, decode, enabled, answer, n)
            == before + ReplayFile(f, Content(dir, f), decode, enabled,
                                   answer(n + |Decoded(listing[..|listing| - 1], dir, decode)|))
  {
  }

  /** One more listed file adds its own call, if any, after those of the files before it. */
  lemma ReplayCallsStep(listing: seq<string>, dir: map<string, string>, decode: string -> Option<Event>,
                        enabled: bool, answer: nat -> bool, n: nat)
    requires listing != []
    requires Calls(ReplayTrace(listing[..|listing| - 1], dir, decode, enabled, answer, n))
             == (if enabled then Decoded(listing[..|listing| - 1], dir, decode) else [])
    ensures Calls(ReplayTrace(listing, dir, decode, enabled, answer, n))
            == (if enabled then Decoded(listing, dir, decode) else [])
  {
    var p := listing[..|listing| - 1];
    var f := listing[|listing| - 1];
    var before := ReplayTrace(p, dir, decode, enabled, answer, n);
    var ok := answer(n + |Decoded(p, dir, decode)|);
    var last := ReplayFile(f, Content(dir, f), decode, enabled, ok);
    var whole := ReplayTrace(listing, dir, decode, enabled, answer, n);
    ReplayTraceSnoc(listing, dir, decode, enabled, answer, n);
    assert whole == before + last;
    CallsAppend(before, last);
    assert Calls(whole) == Calls(before) + Calls(last);
    ReplayFileCalls(f, Content(dir, f), decode, enabled, ok);
    if enabled {
      var own := if decode(Content(dir, f)).Some? then [decode(Content(dir, f)).value] else [];
      assert Calls(last) == own;
      assert Decoded(listing, dir, decode) == Decoded(p, dir, decode) + own;
    } else {
      assert Calls(before) == [] && Calls(last) == [];
      assert Calls(whole) == [];
    }
  }

  /**
   * Replay makes exactly one network call per decodable record, in listing order, and none
   * for an undecodable record or while the engine is disabled.
   */
  lemma {:induction false} ReplayCallsOncePerRecord(listing: seq<string>, dir: map<string, string>,
                                                    decode: string -> Option<Event>, enabled: bool,
                                                    answer: nat -> bool, n: nat)
    ensures Calls(ReplayTrace(listing, dir, decode, enabled, answer, n))
            == (if enabled then Decoded(listing, dir, decode) else [])
    decreases |listing|
  {
    if listing != [] {
      ReplayCallsOncePerRecord(listing[..|listing| - 1], dir, decode, enabled, answer, n);
      ReplayCallsStep(listing, dir, decode, enabled, answer, n);
    }
  }

  lemma ReplayFileFiles(f: string, content: string, decode: string -> Option<Event>, enabled: bool, ok: bool,
                        dir: map<string, string>)
    ensures ApplyFiles(dir, ReplayFile(f, content, decode, enabled, ok))
            == (if decode(content).Some? && enabled && !ok then dir else dir - {f})
  {
    var t := ReplayFile(f, content, decode, enabled, ok);
    if |t| == 1 { One(dir, t[0]); } else { Two(dir, t[0], t[1]); }
  }

  /** Replay so far only deleted files of `listing` from `start`, leaving the others' contents alone. */
  ghost predicate OnlyDeletesListed(start: map<string, string>, d: map<string, string>, listing: seq<string>) {
    && d.Keys <= start.Keys
    && (forall f | f in d :: d[f] == start[f])
    && (forall f | f in start && f !in listing :: f in d)
  }

  /** One more listed file keeps `OnlyDeletesListed`. */
  lemma OnlyDeletesStep(listing: seq<string>, dir: map<string, string>, decode: string -> Option<Event>,
                        enabled: bool, answer: nat -> bool, n: nat, start: map<string, string>)
    requires listing != []
    requires OnlyDeletesListed(start, ApplyFiles(start, ReplayTrace(listing[..|listing| - 1], dir, decode,
                                                                    enabled, answer, n)),
                               listing[..|listing| - 1])
    ensures OnlyDeletesListed(start, ApplyFiles(start, ReplayTrace(listing, dir, decode, enabled, answer, n)),
                              listing)
  {
    var p := listing[..|listing| - 1];
    var f := listing[|listing| - 1];
    var before := ReplayTrace(p, dir, decode, enabled, answer, n);
    var ok := answer(n + |Decoded(p, dir, decode)|);
    var d0 := ApplyFiles(start, before);
    ApplyFilesAppend(start, before, ReplayFile(f, Content(dir, f), decode, enabled, ok));
    ReplayFileFiles(f, Content(dir, f), decode, enabled, ok, d0);
    assert listing == p + [f];
    DeletingListedFile(start, d0, ApplyFiles(start, ReplayTrace(listing, dir, decode, enabled, answer, n)), p, f);
  }

  /** Keeping a file or deleting the next listed one keeps `OnlyDeletesListed`. */
  lemma DeletingListedFile(start: map<string, string>, d0: map<string, string>, d: map<string, string>,
                           p: seq<string>, f: string)
    requires OnlyDeletesListed(start, d0, p)
    requires d == d0 || d == d0 - {f}
    ensures OnlyDeletesListed(start, d, p + [f])
  {
  }

  /**
   * Replay only ever deletes, and only files it lists: every file left has its old contents,
   * and a file not in `listing` is left alone.
   */
  lemma {:induction false} ReplayOnlyDeletesListed(listing: seq<string>, dir: map<string, string>,
                                                   decode: string -> Option<Event>, enabled: bool,
                                                   answer: nat -> bool, n: nat, start: map<string, string>)
    ensures var d := ApplyFiles(start, ReplayTrace(listing, dir, decode, enabled, answer, n));
            && d.Keys <= start.Keys
            && (forall f | f in d :: d[f] == start[f])
            && (forall f | f in start && f !in listing :: f in d)
    decreases |listing|
  {
    if listing != [] {
      ReplayOnlyDeletesListed(listing[..|listing| - 1], dir, decode, enabled, answer, n, start);
      OnlyDeletesStep(listing, dir, decode, enabled, answer, n, start);
    }
  }

  /** One more listed file: the directory after it is the directory before it, less that file unless it stays. */
  lemma ReplayStepFiles(listing: seq<string>, dir: map<string, string>, decode: string -> Option<Event>,
                        enabled: bool, answer: nat -> bool, n: nat)
    requires listing != []
    ensures var p := listing[..|listing| - 1];
            var g := listing[|listing| - 1];
            var before := ReplayTrace(p, dir, decode, enabled, answer, n);
            var stays := decode(Content(dir, g)).Some? && enabled && !answer(n + |Decoded(p, dir, decode)|);
            var d0 := ApplyFiles(dir, before);
            ApplyFiles(dir, ReplayTrace(listing, dir, decode, enabled, answer, n)) == (if stays then d0 else d0 - {g})
  {
    var p := listing[..|listing| - 1];
    var g := listing[|listing| - 1];
    var before := ReplayTrace(p, dir, decode, enabled, answer, n);
    var ok := answer(n + |Decoded(p, dir, decode)|);
    ApplyFilesAppend(dir, before, ReplayFile(g, Content(dir, g), decode, enabled, ok));
    ReplayFileFiles(g, Content(dir, g), decode, enabled, ok, ApplyFiles(dir, before));
  }

  /**
   * Replay after the first `i` listed files, as the engine performs it: file `i` is still there
   * with its old contents, its call is the next one, and replaying it extends the trace.
   */
  lemma ReplayNext(listing: seq<string>, dir: map<string, string>, decode: string -> Option<Event>,
                   enabled: bool, answer: nat -> bool, i: nat, trace: seq<Effect>)
    requires ListsDirectory(listing, dir)
    requires i < |listing|
    requires trace == ReplayTrace(listing[..i], dir, decode, enabled, answer, 0)
    ensures var f := listing[i];
            var files := ApplyFiles(dir, trace);
            && f in files
            && var step := ReplayFile(f, files[f], decode, enabled, answer(|Calls(trace)|));
               && trace + step == ReplayTrace(listing[..i + 1], dir, decode, enabled, answer, 0)
               && ApplyFiles(files, step) == ApplyFiles(dir, trace + step)
  {
    var f := listing[i];
    var files := ApplyFiles(dir, trace);
    ReplayNextFile(listing, dir, decode, enabled, answer, i, trace);
    ReplayNextTrace(listing, dir, decode, enabled, answer, i, trace);
    ApplyFilesAppend(dir, trace, ReplayFile(f, files[f], decode, enabled, answer(|Calls(trace)|)));
  }

  /** After the first `i` listed files, file `i` is still there with its old contents. */
  lemma ReplayNextFile(listing: seq<string>, dir: map<string, string>, decode: string -> Option<Event>,
                       enabled: bool, answer: nat -> bool, i: nat, trace: seq<Effect>)
    requires ListsDirectory(listing, dir)
    requires i < |listing|
    requires trace == ReplayTrace(listing[..i], dir, decode, enabled, answer, 0)
    ensures listing[i] in ApplyFiles(dir, trace)
    ensures ApplyFiles(dir, trace)[listing[i]] == Content(dir, listing[i])
  {
    ReplayOnlyDeletesListed(listing[..i], dir, decode, enabled, answer, 0, dir);
    assert listing[i] !in listing[..i];
  }

  /** After the first `i` listed files, replaying file `i` with the next call extends the replay trace. */
  lemma ReplayNextTrace(listing: seq<string>, dir: map<string, string>, decode: string -> Option<Event>,
                        enabled: bool, answer: nat -> bool, i: nat, trace: seq<Effect>)
    requires i < |listing|
    requires trace == ReplayTrace(listing[..i], dir, decode, enabled, answer, 0)
    ensures var f := listing[i];
            trace + ReplayFile(f, Content(dir, f), decode, enabled, answer(|Calls(trace)|))
            == ReplayTrace(listing[..i + 1], dir, decode, enabled, answer, 0)
  {
    var p := listing[..i];
    assert listing[..i + 1][..i] == p;
    ReplayTraceSnoc(listing[..i + 1], dir, decode, enabled, answer, 0);
    ReplayCallsOncePerRecord(p, dir, decode, enabled, answer, 0);
  }

  /**
   * The fate of record `f`, whose network call is call `n + calls`, in directory `d`: it is
   * there iff it decodes, the engine is enabled and that call threw; if so it is unchanged.
   */
  ghost predicate RecordFate(f: string, calls: nat, dir: map<string, string>, decode: string -> Option<Event>,
                             enabled: bool, answer: nat -> bool, n: nat, d: map<string, string>)
  {
    && (f in d <==> decode(Content(dir, f)).Some? && enabled && !answer(n + calls))
    && (f in d ==> d[f] == Content(dir, f))
  }

  /**
   * The fate of each listed record on replay: it survives iff it decodes, the engine is
   * enabled, and its one network call (call `n` plus the number of decodable records listed
   * before it) threw; a surviving record is unchanged.
   */
  lemma {:induction false} ReplayRecordFate(listing: seq<string>, dir: map<string, string>,
                                            decode: string -> Option<Event>, enabled: bool,
                                            answer: nat -> bool, n: nat, i: nat)
    requires forall a, b | 0 <= a < b < |listing| :: listing[a] != listing[b]
    requires forall f | f in listing :: f in dir
    requires i < |listing|
    ensures RecordFate(listing[i], |Decoded(listing[..i], dir, decode)|, dir, decode, enabled, answer, n,
                       ApplyFiles(dir, ReplayTrace(listing, dir, decode, enabled, answer, n)))
    decreases |listing|
  {
    if i == |listing| - 1 {
      ReplayLastRecordFate(listing, dir, decode, enabled, answer, n);
    } else {
      var p := listing[..|listing| - 1];
      ReplayRecordFate(p, dir, decode, enabled, answer, n, i);
      ReplayEarlierRecordFate(listing, dir, decode, enabled, answer, n, i);
    }
  }

  /** A record's fate is not changed by replaying the records listed after it. */
  lemma ReplayEarlierRecordFate(listing: seq<string>, dir: map<string, string>,
                                decode: string -> Option<Event>, enabled: bool,
                                answer: nat -> bool, n: nat, i: nat)
    requires forall a, b | 0 <= a < b < |listing| :: listing[a] != listing[b]
    requires i < |listing| - 1
    requires var p := listing[..|listing| - 1];
             RecordFate(p[i], |Decoded(p[..i], dir, decode)|, dir, decode, enabled, answer, n,
                        ApplyFiles(dir, ReplayTrace(p, dir, decode, enabled, answer, n)))
    ensures RecordFate(listing[i], |Decoded(listing[..i], dir, decode)|, dir, decode, enabled, answer, n,
                       ApplyFiles(dir, ReplayTrace(listing, dir, decode, enabled, answer, n)))
  {
    var p := listing[..|listing| - 1];
    assert p[i] == listing[i] && p[..i] == listing[..i];
    ReplayStepFiles(listing, dir, decode, enabled, answer, n);
    FateKeptByOtherDelete(listing[i], |Decoded(listing[..i], dir, decode)|, dir, decode, enabled, answer, n,
                          ApplyFiles(dir, ReplayTrace(p, dir, decode, enabled, answer, n)),
                          ApplyFiles(dir, ReplayTrace(listing, dir, decode, enabled, answer, n)),
                          listing[|listing| - 1]);
  }

  /** Deleting some other file, or nothing, does not change a record's fate. */
  lemma FateKeptByOtherDelete(f: string, calls: nat, dir: map<string, string>, decode: string -> Option<Event>,
                              enabled: bool, answer: nat -> bool, n: nat,
                              d0: map<string, string>, d: map<string, string>, g: string)
    requires f != g
    requires d == d0 || d == d0 - {g}
    requires RecordFate(f, calls, dir, decode, enabled, answer, n, d0)
    ensures RecordFate(f, calls, dir, decode, enabled, answer, n, d)
  {
  }

  /** The last listed record's fate (the case of `ReplayRecordFate` that ends the induction). */
  lemma ReplayLastRecordFate(listing: seq<string>, dir: map<string, string>,
                             decode: string -> Option<Event>, enabled: bool,
                             answer: nat -> bool, n: nat)
    requires forall a, b | 0 <= a < b < |listing| :: listing[a] != listing[b]
    requires forall f | f in listing :: f in dir
    requires listing != []
    ensures var p := listing[..|listing| - 1];
            RecordFate(listing[|listing| - 1], |Decoded(p, dir, decode)|, dir, decode, enabled, answer, n,
                       ApplyFiles(dir, ReplayTrace(listing, dir, decode, enabled, answer, n)))
  {
    var p := listing[..|listing| - 1];
    var g := listing[|listing| - 1];
    ReplayStepFiles(listing, dir, decode, enabled, answer, n);
    ReplayOnlyDeletesListed(p, dir, decode, enabled, answer, n, dir);
    assert g !in p;
  }
}
