/**
 * `NetworkFirstPlausibleClient`: sends each event at once, and on failure persists it and
 * retries on a fixed schedule; on construction it replays the events persisted earlier.
 *
 * The engine's state is the event directory (`files`, file name to contents) and the history
 * of what it did (`trace`); the network is the oracle `answer` of `Protocol`.
 */
module Engine {
  import opened Wrappers
  import opened Events
  import opened Configuration
  import opened Protocol

  class NetworkFirstClient {
    const config: ThreadSafeConfig
    /** `Event.fromJson`: None when the text is not an event. */
    const decode: string -> Option<Event>
    /** `Event.toJson`. */
    const encode: Event -> string
    /** Whether network call number `k` gets a 2xx response. */
    const answer: nat -> bool

    var files: map<string, string>
    var trace: seq<Effect>

    /**
     * The `init` block: replay every file of the event directory `dir`, listed in the order
     * `listing` (`listFiles()` promises no order). Undecodable files are deleted, every other
     * file gets exactly one delivery attempt and is deleted unless that attempt throws.
     */
    constructor (config: ThreadSafeConfig, decode: string -> Option<Event>, encode: Event -> string,
                 answer: nat -> bool, dir: map<string, string>, listing: seq<string>)
      requires ListsDirectory(listing, dir)
      ensures this.config == config && this.decode == decode && this.encode == encode && this.answer == answer
      ensures trace == ReplayTrace(listing, dir, decode, config.enable, answer, 0)
      ensures files == ApplyFiles(dir, trace)
    {
      this.config := config;
      this.decode := decode;
      this.encode := encode;
      this.answer := answer;
      files := dir;
      trace := [];
      new;
      var i := 0;
      while i < |listing|
        invariant 0 <= i <= |listing|
        invariant trace == ReplayTrace(listing[..i], dir, decode, config.enable, answer, 0)
        invariant files == ApplyFiles(dir, trace)
      {
        ReplayNext(listing, dir, decode, config.enable, answer, i, trace);
        ReplayRecord(listing[i]);
        i := i + 1;
      }
      assert listing[..|listing|] == listing;
    }

    /**
     * The body of the replay's `forEach` for one file: decode it; delete it if that fails;
     * otherwise post it once and delete it unless the post throws.
     */
    method ReplayRecord(f: string)
      requires f in files
      modifies this`trace, this`files
      ensures trace == old(trace) + ReplayFile(f, old(files)[f], decode, config.enable, answer(old(CallCount())))
      ensures files == ApplyFiles(old(files), ReplayFile(f, old(files)[f], decode, config.enable,
                                                         answer(old(CallCount()))))
    {
      ghost var effects := ReplayFile(f, files[f], decode, config.enable, answer(CallCount()));
      ghost var dir := files;
      var event := decode(files[f]);
      match event {
        case None =>
          DeleteFile(f);
          One(dir, effects[0]);
        case Some(e) =>
          var ok := PostEvent(e);
          if ok {
            DeleteFile(f);
          }
          if |effects| == 1 { One(dir, effects[0]); } else { Two(dir, effects[0], effects[1]); }
      }
    }

    /** The number of network calls made so far, which numbers the next one. */
    ghost function CallCount(): nat
      reads this
    {
      |Calls(trace)|
    }

    /**
     * `postEvent`: when the engine is disabled, return normally without a network call;
     * otherwise make one call, which returns normally (`ok`) on a 2xx response and throws
     * `IOException` (`!ok`) otherwise.
     */
    method PostEvent(e: Event) returns (ok: bool)
      modifies this`trace
      ensures ok == (!config.enable || answer(old(CallCount())))
      ensures trace == old(trace) + (if config.enable then [Attempt(e, ok)] else [])
      ensures CallCount() == old(CallCount()) + (if config.enable then 1 else 0)
    {
      if !config.enable {
        return true;
      }
      Snoc(map[], trace, Attempt(e, answer(|Calls(trace)|)));
      ok := answer(|Calls(trace)|);
      trace := trace + [Attempt(e, ok)];
    }

    /** `delay(ms)`: only the delay is recorded. */
    method Delay(ms: int)
      modifies this`trace
      ensures trace == old(trace) + [Wait(ms)]
      ensures CallCount() == old(CallCount())
    {
      Snoc(map[], trace, Wait(ms));
      trace := trace + [Wait(ms)];
    }

    /** `File(eventDir, name).writeText(body)`: creates or replaces the file. */
    method WriteFile(name: string, body: string)
      modifies this`trace, this`files
      ensures trace == old(trace) + [Write(name, body)]
      ensures files == old(files)[name := body]
      ensures CallCount() == old(CallCount())
    {
      Snoc(map[], trace, Write(name, body));
      trace := trace + [Write(name, body)];
      files := files[name := body];
    }

    /** `file.delete()`: removes the file if it is there. */
    method DeleteFile(name: string)
      modifies this`trace, this`files
      ensures trace == old(trace) + [Delete(name)]
      ensures files == old(files) - {name}
      ensures CallCount() == old(CallCount())
    {
      Snoc(map[], trace, Delete(name));
      trace := trace + [Delete(name)];
      files := files - {name};
    }

    /**
     * `event(event)`: the source launches `suspendEvent` in a coroutine and returns at once;
     * here it runs to completion. `name` is the file name a failed event is written to.
     */
    method SendEvent(e: Event, name: string)
      modifies this`trace, this`files
      ensures trace == old(trace) + SuspendTrace(e, name, encode(e), config.enable, config.retryOnFailure,
                                                 answer, old(CallCount()))
      ensures files == ApplyFiles(old(files), SuspendTrace(e, name, encode(e), config.enable,
                                                           config.retryOnFailure, answer, old(CallCount())))
    {
      ghost var retries := SuspendEvent(e, name);
    }

    /** The default `event(domain, name, url, referrer, screenWidth, props)`: normalise, then `event(event)`. */
    method TrackEvent(domain: string, name: string, url: Uri, referrer: string, screenWidth: int,
                      props: Option<map<string, PropValue>>, fileName: string)
      modifies this`trace, this`files
      ensures var e := MakeEvent(domain, name, url, referrer, screenWidth, props);
              && trace == old(trace) + SuspendTrace(e, fileName, encode(e), config.enable, config.retryOnFailure,
                                                    answer, old(CallCount()))
              && files == ApplyFiles(old(files), SuspendTrace(e, fileName, encode(e), config.enable,
                                                              config.retryOnFailure, answer, old(CallCount())))
    {
      SendEvent(MakeEvent(domain, name, url, referrer, screenWidth, props), fileName);
    }

    /**
     * `suspendEvent`: one immediate attempt; if it throws and `retryOnFailure` is set, the
     * event is written to the file `name` (the source names it after the current time) and
     * the retry loop runs. `retries` is the final value of the loop's `retryAttempts`.
     */
    method SuspendEvent(e: Event, name: string) returns (ghost retries: nat)
      modifies this`trace, this`files
      ensures trace == old(trace) + SuspendTrace(e, name, encode(e), config.enable, config.retryOnFailure,
                                                 answer, old(CallCount()))
      ensures files == ApplyFiles(old(files), SuspendTrace(e, name, encode(e), config.enable,
                                                           config.retryOnFailure, answer, old(CallCount())))
      ensures config.enable && config.retryOnFailure && !answer(old(CallCount()))
              ==> retries == FirstRetryFrom(answer, old(CallCount()), 1) - 1
    {
      retries := 0;
      ghost var n := CallCount();
      var ok := PostEvent(e);
      if ok || !config.retryOnFailure {
        SuspendWithoutRetry(e, name, encode(e), config.enable, config.retryOnFailure, answer, n, old(files));
        return;
      }
      WriteFile(name, encode(e));
      retries := RetryLoop(e, name, n);
      SuspendRetrySplit(e, name, encode(e), answer, n, old(trace));
      SuspendRetryFiles(e, name, encode(e), answer, n, old(files));
    }

    /**
     * The retry loop of `suspendEvent`, entered after the immediate attempt (network call `n`)
     * threw: wait 1000, 60000 then 360000 ms, each time followed by one attempt, deleting the
     * file and leaving on the first success. After the third failed retry it waits 600000 ms
     * more and leaves by `else -> break` without another attempt, so `retryAttempts` ends at 3
     * and the guard `retryAttempts < 5` never ends the loop.
     */
    method RetryLoop(e: Event, name: string, ghost n: nat) returns (ghost retries: nat)
      requires config.enable && !answer(n) && CallCount() == n + 1
      modifies this`trace, this`files
      ensures trace == old(trace) + RetryTrace(e, name, answer, n, 1)
      ensures files == if FirstRetryFrom(answer, n, 1) < 4 then old(files) - {name} else old(files)
      ensures retries == FirstRetryFrom(answer, n, 1) - 1
    {
      ghost var t1 := trace;
      var retryAttempts := 0;
      var retryDelay := 1000;
      while retryAttempts < 5
        invariant 0 <= retryAttempts <= 3
        invariant retryDelay == Backoff[retryAttempts]
        invariant CallCount() == n + 1 + retryAttempts
        invariant trace + RetryTrace(e, name, answer, n, retryAttempts + 1) == t1 + RetryTrace(e, name, answer, n, 1)
        invariant files == old(files)
        invariant FirstRetryFrom(answer, n, retryAttempts + 1) == FirstRetryFrom(answer, n, 1)
        decreases 5 - retryAttempts
      {
        ghost var before := trace;
        Delay(retryDelay);
        var next := NextDelay(retryDelay);
        if next.None? {
          RetryFinalWait(e, name, answer, n, before);
          break;
        }
        retryDelay := next.value;
        var ok := PostEvent(e);
        if ok {
          DeleteFile(name);
          RetryIterationSucceeds(e, name, answer, n, retryAttempts, before);
          break;
        }
        RetryIterationFails(e, name, answer, n, retryAttempts, before);
        retryAttempts := retryAttempts + 1;
      }
      retries := retryAttempts;
    }
  }
}
