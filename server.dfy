/**
 * The logging server's rate limiter and its per-client read loop. The
 * limiter keeps the timestamps of recent admissions in a FIFO queue of at
 * most five entries and compares the oldest against a one-second window.
 * When it denies a line it still removes the oldest timestamp, so the
 * queue drops to four and the next call is always admitted.
 */
module LogServer {
  import opened SeqLaws

  /** At most this many timestamps are kept. */
  const MaxLogMessagesPerSecond: nat := 5

  /** The window, in milliseconds, that the oldest kept timestamp is compared against. */
  const WindowMillis: int := 1000

  /** The reply sent to the client for every line written to the log file. */
  const ReadyMessage: string := "Ready for next log message. Type 'exit' to stop entering."

  /** `a` is what remains of `b` after removing some elements from its front. */
  predicate IsSuffix<T(==)>(a: seq<T>, b: seq<T>)
  {
    |a| <= |b| && a == b[|b| - |a|..]
  }

  /** The limiter's answer, and the queue it leaves behind. */
  datatype Verdict = Verdict(allowed: bool, queue: seq<int>)

  /** One call of the limiter at time `now` (milliseconds) on the queue `q`. */
  function Admit(q: seq<int>, now: int): (r: Verdict)
    ensures r.allowed <==> |q| < MaxLogMessagesPerSecond || now - q[0] >= WindowMillis
    ensures r.allowed ==> |r.queue| > 0 && r.queue[|r.queue| - 1] == now
    ensures |r.queue| == if |q| < MaxLogMessagesPerSecond then |q| + 1
                         else if r.allowed then |q|
                         else |q| - 1
    ensures |q| <= MaxLogMessagesPerSecond ==> |r.queue| <= MaxLogMessagesPerSecond
    ensures |q| <= MaxLogMessagesPerSecond && !r.allowed ==> |r.queue| == MaxLogMessagesPerSecond - 1
  {
    if |q| < MaxLogMessagesPerSecond then Verdict(true, q + [now])
    else if now - q[0] < WindowMillis then Verdict(false, q[1..])
    else Verdict(true, q[1..] + [now])
  }

  /**
   * Removal is only ever from the front and insertion only at the back: an
   * admission leaves a suffix of the queue extended by `now`, a denial a
   * suffix of the queue.
   */
  lemma AdmitKeepsOrder(q: seq<int>, now: int)
    ensures var r := Admit(q, now);
      if r.allowed then IsSuffix(r.queue, q + [now]) else IsSuffix(r.queue, q)
  {
    assert q[|q| - |q|..] == q;
    SuffixSteps(q, q, now);
  }

  /** The verdicts of successive calls at the given times, and the queue after the last. */
  datatype Outcome = Outcome(verdicts: seq<bool>, queue: seq<int>)

  /** Successive calls of the limiter, starting from the queue `q`. */
  function Serve(q: seq<int>, times: seq<int>): (r: Outcome)
    ensures |r.verdicts| == |times|
    decreases |times|
  {
    if times == [] then Outcome([], q)
    else
      var prev := Serve(q, times[..|times| - 1]);
      var v := Admit(prev.queue, times[|times| - 1]);
      Outcome(prev.verdicts + [v.allowed], v.queue)
  }

  /** The elements of `xs` whose flag in `keep` is set, in their original order. */
  function Select<T>(xs: seq<T>, keep: seq<bool>): (r: seq<T>)
    requires |xs| == |keep|
    ensures |r| <= |xs|
    decreases |xs|
  {
    if xs == [] then []
    else
      var n := |xs| - 1;
      Select(xs[..n], keep[..n]) + (if keep[n] then [xs[n]] else [])
  }

  /** A line as the server reads it, with the clock reading taken when it was checked. */
  datatype Arrival = Arrival(text: string, at: int)

  function Times(arrivals: seq<Arrival>): (times: seq<int>)
    ensures |times| == |arrivals|
  {
    seq(|arrivals|, i requires 0 <= i < |arrivals| => arrivals[i].at)
  }

  function Texts(arrivals: seq<Arrival>): (texts: seq<string>)
    ensures |texts| == |arrivals|
  {
    seq(|arrivals|, i requires 0 <= i < |arrivals| => arrivals[i].text)
  }

  class LoggingService {
    /** The timestamps of recent admissions, oldest first. */
    var logTimestamps: seq<int>
    /** The lines of the log file, which every client appends to. */
    var logFile: seq<string>

    constructor (existing: seq<string>)
      ensures logTimestamps == [] && logFile == existing
    {
      logTimestamps := [];
      logFile := existing;
    }

    /** The rate limiter, consulted with the current time for each line read. */
    method IsAllowedToLog(now: int) returns (allowed: bool)
      modifies this`logTimestamps
      ensures Verdict(allowed, logTimestamps) == Admit(old(logTimestamps), now)
    {
      if |logTimestamps| < MaxLogMessagesPerSecond {
        logTimestamps := logTimestamps + [now];
        return true;
      }
      var oldest := logTimestamps[0];
      logTimestamps := logTimestamps[1..];
      if now - oldest < WindowMillis {
        return false;
      }
      logTimestamps := logTimestamps + [now];
      return true;
    }

    /**
     * Reads the client's lines in order; each admitted line is appended to
     * the log file and answered with the ready reply, each denied one is
     * dropped without a reply.
     */
    method HandleClient(received: seq<Arrival>) returns (replies: seq<string>)
      modifies this
      ensures var out := Serve(old(logTimestamps), Times(received));
        && logTimestamps == out.queue
        && logFile == old(logFile) + Select(Texts(received), out.verdicts)
      ensures |replies| == |logFile| - |old(logFile)|
      ensures forall j :: 0 <= j < |replies| ==> replies[j] == ReadyMessage
    {
      ghost var q0, f0 := logTimestamps, logFile;
      replies := [];
      var i := 0;
      while i < |received|
        invariant 0 <= i <= |received|
        invariant var out := Serve(q0, Times(received[..i]));
          && logTimestamps == out.queue
          && logFile == f0 + Select(Texts(received[..i]), out.verdicts)
        invariant |replies| == |logFile| - |f0|
        invariant forall j :: 0 <= j < |replies| ==> replies[j] == ReadyMessage
      {
        ghost var logged := Select(Texts(received[..i]), Serve(q0, Times(received[..i])).verdicts);
        HandleStep(q0, received, i);
        var allowed := IsAllowedToLog(received[i].at);
        if allowed {
          logFile := logFile + [received[i].text];
          replies := replies + [ReadyMessage];
        }
        Associative(f0, logged, if allowed then [received[i].text] else []);
        i := i + 1;
      }
      assert received[..i] == received;
    }
  }

  /** Reading one more line: one more call of the limiter, and the line kept exactly when admitted. */
  lemma HandleStep(q: seq<int>, received: seq<Arrival>, i: nat)
    requires i < |received|
    ensures var prev := Serve(q, Times(received[..i]));
      var v := Admit(prev.queue, received[i].at);
      var next := Serve(q, Times(received[..i + 1]));
      && next.queue == v.queue
      && Select(Texts(received[..i + 1]), next.verdicts)
         == Select(Texts(received[..i]), prev.verdicts) + (if v.allowed then [received[i].text] else [])
  {
    var prev := Serve(q, Times(received[..i]));
    PrefixStep(received, i);
    ServeSnoc(q, Times(received[..i]), received[i].at);
    SelectSnoc(Texts(received[..i]), prev.verdicts, received[i].text, Admit(prev.queue, received[i].at).allowed);
  }

  /** Extending the prefix of the arrivals by one extends their times and texts by one. */
  lemma PrefixStep(received: seq<Arrival>, i: nat)
    requires i < |received|
    ensures Times(received[..i + 1]) == Times(received[..i]) + [received[i].at]
    ensures Texts(received[..i + 1]) == Texts(received[..i]) + [received[i].text]
  {
    assert received[..i + 1][..i] == received[..i];
  }

  /** One more call extends the verdicts by its answer and leaves its queue. */
  lemma ServeSnoc(q: seq<int>, times: seq<int>, now: int)
    ensures var prev := Serve(q, times);
      var v := Admit(prev.queue, now);
      Serve(q, times + [now]) == Outcome(prev.verdicts + [v.allowed], v.queue)
  {
    assert (times + [now])[..|times|] == times;
  }

  /** One more flagged element is kept exactly when its flag is set. */
  lemma SelectSnoc<T>(xs: seq<T>, keep: seq<bool>, x: T, b: bool)
    requires |xs| == |keep|
    ensures Select(xs + [x], keep + [b]) == Select(xs, keep) + (if b then [x] else [])
  {
    assert (xs + [x])[..|xs|] == xs;
    assert (keep + [b])[..|keep|] == keep;
  }

  // ---------------------------------------------------------------------
  // Properties of runs of the limiter.
  // ---------------------------------------------------------------------

  /** The queue never holds more than five timestamps. */
  lemma {:induction false} ServeBound(q: seq<int>, times: seq<int>)
    requires |q| <= MaxLogMessagesPerSecond
    ensures |Serve(q, times).queue| <= MaxLogMessagesPerSecond
    decreases |times|
  {
    if times != [] {
      ServeBound(q, times[..|times| - 1]);
    }
  }

  /** After a denial the queue holds four timestamps. */
  lemma {:induction false} DenialLeavesRoom(q: seq<int>, times: seq<int>)
    requires |q| <= MaxLogMessagesPerSecond
    requires times != [] && !Serve(q, times).verdicts[|times| - 1]
    ensures |Serve(q, times).queue| == MaxLogMessagesPerSecond - 1
  {
    ServeBound(q, times[..|times| - 1]);
  }

  /** Every denial in `v` is followed by an admission. */
  predicate NoDoubleDenial(v: seq<bool>)
  {
    forall i :: 0 <= i < |v| - 1 && !v[i] ==> v[i + 1]
  }

  /** A denial is always followed by an admission. */
  lemma {:induction false} NoTwoDenialsInARow(q: seq<int>, times: seq<int>)
    requires |q| <= MaxLogMessagesPerSecond
    ensures NoDoubleDenial(Serve(q, times).verdicts)
    decreases |times|
  {
    if times != [] {
      var n := |times| - 1;
      var init := times[..n];
      NoTwoDenialsInARow(q, init);
      var prev := Serve(q, init);
      var pv := prev.verdicts;
      var last := Admit(prev.queue, times[n]).allowed;
      var v := Serve(q, times).verdicts;
      assert v == pv + [last];
      assert NoDoubleDenial(pv);
      if n > 0 && !pv[n - 1] {
        assert init[..n - 1] == times[..n - 1];
        DenialLeavesRoom(q, init);
      }
      forall i | 0 <= i < |v| - 1 && !v[i]
        ensures v[i + 1]
      {
        assert v[i] == pv[i];
        if i + 1 < n {
          assert !pv[i] ==> pv[i + 1];
          assert v[i + 1] == pv[i + 1];
        } else {
          assert i == n - 1 && !pv[n - 1];
          assert v[i + 1] == last;
        }
      }
    }
  }

  /** Appending to both keeps a suffix, and so does dropping its front element. */
  lemma SuffixSteps<T>(a: seq<T>, b: seq<T>, x: T)
    requires IsSuffix(a, b)
    ensures IsSuffix(a + [x], b + [x])
    ensures |a| > 0 ==> IsSuffix(a[1..], b) && IsSuffix(a[1..] + [x], b + [x])
  {
    assert (b + [x])[|b + [x]| - |a + [x]|..] == b[|b| - |a|..] + [x];
    if |a| > 0 {
      assert b[|b| - |a[1..]|..] == b[|b| - |a|..][1..];
      assert (b + [x])[|b + [x]| - |a[1..] + [x]|..] == b[|b| - |a[1..]|..] + [x];
    }
  }

  /**
   * The queue holds the most recent admissions in arrival order: it is
   * what remains of the starting queue followed by every admitted time
   * after some are dropped from the front.
   */
  lemma {:induction false} QueueHoldsLatestAdmissions(q: seq<int>, times: seq<int>)
    ensures var out := Serve(q, times);
      IsSuffix(out.queue, q + Select(times, out.verdicts))
    decreases |times|
  {
    if times != [] {
      var n := |times| - 1;
      var now := times[n];
      var init := times[..n];
      QueueHoldsLatestAdmissions(q, init);
      var prev := Serve(q, init);
      var v := Admit(prev.queue, now);
      assert times == init + [now];
      ServeSnoc(q, init, now);
      var admitted := Select(init, prev.verdicts);
      SelectSnoc(init, prev.verdicts, now, v.allowed);
      SuffixSteps(prev.queue, q + admitted, now);
      if v.allowed {
        Associative(q, admitted, [now]);
      } else {
        assert admitted + [] == admitted;
      }
    }
  }

  /** From an empty queue, the first five calls are all admitted and stored. */
  lemma {:induction false} FirstFiveAdmitted(times: seq<int>)
    requires |times| <= MaxLogMessagesPerSecond
    ensures var out := Serve([], times);
      (forall i :: 0 <= i < |times| ==> out.verdicts[i]) && out.queue == times
    decreases |times|
  {
    if times != [] {
      var n := |times| - 1;
      FirstFiveAdmitted(times[..n]);
      assert times[..n] + [times[n]] == times;
    }
  }

  /**
   * Seven lines checked within the same millisecond: five are admitted,
   * the sixth is denied, and the seventh is admitted again, so six lines
   * are logged within one window.
   */
  lemma BurstAtOneInstant()
    ensures Serve([], [0, 0, 0, 0, 0, 0, 0]).verdicts == [true, true, true, true, true, false, true]
  {
    var five := [0, 0, 0, 0, 0];
    FirstFiveAdmitted(five);
    var out5 := Serve([], five);
    assert out5.verdicts == [true, true, true, true, true];
    assert [0, 0, 0, 0, 0, 0][..5] == five;
    assert [0, 0, 0, 0, 0, 0, 0][..6] == [0, 0, 0, 0, 0, 0];
    var out6 := Serve([], [0, 0, 0, 0, 0, 0]);
    assert out6.verdicts == [true, true, true, true, true, false];
    assert out6.queue == [0, 0, 0, 0];
  }

  /** When every line is admitted, the log receives every line, in order. */
  lemma {:induction false} SelectAll<T>(xs: seq<T>, keep: seq<bool>)
    requires |xs| == |keep|
    requires forall i :: 0 <= i < |keep| ==> keep[i]
    ensures Select(xs, keep) == xs
    decreases |xs|
  {
    if xs != [] {
      var n := |xs| - 1;
      SelectAll(xs[..n], keep[..n]);
      assert xs[..n] + [xs[n]] == xs;
    }
  }

  /** A client that sends at most five lines to a fresh server has all of them logged. */
  lemma QuietClientFullyLogged(received: seq<Arrival>)
    requires |received| <= MaxLogMessagesPerSecond
    ensures var out := Serve([], Times(received));
      Select(Texts(received), out.verdicts) == Texts(received)
  {
    FirstFiveAdmitted(Times(received));
    SelectAll(Texts(received), Serve([], Times(received)).verdicts);
  }
}
