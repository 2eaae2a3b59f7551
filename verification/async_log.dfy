/**
 The state of the reactive-async example: a clock display string, the 12/24
 hour switch, a bounded log of entries and the terminal widget. Logging
 appends an orange "app" entry and, once the log holds more than 1000
 entries, drops the oldest one, so the log behaves as a FIFO window over the
 most recent messages.

 The wall-clock timestamp of an entry is an input, and the terminal widget
 is an opaque type parameter: neither is inspected by this model.
 */
module AsyncApp {
  import opened Types

  type Byte = x: nat | x < 256

  /** An sRGBA colour with one byte per channel. */
  datatype Color = Color(r: Byte, g: Byte, b: Byte, a: Byte)

  /** The colour the log uses for application messages: orange (255, 180, 100). */
  const Orange := Color(255, 180, 100, 255)

  /** One line of the log; T is the type of the wall-clock timestamp. */
  datatype LogEntry<T> = LogEntry(timestamp: T, source: string, message: string, color: Option<Color>)

  datatype AppState<T, W> = AppState(
    current_time: string,
    use_24h: bool,
    logs: seq<LogEntry<T>>,
    terminal_widget: W)

  /** The largest number of entries the log keeps. */
  const LogCapacity: nat := 1000

  /** The state a fresh application starts in, around the given terminal widget. */
  function New<T, W>(widget: W): (s: AppState<T, W>)
    ensures s.current_time == "" && !s.use_24h && s.logs == []
    ensures s.terminal_widget == widget
  {
    AppState("", false, [], widget)
  }

  /** The entry `Log` appends for a message. */
  function AppEntry<T>(message: string, now: T): (e: LogEntry<T>)
    ensures e.message == message && e.source == "app" && e.color == Some(Orange)
  {
    LogEntry(now, "app", message, Some(Orange))
  }

  /** Appends an "app" entry stamped `now` and, when the log has grown past
      its capacity, removes the oldest entry. */
  function Log<T, W>(s: AppState<T, W>, message: string, now: T): (r: AppState<T, W>)
    // only the log changes
    ensures r.(logs := s.logs) == s
    // the new entry is last, and what precedes it is the old log, less its oldest entry at capacity
    ensures |r.logs| > 0 && r.logs[|r.logs| - 1] == AppEntry(message, now)
    ensures |s.logs| < LogCapacity ==> r.logs == s.logs + [AppEntry(message, now)]
    ensures |s.logs| >= LogCapacity ==> r.logs == s.logs[1..] + [AppEntry(message, now)]
    // the length grows by one below capacity and holds still at or above it
    ensures |r.logs| == if |s.logs| < LogCapacity then |s.logs| + 1 else |s.logs|
  {
    var appended := s.logs + [AppEntry(message, now)];
    var kept := if |appended| > LogCapacity then appended[1..] else appended;
    s.(logs := kept)
  }

  /** Logging never takes a log within its capacity past it. */
  lemma LogStaysBounded<T, W>(s: AppState<T, W>, message: string, now: T)
    requires |s.logs| <= LogCapacity
    ensures |Log(s, message, now).logs| <= LogCapacity
  {
  }

  /** The old log, less its oldest entry, is a prefix of the new one: order is
      preserved and at most one entry is lost. */
  lemma LogKeepsOrder<T, W>(s: AppState<T, W>, message: string, now: T)
    ensures var r := Log(s, message, now).logs;
            r == s.logs + [AppEntry(message, now)] || r == s.logs[1..] + [AppEntry(message, now)]
  {
  }

  /** Logs `messages` in order, stamping message i with `stamps[i]`. */
  function LogAll<T, W>(s: AppState<T, W>, messages: seq<string>, stamps: seq<T>): AppState<T, W>
    requires |messages| == |stamps|
    decreases |messages|
  {
    if |messages| == 0 then s
    else
      var n := |messages| - 1;
      Log(LogAll(s, messages[..n], stamps[..n]), messages[n], stamps[n])
  }

  /** However many messages are logged, a log within capacity stays within it. */
  lemma {:induction false} LogAllStaysBounded<T, W>(s: AppState<T, W>, messages: seq<string>, stamps: seq<T>)
    requires |messages| == |stamps| && |s.logs| <= LogCapacity
    ensures |LogAll(s, messages, stamps).logs| <= LogCapacity
    ensures LogAll(s, messages, stamps).(logs := s.logs) == s
  {
    if |messages| > 0 {
      var n := |messages| - 1;
      LogAllStaysBounded(s, messages[..n], stamps[..n]);
    }
  }

  /** The entries `Log` would append for each message, in order. */
  function AppEntries<T>(messages: seq<string>, stamps: seq<T>): (es: seq<LogEntry<T>>)
    requires |messages| == |stamps|
    ensures |es| == |messages|
    ensures forall i :: 0 <= i < |es| ==> es[i] == AppEntry(messages[i], stamps[i])
  {
    seq(|messages|, i requires 0 <= i < |messages| => AppEntry(messages[i], stamps[i]))
  }

  /** The entries of all messages are those of all but the last, then the last one's. */
  lemma AppEntriesSnoc<T>(messages: seq<string>, stamps: seq<T>)
    requires |messages| == |stamps| && |messages| > 0
    ensures var n := |messages| - 1;
            var all := AppEntries(messages, stamps);
            AppEntries(messages[..n], stamps[..n]) == all[..n] && all == all[..n] + [AppEntry(messages[n], stamps[n])]
  {
    var n := |messages| - 1;
    var all := AppEntries(messages, stamps);
    assert AppEntries(messages[..n], stamps[..n]) == all[..n];
    assert all == all[..n] + [all[n]];
  }

  /** The last k elements of a sequence, or all of it when it is shorter. */
  function Window<X>(xs: seq<X>, k: nat): (w: seq<X>)
    ensures |w| == if |xs| < k then |xs| else k
    ensures forall i :: 0 <= i < |w| ==> w[i] == xs[|xs| - |w| + i]
  {
    if |xs| <= k then xs else xs[|xs| - k..]
  }

  /** From a fresh application, the log holds exactly the entries of the last
      (at most 1000) messages, oldest first. */
  lemma {:induction false} LogAllFromNew<T, W>(widget: W, messages: seq<string>, stamps: seq<T>)
    requires |messages| == |stamps|
    ensures LogAll(New(widget), messages, stamps).logs == Window(AppEntries(messages, stamps), LogCapacity)
  {
    if |messages| > 0 {
      var n := |messages| - 1;
      var prev := LogAll(New(widget), messages[..n], stamps[..n]);
      assert LogAll(New(widget), messages, stamps) == Log(prev, messages[n], stamps[n]);
      LogAllFromNew(widget, messages[..n], stamps[..n]);
      var all := AppEntries(messages, stamps);
      var e := AppEntry(messages[n], stamps[n]);
      AppEntriesSnoc(messages, stamps);
      WindowSnoc(all[..n], e, LogCapacity);
    }
  }

  /** Appending to a full window of xs gives the window of xs + [x]. */
  lemma WindowSnoc<X>(xs: seq<X>, x: X, k: nat)
    requires k > 0
    ensures |Window(xs, k)| < k ==> Window(xs + [x], k) == Window(xs, k) + [x]
    ensures |Window(xs, k)| >= k ==> Window(xs + [x], k) == Window(xs, k)[1..] + [x]
  {
    var ys := xs + [x];
    if |xs| >= k {
      var w := xs[|xs| - k..];
      assert Window(xs, k) == w;
      assert Window(ys, k) == ys[|ys| - k..];
      assert ys[|ys| - k..] == w[1..] + [x];
    } else {
      assert Window(xs, k) == xs;
    }
  }
}
