/** The velocity detector: per-user sliding windows compacted in place, and one signal per
    upward crossing of the threshold. */
module Velocity {
  import opened Domain

  /** The timestamps after the cutoff, in order. */
  function Kept(ts: seq<Time>, cutoff: Time): (r: seq<Time>)
    ensures |r| <= |ts|
  {
    if ts == [] then []
    else Kept(ts[..|ts| - 1], cutoff) + if ts[|ts| - 1] > cutoff then [ts[|ts| - 1]] else []
  }

  /** The compaction loop over the first n entries: those after the cutoff move to the front of
      the same array, in order. */
  method KeepAfter(buf: array<Time>, n: nat, cutoff: Time) returns (kept: nat)
    requires n <= buf.Length
    modifies buf
    ensures kept <= n && buf[..kept] == Kept(old(buf[..n]), cutoff)
  {
    ghost var was := buf[..n];
    kept := 0;
    for i := 0 to n
      invariant kept <= i
      invariant buf[..kept] == Kept(was[..i], cutoff)
      invariant forall k | i <= k < n :: buf[k] == was[k]
    {
      assert was[..i + 1][..i] == was[..i];
      if buf[i] > cutoff {
        buf[kept] := buf[i];
        kept := kept + 1;
      }
    }
    assert was[..n] == was;
  }

  datatype Signal = VelocityBreach(user: UserId, count: nat, at: Time)

  /** The detector's settings; without a sink it observes and reports nothing. */
  datatype Settings = Settings(window: Time, threshold: nat, sink: bool)

  /** What the detector remembers and what it has reported. */
  datatype Observed = Observed(windows: map<UserId, seq<Time>>, alerted: set<UserId>, signals: seq<Signal>)

  function WindowOf(o: Observed, u: UserId): seq<Time> { if u in o.windows then o.windows[u] else [] }

  /** One observation. */
  function Observe(o: Observed, cfg: Settings, u: UserId, at: Time): Observed {
    if u == "" then o
    else
      var kept := Kept(WindowOf(o, u), at - cfg.window) + [at];
      var windows := o.windows[u := kept];
      if |kept| <= cfg.threshold then Observed(windows, o.alerted - {u}, o.signals)
      else if u in o.alerted then o.(windows := windows)
      else Observed(windows, o.alerted + {u}, if cfg.sink then o.signals + [VelocityBreach(u, |kept|, at)]
          else o.signals)
  }

  class Detector {
    const cfg: Settings
    var velocity: map<UserId, seq<Time>>
    var emitted: set<UserId>
    var reported: seq<Signal>

    function State(): Observed
      reads this
    {
      Observed(velocity, emitted, reported)
    }

    constructor (cfg: Settings)
      ensures State() == Observed(map[], {}, [])
      ensures this.cfg == cfg
    {
      this.cfg := cfg;
      velocity, emitted, reported := map[], {}, [];
    }

    method ObserveSettled(user: UserId, at: Time)
      modifies this
      ensures State() == Observe(old(State()), cfg, user, at)
    {
      hide Kept;
      if user == "" {
        return;
      }
      var ts := if user in velocity then velocity[user] else [];
      var buf := new Time[|ts| + 1](k requires 0 <= k <= |ts| => if k < |ts| then ts[k] else at);
      assert buf[..|ts|] == ts;
      var kept := KeepAfter(buf, |ts|, at - cfg.window);
      ghost var inside := buf[..kept];
      buf[kept] := at;
      assert buf[..kept + 1] == inside + [at];
      velocity := velocity[user := buf[..kept + 1]];
      if kept + 1 <= cfg.threshold {
        emitted := emitted - {user};
        return;
      }
      if user in emitted {
        return;
      }
      emitted := emitted + {user};
      if !cfg.sink {
        return;
      }
      reported := reported + [VelocityBreach(user, kept + 1, at)];
    }
  }

  // ------------------------------------------------------------------ runs

  datatype Sighting = Sighting(user: UserId, at: Time)

  function Replay(cfg: Settings, hs: seq<Sighting>): Observed {
    if hs == [] then Observed(map[], {}, [])
    else
      var h := hs[|hs| - 1];
      Observe(Replay(cfg, hs[..|hs| - 1]), cfg, h.user, h.at)
  }

  /** A user's own observations. */
  function TimesOf(hs: seq<Sighting>, u: UserId): seq<Time> {
    if hs == [] then []
    else TimesOf(hs[..|hs| - 1], u) + if hs[|hs| - 1].user == u then [hs[|hs| - 1].at] else []
  }

  predicate Ordered(ts: seq<Time>) { forall i, j | 0 <= i < j < |ts| :: ts[i] <= ts[j] }

  /** The full history's view of the window that ends with the last observation. */
  function InWindow(ts: seq<Time>, window: Time): seq<Time> {
    if ts == [] then [] else Kept(ts[..|ts| - 1], ts[|ts| - 1] - window) + [ts[|ts| - 1]]
  }

  /** How often the window count goes from at most the threshold to above it. */
  function Crossings(ts: seq<Time>, window: Time, threshold: nat): nat {
    if ts == [] then 0
    else
      var n := |ts| - 1;
      Crossings(ts[..n], window, threshold)
      + if |InWindow(ts, window)| > threshold && |InWindow(ts[..n], window)| <= threshold then 1 else 0
  }

  function SignalsOf(signals: seq<Signal>, u: UserId): nat {
    if signals == [] then 0
    else SignalsOf(signals[..|signals| - 1], u) + if signals[|signals| - 1].user == u then 1 else 0
  }

  lemma {:induction false} KeptPush(ts: seq<Time>, t: Time, cutoff: Time)
    ensures Kept(ts + [t], cutoff) == Kept(ts, cutoff) + if t > cutoff then [t] else []
  {
    assert (ts + [t])[..|ts|] == ts;
  }

  /** What an earlier cutoff dropped, a later one would drop too. */
  lemma {:induction false} KeptTwice(ts: seq<Time>, early: Time, late: Time)
    requires early <= late
    ensures Kept(Kept(ts, early), late) == Kept(ts, late)
    decreases |ts|
  {
    if ts != [] {
      var n := |ts| - 1;
      KeptTwice(ts[..n], early, late);
      KeptPush(Kept(ts[..n], early), ts[n], late);
      assert Kept(ts[..n], early) + [] == Kept(ts[..n], early);
    }
  }

  /** Of ordered timestamps those after the cutoff are kept, a final stretch of them, and no other. */
  lemma {:induction false} KeptIsSuffix(ts: seq<Time>, cutoff: Time) returns (k: nat)
    requires Ordered(ts)
    ensures k <= |ts| && Kept(ts, cutoff) == ts[k..]
    ensures forall i | 0 <= i < |ts| :: ts[i] > cutoff <==> i >= k
  {
    if ts == [] {
      k := 0;
    } else {
      var n := |ts| - 1;
      k := KeptIsSuffix(ts[..n], cutoff);
      if ts[n] > cutoff {
        assert ts[k..] == ts[..n][k..] + [ts[n]];
      } else {
        assert forall i | 0 <= i < n :: ts[..n][i] <= ts[n];
        k := |ts|;
      }
    }
  }

  lemma InWindowPush(ts: seq<Time>, at: Time, window: Time)
    ensures InWindow(ts + [at], window) == Kept(ts, at - window) + [at]
  {
    hide Kept;
    assert (ts + [at])[..|ts|] == ts;
  }

  lemma KeptAgain(front: seq<Time>, x: Time, at: Time, window: Time)
    requires x <= at
    ensures Kept(Kept(front, x - window) + [x], at - window) == Kept(front + [x], at - window)
  {
    hide Kept;
    KeptPush(Kept(front, x - window), x, at - window);
    KeptTwice(front, x - window, at - window);
    KeptPush(front, x, at - window);
  }

  lemma WindowStep(ts: seq<Time>, at: Time, window: Time)
    requires Ordered(ts + [at])
    ensures Kept(InWindow(ts, window), at - window) + [at] == InWindow(ts + [at], window)
  {
    InWindowPush(ts, at, window);
    if ts != [] {
      var n := |ts| - 1;
      assert (ts + [at])[n] <= (ts + [at])[|ts|];
      hide Kept, InWindow;
      assert ts == ts[..n] + [ts[n]];
      InWindowPush(ts[..n], ts[n], window);
      KeptAgain(ts[..n], ts[n], at, window);
    }
  }

  lemma OrderedPrefix(ts: seq<Time>, t: Time)
    requires Ordered(ts + [t])
    ensures Ordered(ts)
  {
    forall i, j | 0 <= i < j < |ts| ensures ts[i] <= ts[j] {
      assert (ts + [t])[i] <= (ts + [t])[j];
    }
  }

  lemma ObserveOther(o: Observed, cfg: Settings, h: Sighting, u: UserId)
    requires h.user != u
    ensures var o' := Observe(o, cfg, h.user, h.at);
            WindowOf(o', u) == WindowOf(o, u) && (u in o'.alerted <==> u in o.alerted)
  {
    hide Kept;
  }

  lemma ObserveOwn(o: Observed, cfg: Settings, u: UserId, at: Time)
    requires u != ""
    ensures var o' := Observe(o, cfg, u, at);
            && WindowOf(o', u) == Kept(WindowOf(o, u), at - cfg.window) + [at]
            && (u in o'.alerted <==> |WindowOf(o', u)| > cfg.threshold)
  {
    hide Kept;
  }

  lemma CrossingsPush(ts: seq<Time>, at: Time, window: Time, threshold: nat)
    ensures Crossings(ts + [at], window, threshold)
         == Crossings(ts, window, threshold)
            + if |InWindow(ts + [at], window)| > threshold && |InWindow(ts, window)| <= threshold then 1 else 0
  {
    assert (ts + [at])[..|ts|] == ts;
  }

  /** With nondecreasing timestamps the compacted slice of a user holds exactly the observations
      inside the window, the user is marked exactly while above the threshold, and the signals
      sent are the upward crossings, or none without a sink. */
  lemma {:induction false} WindowRefinesHistory(cfg: Settings, hs: seq<Sighting>, u: UserId)
    requires u != "" && Ordered(TimesOf(hs, u))
    ensures var o, ts := Replay(cfg, hs), TimesOf(hs, u);
            && WindowOf(o, u) == InWindow(ts, cfg.window)
            && (u in o.alerted <==> |InWindow(ts, cfg.window)| > cfg.threshold)
            && SignalsOf(o.signals, u) == if cfg.sink then Crossings(ts, cfg.window, cfg.threshold) else 0
    decreases |hs|
  {
    hide Kept, InWindow, Crossings, SignalsOf, Observe, WindowOf, Ordered;
    if hs == [] {
      NothingSeen(cfg, u);
    } else {
      var front, h := hs[..|hs| - 1], hs[|hs| - 1];
      var o, ts := Replay(cfg, front), TimesOf(front, u);
      SignalsPush(o, cfg, h, u);
      if h.user == u {
        OrderedPrefix(ts, h.at);
        WindowRefinesHistory(cfg, front, u);
        WindowStep(ts, h.at, cfg.window);
        ObserveOwn(o, cfg, u, h.at);
        CrossingsPush(ts, h.at, cfg.window, cfg.threshold);
      } else {
        assert ts + [] == ts;
        WindowRefinesHistory(cfg, front, u);
        ObserveOther(o, cfg, h, u);
      }
    }
  }

  lemma NothingSeen(cfg: Settings, u: UserId)
    ensures WindowOf(Observed(map[], {}, []), u) == InWindow([], cfg.window)
    ensures InWindow([], cfg.window) == [] && Crossings([], cfg.window, cfg.threshold) == 0 && SignalsOf([], u) == 0
  {
  }

  lemma SignalsPush(o: Observed, cfg: Settings, h: Sighting, u: UserId)
    ensures var o' := Observe(o, cfg, h.user, h.at);
            SignalsOf(o'.signals, u) == SignalsOf(o.signals, u)
              + if cfg.sink && h.user == u && u != "" && u !in o.alerted
                   && |Kept(WindowOf(o, u), h.at - cfg.window)| + 1 > cfg.threshold then 1 else 0
  {
    var s := VelocityBreach(h.user, |Kept(WindowOf(o, h.user), h.at - cfg.window)| + 1, h.at);
    assert (o.signals + [s])[..|o.signals|] == o.signals;
  }

  /** A signal tells of an observation: whose it was, when, and how many its window then held, more than the
      threshold allows. */
  ghost predicate TellsOf(s: Signal, cfg: Settings, hs: seq<Sighting>, k: nat)
    requires k < |hs|
  {
    && hs[k] == Sighting(s.user, s.at) && s.count > cfg.threshold
    && s.count == |InWindow(TimesOf(hs[..k + 1], s.user), cfg.window)|
  }

  /** Every signal tells of an observation, if its user's observations come in order. */
  lemma {:induction false} SignalsTell(cfg: Settings, hs: seq<Sighting>, j: nat)
    requires j < |Replay(cfg, hs).signals| && Ordered(TimesOf(hs, Replay(cfg, hs).signals[j].user))
    ensures exists k :: 0 <= k < |hs| && TellsOf(Replay(cfg, hs).signals[j], cfg, hs, k)
    decreases |hs|
  {
    hide Kept, InWindow, TimesOf, Ordered, WindowOf;
    if hs != [] {
      var n := |hs| - 1;
      var front, h := hs[..n], hs[n];
      var o, o' := Replay(cfg, front), Replay(cfg, hs);
      SignalsKept(o, cfg, h);
      if j < |o.signals| {
        OrderedFront(hs, o.signals[j].user);
        SignalsTell(cfg, front, j);
        var k :| 0 <= k < n && TellsOf(o.signals[j], cfg, front, k);
        assert front[..k + 1] == hs[..k + 1];
        assert TellsOf(o'.signals[j], cfg, hs, k);
      } else {
        NewSignal(o, cfg, h);
        WindowRefinesHistory(cfg, hs, h.user);
        assert hs[..n + 1] == hs;
        assert TellsOf(o'.signals[j], cfg, hs, n);
      }
    }
  }

  lemma OrderedFront(hs: seq<Sighting>, u: UserId)
    requires hs != [] && Ordered(TimesOf(hs, u))
    ensures Ordered(TimesOf(hs[..|hs| - 1], u))
  {
    var ts := TimesOf(hs[..|hs| - 1], u);
    if hs[|hs| - 1].user == u {
      OrderedPrefix(ts, hs[|hs| - 1].at);
    } else {
      assert ts + [] == ts;
    }
  }

  lemma SignalsKept(o: Observed, cfg: Settings, h: Sighting)
    ensures var o' := Observe(o, cfg, h.user, h.at);
            o.signals <= o'.signals && |o'.signals| <= |o.signals| + 1
  {
    hide Kept;
  }

  lemma NewSignal(o: Observed, cfg: Settings, h: Sighting)
    ensures var o' := Observe(o, cfg, h.user, h.at);
            |o'.signals| > |o.signals| ==>
              h.user != "" && o'.signals[|o.signals|] == VelocityBreach(h.user, |WindowOf(o', h.user)|, h.at)
              && |WindowOf(o', h.user)| > cfg.threshold && |o'.signals| == |o.signals| + 1
  {
    hide Kept;
  }
}
