/**
 * The live state of the dashboard script (static/script.js): per-label counts,
 * totals, the 20-slot intensity window fed by a 2-second tick, the activity log
 * capped at 25 rows, the pause flag, the confirmed clear and the alert cue.
 */
module Dashboard {
  import opened Labels
  import opened Report

  /** Slots of the intensity window (static/script.js:62-65). */
  const WindowWidth: nat := 20
  /** Rows the activity log keeps (static/script.js:117). */
  const LogCapacity: nat := 25

  /** The displayed risk level of an event: HIGH for alerts, LOW otherwise. */
  function RiskLevel(alert: bool): (s: string)
    ensures s == "HIGH" <==> alert
    ensures s == "LOW" <==> !alert
  {
    if alert then "HIGH" else "LOW"
  }

  /** The log row an event is displayed as (static/script.js:111-116). */
  function RowOf(e: PacketEvent): (r: LogRow)
    ensures r.time == e.time && r.src == e.src && r.classification == Name(e.category)
    ensures r.risk == "HIGH" <==> e.alert
    ensures r.risk == "LOW" <==> !e.alert
  {
    LogRow(e.time, e.src, Name(e.category), RiskLevel(e.alert))
  }

  /**
   * The log after a new row: the row goes in front (`insertRow(0)`) and, once
   * that makes 26 rows, the row at index 25 is removed. A log of at most 25
   * rows keeps at most 25, gains the row at the top and keeps its newest
   * rows below it, in order.
   */
  function InsertRow(log: seq<LogRow>, row: LogRow): (r: seq<LogRow>)
    ensures |log| <= LogCapacity ==>
              |r| == (if |log| < LogCapacity then |log| + 1 else LogCapacity)
              && r[0] == row
              && r[1..] == log[..|r| - 1]
  {
    var grown := [row] + log;
    if |grown| > LogCapacity then grown[..LogCapacity] + grown[LogCapacity + 1..] else grown
  }

  /**
   * Whether the handler sounds the alert cue: only for alert events
   * (static/script.js:98-102), and `playAlertSound` stays silent for
   * Benign and Probe (static/script.js:12).
   */
  function AlertSounds(alert: bool, category: Label): (r: bool)
    ensures r <==> alert && category in {DoS, R2L, U2R}
  {
    alert && !(Name(category) == "Benign" || Name(category) == "Probe")
  }

  // ---- Counting over the events seen so far ----

  /** How many of the events carry label `l`. */
  ghost function CountLabel(events: seq<PacketEvent>, l: Label): nat
  {
    if events == [] then 0
    else CountLabel(events[..|events| - 1], l) + (if events[|events| - 1].category == l then 1 else 0)
  }

  /** How many of the events are alerts. */
  ghost function CountAlerts(events: seq<PacketEvent>): (n: nat)
    ensures n <= |events|
  {
    if events == [] then 0
    else CountAlerts(events[..|events| - 1]) + (if events[|events| - 1].alert then 1 else 0)
  }

  /** The sum of the five per-label counts. */
  ghost function LabelTotal(events: seq<PacketEvent>): nat
  {
    CountLabel(events, Benign) + CountLabel(events, Probe) + CountLabel(events, DoS)
    + CountLabel(events, R2L) + CountLabel(events, U2R)
  }

  /** Every event has exactly one of the five labels, so the counts add up to the number of events. */
  lemma {:induction false} LabelCountsSum(events: seq<PacketEvent>)
    ensures LabelTotal(events) == |events|
  {
    if events != [] {
      LabelCountsSum(events[..|events| - 1]);
    }
  }

  /** Counting one more event: exactly its own label's count and, for an alert, the alert count go up by 1. */
  lemma CountsAppend(events: seq<PacketEvent>, e: PacketEvent, l: Label)
    ensures CountLabel(events + [e], l) == CountLabel(events, l) + (if e.category == l then 1 else 0)
    ensures CountAlerts(events + [e]) == CountAlerts(events) + (if e.alert then 1 else 0)
  {
    assert (events + [e])[..|events|] == events;
  }

  /** Counting one more event among those since index `from`. */
  lemma AlertsSinceAppend(events: seq<PacketEvent>, from: nat, e: PacketEvent)
    requires from <= |events|
    ensures CountAlerts((events + [e])[from..]) == CountAlerts(events[from..]) + (if e.alert then 1 else 0)
  {
    assert (events + [e])[from..] == events[from..] + [e];
    CountsAppend(events[from..], e, e.category);
  }

  // ---- The intensity window ----

  function Sum(s: seq<nat>): nat
  {
    if s == [] then 0 else Sum(s[..|s| - 1]) + s[|s| - 1]
  }

  lemma {:induction false} SumConcat(a: seq<nat>, b: seq<nat>)
    ensures Sum(a + b) == Sum(a) + Sum(b)
  {
    if b == [] {
      assert a + b == a;
    } else {
      assert (a + b)[..|a + b| - 1] == a + b[..|b| - 1];
      SumConcat(a, b[..|b| - 1]);
    }
  }

  lemma SumFive(a: nat, b: nat, c: nat, d: nat, e: nat)
    ensures Sum([a, b, c, d, e]) == a + b + c + d + e
  {
    assert [a][..0] == [];
    assert Sum([a]) == a;
    assert [a, b][..1] == [a];
    assert Sum([a, b]) == a + b;
    assert [a, b, c][..2] == [a, b];
    assert Sum([a, b, c]) == a + b + c;
    assert [a, b, c, d][..3] == [a, b, c];
    assert Sum([a, b, c, d]) == a + b + c + d;
    assert [a, b, c, d, e][..4] == [a, b, c, d];
  }

  function Zeros(n: nat): (z: seq<nat>)
    ensures |z| == n && forall i :: 0 <= i < n ==> z[i] == 0
  {
    seq(n, _ => 0)
  }

  lemma {:induction false} SumZeros(n: nat)
    ensures Sum(Zeros(n)) == 0
  {
    if n > 0 {
      assert Zeros(n)[..n - 1] == Zeros(n - 1);
      SumZeros(n - 1);
    }
  }

  /**
   * The window after the ticks that pushed `samples`, oldest first: the last
   * 20 of the samples, padded in front with the 20 zeros it starts with.
   */
  ghost function Recent(samples: seq<nat>): (w: seq<nat>)
    ensures |w| == WindowWidth
  {
    var padded := Zeros(WindowWidth) + samples;
    padded[|samples|..]
  }

  /** One tick: push the new sample, shift out the oldest (static/script.js:87-88). */
  lemma RecentTick(samples: seq<nat>, c: nat)
    ensures Recent(samples + [c]) == Recent(samples)[1..] + [c]
  {
  }

  /** Once 20 ticks in a row have pushed 0, every slot of the window is 0. */
  lemma QuietWindow(samples: seq<nat>, quiet: nat)
    requires WindowWidth <= quiet <= |samples|
    requires forall i :: |samples| - quiet <= i < |samples| ==> samples[i] == 0
    ensures forall k :: 0 <= k < WindowWidth ==> Recent(samples)[k] == 0
  {
  }

  /** The window never shows more alerts than were ever pushed into it. */
  lemma RecentSum(samples: seq<nat>)
    ensures Sum(Recent(samples)) <= Sum(samples)
  {
    var padded := Zeros(WindowWidth) + samples;
    var k := |samples|;
    assert padded == padded[..k] + padded[k..];
    SumConcat(padded[..k], padded[k..]);
    SumConcat(Zeros(WindowWidth), samples);
    SumZeros(WindowWidth);
  }

  /**
   * How the counters relate to the events seen: `stats` holds each label's
   * count, `total` the number of events, `threats` the alert events, and
   * `threatCounter` the alert events after the first `lastTick` ones; the
   * samples pushed so far and the open interval add up to `threats`.
   */
  ghost predicate Tallied(stats: map<Label, nat>, total: nat, threats: nat, threatCounter: nat,
                          samples: seq<nat>, lastTick: nat, events: seq<PacketEvent>)
  {
    && (forall l :: l in stats && stats[l] == CountLabel(events, l))
    && total == |events|
    && threats == CountAlerts(events)
    && lastTick <= |events|
    && threatCounter == CountAlerts(events[lastTick..])
    && Sum(samples) + threatCounter == threats
  }

  /** The session starts tallied: zero counts for every label and no events, and the window is 20 zeros. */
  lemma InitiallyTallied()
    ensures Tallied(map[Benign := 0, Probe := 0, DoS := 0, R2L := 0, U2R := 0], 0, 0, 0, [], 0, [])
    ensures Recent([]) == Zeros(WindowWidth)
  {
    assert Zeros(WindowWidth) + [] == Zeros(WindowWidth);
    forall l: Label
      ensures l in map[Benign := 0, Probe := 0, DoS := 0, R2L := 0, U2R := 0]
    {
      match l
      case Benign =>
      case Probe =>
      case DoS =>
      case R2L =>
      case U2R =>
    }
  }

  /** The handler's counter updates keep the tally. */
  lemma TalliedAfterEvent(stats: map<Label, nat>, total: nat, threats: nat, threatCounter: nat,
                          samples: seq<nat>, lastTick: nat, events: seq<PacketEvent>, e: PacketEvent)
    requires Tallied(stats, total, threats, threatCounter, samples, lastTick, events)
    ensures var bump := if e.alert then 1 else 0;
            Tallied(stats[e.category := stats[e.category] + 1], total + 1, threats + bump,
                    threatCounter + bump, samples, lastTick, events + [e])
  {
    forall l
      ensures CountLabel(events + [e], l) == CountLabel(events, l) + (if e.category == l then 1 else 0)
    {
      CountsAppend(events, e, l);
    }
    AlertsSinceAppend(events, lastTick, e);
  }

  /** The tick's push-and-reset keeps the tally. */
  lemma TalliedAfterTick(stats: map<Label, nat>, total: nat, threats: nat, threatCounter: nat,
                         samples: seq<nat>, lastTick: nat, events: seq<PacketEvent>)
    requires Tallied(stats, total, threats, threatCounter, samples, lastTick, events)
    ensures Tallied(stats, total, threats, 0, samples + [threatCounter], |events|, events)
  {
  }

  /** The module-level state of the dashboard script. */
  class LiveState {
    /** `stats`: events seen per label. */
    var stats: map<Label, nat>
    /** `total`: events seen. */
    var total: nat
    /** `threats`: alert events seen. */
    var threats: nat
    /** `threatCounter`: alert events since the last tick. */
    var threatCounter: nat
    var isPaused: bool
    /** The intensity chart's data, oldest sample first. */
    var window: seq<nat>
    /** The activity log, most recent row first. */
    var log: seq<LogRow>

    /** Every event handled so far, in arrival order. */
    ghost var events: seq<PacketEvent>
    /** Every sample a tick has pushed so far, in order. */
    ghost var samples: seq<nat>
    /** The number of events handled before the last tick. */
    ghost var lastTick: nat

    ghost predicate Valid()
      reads this
    {
      && Tallied(stats, total, threats, threatCounter, samples, lastTick, events)
      && window == Recent(samples)
      && |log| <= LogCapacity
    }

    /** The session's start: zero counts, a window of 20 zeros, an empty log, not paused. */
    constructor ()
      ensures Valid()
      ensures stats == map[Benign := 0, Probe := 0, DoS := 0, R2L := 0, U2R := 0]
      ensures total == 0 && threats == 0 && threatCounter == 0 && !isPaused
      ensures window == Zeros(WindowWidth) && log == []
    {
      stats := map[Benign := 0, Probe := 0, DoS := 0, R2L := 0, U2R := 0];
      total, threats, threatCounter := 0, 0, 0;
      isPaused := false;
      window := Zeros(WindowWidth);
      log := [];
      events, samples, lastTick := [], [], 0;
      new;
      InitiallyTallied();
    }

    /**
     * The `new_pkt` handler. Returns whether the alert cue sounds.
     * Counters always advance; the log takes the row only when not paused.
     */
    method HandlePacket(e: PacketEvent) returns (sounds: bool)
      requires Valid()
      modifies this
      ensures Valid()
      ensures events == old(events) + [e]
      ensures total == old(total) + 1
      ensures stats == old(stats)[e.category := old(stats)[e.category] + 1]
      ensures threats == old(threats) + (if e.alert then 1 else 0)
      ensures threatCounter == old(threatCounter) + (if e.alert then 1 else 0)
      ensures sounds == AlertSounds(e.alert, e.category)
      ensures isPaused == old(isPaused) && window == old(window) && samples == old(samples)
      ensures log == if old(isPaused) then old(log) else InsertRow(old(log), RowOf(e))
    {
      sounds := CountEvent(e);
      if !isPaused {
        ShowRow(RowOf(e));
      }
    }

    /** The handler's counting part (static/script.js:94-103, 121): everything but the log. */
    method CountEvent(e: PacketEvent) returns (sounds: bool)
      requires Valid()
      modifies this`total, this`threats, this`threatCounter, this`stats, this`events
      ensures Valid()
      ensures events == old(events) + [e]
      ensures total == old(total) + 1
      ensures stats == old(stats)[e.category := old(stats)[e.category] + 1]
      ensures threats == old(threats) + (if e.alert then 1 else 0)
      ensures threatCounter == old(threatCounter) + (if e.alert then 1 else 0)
      ensures sounds == AlertSounds(e.alert, e.category)
      ensures isPaused == old(isPaused) && window == old(window) && samples == old(samples)
      ensures log == old(log)
    {
      TalliedAfterEvent(stats, total, threats, threatCounter, samples, lastTick, events, e);
      total := total + 1;
      sounds := false;
      if e.alert {
        threats := threats + 1;
        threatCounter := threatCounter + 1;
        sounds := AlertSounds(e.alert, e.category);
      }
      stats := stats[e.category := stats[e.category] + 1];
      events := events + [e];
    }

    /** The handler's display part (static/script.js:107-117): the row goes on top of the log. */
    method ShowRow(row: LogRow)
      requires Valid()
      modifies this`log
      ensures Valid()
      ensures log == InsertRow(old(log), row)
    {
      log := InsertRow(log, row);
    }

    /** The 2-second tick: push the accumulator as the newest sample, drop the oldest, reset it. */
    method Tick()
      requires Valid()
      modifies this
      ensures Valid()
      ensures window == old(window)[1..] + [old(threatCounter)]
      ensures |window| == WindowWidth
      ensures samples == old(samples) + [old(threatCounter)]
      ensures threatCounter == 0
      ensures stats == old(stats) && total == old(total) && threats == old(threats)
      ensures isPaused == old(isPaused) && log == old(log) && events == old(events)
    {
      RecentTick(samples, threatCounter);
      TalliedAfterTick(stats, total, threats, threatCounter, samples, lastTick, events);
      window := window + [threatCounter];
      window := window[1..];
      samples := samples + [threatCounter];
      threatCounter := 0;
      lastTick := |events|;
    }

    /** The pause button: flips the flag and nothing else. */
    method TogglePause()
      requires Valid()
      modifies this
      ensures Valid()
      ensures isPaused == !old(isPaused)
      ensures stats == old(stats) && total == old(total) && threats == old(threats)
      ensures threatCounter == old(threatCounter) && window == old(window) && log == old(log)
      ensures events == old(events) && samples == old(samples)
    {
      isPaused := !isPaused;
    }

    /** `clearLogs`: empties the log if the user confirmed, and touches nothing else. */
    method ClearLogs(confirmed: bool)
      requires Valid()
      modifies this
      ensures Valid()
      ensures log == (if confirmed then [] else old(log))
      ensures stats == old(stats) && total == old(total) && threats == old(threats)
      ensures threatCounter == old(threatCounter) && window == old(window)
      ensures isPaused == old(isPaused) && events == old(events) && samples == old(samples)
    {
      if confirmed {
        log := [];
      }
    }

    /** The distribution chart's data: the counts in label order; they add up to `total`. */
    function Distribution(): (counts: seq<nat>)
      reads this
      requires Valid()
      ensures |counts| == |AllLabels|
      ensures forall i :: 0 <= i < |AllLabels| ==> counts[i] == stats[AllLabels[i]]
      ensures Sum(counts) == total
    {
      LabelCountsSum(events);
      var counts := [stats[Benign], stats[Probe], stats[DoS], stats[R2L], stats[U2R]];
      SumFive(stats[Benign], stats[Probe], stats[DoS], stats[R2L], stats[U2R]);
      counts
    }

    /** What the handler and the tick keep true at every point of the session. */
    lemma SessionInvariants()
      requires Valid()
      ensures stats[Benign] + stats[Probe] + stats[DoS] + stats[R2L] + stats[U2R] == total
      ensures threats <= total
      ensures Sum(window) + threatCounter <= threats
      ensures |window| == WindowWidth && |log| <= LogCapacity
    {
      LabelCountsSum(events);
      RecentSum(samples);
    }
  }

  /** Pressing pause twice leaves the dashboard as it was. */
  method TogglePauseTwice(d: LiveState)
    requires d.Valid()
    modifies d
    ensures d.Valid() && d.isPaused == old(d.isPaused)
    ensures d.stats == old(d.stats) && d.total == old(d.total) && d.threats == old(d.threats)
    ensures d.threatCounter == old(d.threatCounter) && d.window == old(d.window) && d.log == old(d.log)
    ensures d.events == old(d.events) && d.samples == old(d.samples)
  {
    d.TogglePause();
    d.TogglePause();
  }
}
