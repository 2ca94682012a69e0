/**
 * The per-packet step of the sensor (app.py, `sniffer_worker`): record the
 * sighting in a history bounded at 2000 entries, count how many recent
 * sightings share the packet's source, classify, and emit the event the
 * dashboard consumes.
 */
module Sensor {
  import opened Wrappers
  import opened Labels
  import Dashboard

  /** `maxlen` of `pkt_history` (app.py:30). */
  const HistoryLimit: nat := 2000
  /** Sightings younger than this many seconds count towards the density (app.py:71). */
  const DensitySpan: real := 2.0

  /** One `pkt_history` entry: when a packet was seen, and from which source. */
  datatype Sighting = Sighting(time: real, src: string)

  /** `pkt_history`: a deque that drops its oldest entry when an append would overflow it. */
  class PacketHistory {
    var entries: seq<Sighting>

    ghost predicate Valid()
      reads this
    {
      |entries| <= HistoryLimit
    }

    constructor ()
      ensures Valid() && entries == []
    {
      entries := [];
    }

    /** `append`: the sighting becomes the newest entry; a full history loses its oldest one. */
    method Append(x: Sighting)
      requires Valid()
      modifies this
      ensures Valid()
      ensures entries == if |old(entries)| == HistoryLimit then old(entries)[1..] + [x] else old(entries) + [x]
    {
      entries := entries + [x];
      if |entries| > HistoryLimit {
        entries := entries[1..];
      }
    }
  }

  /** Whether a sighting counts towards the density of `src` at time `now`. */
  predicate Near(x: Sighting, now: real, src: string)
  {
    x.time > now - DensitySpan && x.src == src
  }

  /** The density feature: the sightings of `src` strictly after `now - 2`. */
  function Density(h: seq<Sighting>, now: real, src: string): (n: nat)
    ensures n <= |h|
  {
    if h == [] then 0
    else Density(h[..|h| - 1], now, src) + (if Near(h[|h| - 1], now, src) then 1 else 0)
  }

  /** The density of a history is the sum of the densities of its parts. */
  lemma {:induction false} DensityConcat(a: seq<Sighting>, b: seq<Sighting>, now: real, src: string)
    ensures Density(a + b, now, src) == Density(a, now, src) + Density(b, now, src)
  {
    if b == [] {
      assert a + b == a;
    } else {
      assert (a + b)[..|a + b| - 1] == a + b[..|b| - 1];
      DensityConcat(a, b[..|b| - 1], now, src);
    }
  }

  /**
   * Appending a sighting of `src` at `now` raises the density by one, less
   * one if the entry it evicts was itself a recent sighting of `src`.
   */
  lemma DensityAfterAppend(h: seq<Sighting>, now: real, src: string)
    requires |h| <= HistoryLimit
    ensures var x := Sighting(now, src);
            var h' := if |h| == HistoryLimit then h[1..] + [x] else h + [x];
            Density(h', now, src) ==
              Density(h, now, src) + 1 - (if |h| == HistoryLimit && Near(h[0], now, src) then 1 else 0)
  {
    var x := Sighting(now, src);
    DensityConcat(h, [x], now, src);
    if |h| == HistoryLimit {
      assert h == [h[0]] + h[1..];
      DensityConcat([h[0]], h[1..], now, src);
      DensityConcat(h[1..], [x], now, src);
      assert [h[0]][..0] == [];
    }
    assert [x][..0] == [];
  }

  /** `ATTACK_LABELS[pred]`: defined exactly for the keys 0 to 4, each naming its own label. */
  function AttackLabel(pred: int): (r: Option<Label>)
    ensures r.Some? <==> 0 <= pred < |AllLabels|
    ensures r.Some? ==> Index(r.value) == pred && AllLabels[pred] == r.value
  {
    match pred
    case 0 => Some(Benign)
    case 1 => Some(Probe)
    case 2 => Some(DoS)
    case 3 => Some(R2L)
    case 4 => Some(U2R)
    case _ => None
  }

  /** Every label is the value of exactly one key. */
  lemma AttackLabelsOneToOne(l: Label, pred: int)
    ensures AttackLabel(pred) == Some(l) <==> pred == Index(l)
  {
  }

  /** The protocol feature: 6 for TCP, else 17 for UDP, else 1. */
  function Protocol(hasTcp: bool, hasUdp: bool): (p: int)
    ensures p == 6 <==> hasTcp
    ensures p == 17 <==> !hasTcp && hasUdp
    ensures p == 1 <==> !hasTcp && !hasUdp
  {
    if hasTcp then 6 else if hasUdp then 17 else 1
  }

  /**
   * The emitted event for a prediction. A prediction outside the keys makes the
   * lookup raise, the bare `except` skips the packet, and nothing is emitted.
   */
  function Emit(clock: string, src: string, dst: string, pred: int): (r: Option<PacketEvent>)
    ensures r.Some? <==> 0 <= pred < |AllLabels|
    ensures r.Some? ==> r.value.time == clock && r.value.src == src && r.value.dst == dst
    ensures r.Some? ==> Index(r.value.category) == pred
    ensures r.Some? ==> (r.value.alert <==> pred != 0)
    ensures r.Some? ==> (r.value.alert <==> r.value.category != Benign)
  {
    var category :- AttackLabel(pred);
    Some(PacketEvent(clock, src, dst, category, pred != 0))
  }

  /** The dashboard sounds its cue for an emitted event exactly when the prediction is 2, 3 or 4. */
  lemma EmittedAlertSounds(clock: string, src: string, dst: string, pred: int)
    requires Emit(clock, src, dst, pred).Some?
    ensures var e := Emit(clock, src, dst, pred).value;
            Dashboard.AlertSounds(e.alert, e.category) <==> 2 <= pred
  {
  }

  /**
   * The body of the capture loop for one packet. `now` and `clock` stand for
   * `time.time()` and the formatted wall-clock time, `predict` for the trained
   * model. Returns the density feature and the event emitted, if any.
   */
  method ProcessPacket(history: PacketHistory, now: real, clock: string, length: int,
                       hasTcp: bool, hasUdp: bool, src: string, dst: string,
                       predict: seq<int> -> int)
    returns (density: nat, event: Option<PacketEvent>)
    requires history.Valid()
    modifies history
    ensures history.Valid()
    ensures history.entries == if |old(history.entries)| == HistoryLimit
                               then old(history.entries)[1..] + [Sighting(now, src)]
                               else old(history.entries) + [Sighting(now, src)]
    ensures density == Density(history.entries, now, src)
    ensures 1 <= density <= |history.entries|
    ensures event == Emit(clock, src, dst, predict([length, Protocol(hasTcp, hasUdp), density, density]))
  {
    var proto := Protocol(hasTcp, hasUdp);
    history.Append(Sighting(now, src));
    density := Density(history.entries, now, src);
    var pred := predict([length, proto, density, density]);
    event := Emit(clock, src, dst, pred);
  }
}
