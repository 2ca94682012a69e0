/**
 * The classification vocabulary shared by the sensor (app.py) and the
 * dashboard (static/script.js), and the event record the sensor emits.
 */
module Labels {

  /** The five classes of ATTACK_LABELS, in key order. */
  datatype Label = Benign | Probe | DoS | R2L | U2R

  /** The enumeration order used for the dashboard's `stats` object. */
  const AllLabels: seq<Label> := [Benign, Probe, DoS, R2L, U2R]

  /** The integer key of a label in ATTACK_LABELS. */
  function Index(l: Label): nat
  {
    match l
    case Benign => 0
    case Probe => 1
    case DoS => 2
    case R2L => 3
    case U2R => 4
  }

  /** The text the sensor emits for a label and the dashboard displays. */
  function Name(l: Label): string
  {
    match l
    case Benign => "Benign"
    case Probe => "Probe"
    case DoS => "DoS"
    case R2L => "R2L"
    case U2R => "U2R"
  }

  /** Every label sits at its own key in `AllLabels`, and names are pairwise distinct. */
  lemma LabelsEnumerated(l: Label, m: Label)
    ensures Index(l) < |AllLabels| && AllLabels[Index(l)] == l
    ensures Name(l) == Name(m) <==> l == m
  {
  }

  /** One `new_pkt` message: the fields emitted at app.py:77-83. */
  datatype PacketEvent = PacketEvent(time: string, src: string, dst: string, category: Label, alert: bool)
}
