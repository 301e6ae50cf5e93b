/**
 * The driver's connector record and the connector table codec.
 *
 * The AMD driver keeps one record per physical port; the engine reads and
 * writes four of its fields. The legacy and the modern record layouts are
 * handled by identical code, so one record shape stands for both, and the
 * byte layout of a record is a parameter (`Layout`) rather than invented here.
 */
module Connectors {
  import opened Types

  /** One connector record: connector type, sense id, transmitter and priority. */
  datatype Connector = Connector(kind: u32, sense: u8, transmitter: u8, priority: u16)

  // Connector type codes of the AMD framebuffer records.
  const ConnectorLVDS: u32 := 0x2
  const ConnectorDigitalDVI: u32 := 0x4
  const ConnectorVGA: u32 := 0x10
  const ConnectorDP: u32 := 0x400
  const ConnectorHDMI: u32 := 0x800

  /** Two tables that agree everywhere except, possibly, in the priority fields. */
  predicate SameButPriority(a: seq<Connector>, b: seq<Connector>)
  {
    |a| == |b| &&
    forall j :: 0 <= j < |a| ==>
      a[j].kind == b[j].kind && a[j].sense == b[j].sense && a[j].transmitter == b[j].transmitter
  }

  /** Two tables that agree everywhere except, possibly, in the transmitter fields. */
  predicate SameButTransmitter(a: seq<Connector>, b: seq<Connector>)
  {
    |a| == |b| &&
    forall j :: 0 <= j < |a| ==>
      a[j].kind == b[j].kind && a[j].sense == b[j].sense && a[j].priority == b[j].priority
  }

  /**
   * The index of the first record, in array order, whose sense id is `sense`.
   * Both the transmitter correction and the sense round of the priority pass
   * scan the table this way and stop at the first hit.
   */
  function FirstWithSense(cons: seq<Connector>, sense: u8): (r: Option<nat>)
    ensures r.Some? ==> r.value < |cons| && cons[r.value].sense == sense
    decreases |cons|
  {
    if cons == [] then None
    else if cons[0].sense == sense then Some(0)
    else match FirstWithSense(cons[1..], sense)
      case None => None
      case Some(k) => Some(k + 1)
  }

  /** The scan finds the first record with the sense id, and finds none exactly when no record has it. */
  lemma {:induction false} FirstWithSenseIsFirst(cons: seq<Connector>, sense: u8)
    ensures var r := FirstWithSense(cons, sense);
      (r.Some? ==> forall k :: 0 <= k < r.value ==> cons[k].sense != sense) &&
      (r.None? <==> forall k :: 0 <= k < |cons| ==> cons[k].sense != sense)
    decreases |cons|
  {
    if cons != [] && cons[0].sense != sense {
      FirstWithSenseIsFirst(cons[1..], sense);
      forall k | 1 <= k < |cons| ensures cons[k] == cons[1..][k - 1] {
      }
    }
  }

  /** The scan above looks at nothing but the sense ids. */
  lemma {:induction false} FirstWithSenseReadsOnlySenses(a: seq<Connector>, b: seq<Connector>, sense: u8)
    requires |a| == |b|
    requires forall j :: 0 <= j < |a| ==> a[j].sense == b[j].sense
    ensures FirstWithSense(a, sense) == FirstWithSense(b, sense)
  {
    if a != [] && a[0].sense != sense {
      FirstWithSenseReadsOnlySenses(a[1..], b[1..], sense);
    }
  }

  /**
   * The byte layout of one record in the active driver generation: its size
   * and how its bytes read as a record. Which of the two layouts is active is
   * decided once per boot by the driver generation.
   */
  datatype Layout = Layout(recordSize: nat, decode: seq<u8> -> Connector)

  /**
   * RADConnectors::valid: an override blob of `byteCount` bytes holds exactly
   * `count` records of the active layout.
   */
  predicate ValidSize(layout: Layout, byteCount: nat, count: nat)
  {
    byteCount == count * layout.recordSize
  }

  /** The `k`-th record of a blob, read with the active layout. */
  function RecordAt(layout: Layout, bytes: seq<u8>, k: nat): Connector
    requires (k + 1) * layout.recordSize <= |bytes|
  {
    assert k * layout.recordSize <= (k + 1) * layout.recordSize;
    layout.decode(bytes[k * layout.recordSize .. (k + 1) * layout.recordSize])
  }

  /** A blob holds at least `count` whole records. */
  predicate HoldsRecords(layout: Layout, bytes: seq<u8>, count: nat)
  {
    count * layout.recordSize <= |bytes|
  }

  /** Every record that precedes the `count`-th lies inside the blob. */
  lemma RecordInside(layout: Layout, bytes: seq<u8>, count: nat, k: nat)
    requires HoldsRecords(layout, bytes, count) && k < count
    ensures (k + 1) * layout.recordSize <= |bytes|
  {
    assert (k + 1) * layout.recordSize <= count * layout.recordSize by {
      MulMono(k + 1, count, layout.recordSize);
    }
  }

  lemma MulMono(a: nat, b: nat, c: nat)
    requires a <= b
    ensures a * c <= b * c
  {
  }
}
