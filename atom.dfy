/**
 * The AtomBIOS object tables the engine reads, and the decoding helpers it
 * relies on.
 *
 * The helpers that live in headers (`isEncoder`, `getTxEnc`, `getSenseID`,
 * `getConnectorID`) are not defined here: they are the function-valued fields
 * of a `Decoder`, which every operation that needs them takes as a parameter,
 * so the model fixes none of their bit layouts.
 */
module Atom {
  import opened Types

  // Object id fields and connector object ids of AtomBIOS (ObjectID.h).
  const ObjectTypeUnit: nat := 0x1000  // 1 << OBJECT_TYPE_SHIFT (12); OBJECT_TYPE_MASK is 0x7000
  const GraphObjectTypeEncoder: nat := 2
  const ConnectorObjectIdDualLinkDviI: u8 := 0x02
  const ConnectorObjectIdDualLinkDviD: u8 := 0x04
  const ConnectorObjectIdLvds: u8 := 0x0E

  /** A display path entry: the packed graphics object ids and the connector object id. */
  datatype DisplayPath = DisplayPath(graphicObjIds: u16, connObjectId: u16)

  /** A connector object entry: where its I2C/HPD record starts, from the table base. */
  datatype ConnectorObject = ConnectorObject(recordOffset: u16)

  /** A transmitter and encoder pair decoded from a graphics object id. */
  datatype TxEnc = TxEnc(transmitter: u8, encoder: u8)

  /**
   * The header helpers. `senseId` reads the sense record found at a firmware
   * address and gives 0 when no sense id is detected there.
   */
  datatype Decoder = Decoder(
    isEncoder: u16 -> bool,
    txEnc: u16 -> Option<TxEnc>,
    senseId: int -> u8,
    connectorId: u16 -> u8)

  /**
   * The connector info the driver hands to its translate hook: the connector
   * object id, the graphics object ids, the address of the I2C record and the
   * bytes of the HPD record.
   */
  datatype AtomConnectorInfo = AtomConnectorInfo(
    connObjectId: u16, graphicObjIds: u16, i2cRecord: int, hpdRecord: seq<u8>)

  /**
   * The object type field of a packed object id, `(id & OBJECT_TYPE_MASK) >>
   * OBJECT_TYPE_SHIFT`: the mask 0x7000 keeps bits 12 to 14, which the shift
   * by 12 brings down.
   */
  function ObjectType(id: u16): (t: nat)
    ensures t < 8
  {
    (id as int / ObjectTypeUnit) % 8
  }

  /** The object type is the masked and shifted bit field of the id's 16-bit pattern `bits`. */
  lemma ObjectTypeIsMaskedField(id: u16, bits: bv16)
    requires bits as int == id as int
    ensures ObjectType(id) == ((bits & 0x7000) >> 12) as int
  {
    MaskShiftIsDivMod(bits);
    QuotientToInt(bits);
    SmallRemainderToInt(bits / 0x1000);
  }

  lemma MaskShiftIsDivMod(bits: bv16)
    ensures (bits & 0x7000) >> 12 == (bits / 0x1000) % 8
  {
  }

  lemma QuotientToInt(bits: bv16)
    ensures (bits / 0x1000) as int == bits as int / 0x1000
  {
  }

  lemma SmallRemainderToInt(y: bv16)
    requires y < 16
    ensures (y % 8) as int == y as int % 8
  {
  }

  /** A little-endian 16-bit value from two bytes. */
  function LittleEndian16(lo: u8, hi: u8): (r: u16)
    ensures r as int % 0x100 == lo as int && r as int / 0x100 == hi as int
  {
    (lo as int + 0x100 * hi as int) as u16
  }

  /**
   * An `ATOM_SRC_DST_TABLE_FOR_ONE_OBJECT` as laid out in the HPD record: a
   * count byte followed by that many byte-packed little-endian source ids.
   */
  predicate WellFormedSourceList(hpd: seq<u8>)
  {
    |hpd| > 0 && 1 + 2 * hpd[0] as int <= |hpd|
  }

  /** The `i`-th source object id of the list. */
  function SourceId(hpd: seq<u8>, i: nat): u16
    requires WellFormedSourceList(hpd) && i < hpd[0] as int
  {
    LittleEndian16(hpd[1 + 2 * i], hpd[2 + 2 * i])
  }

  /** A source id whose object type is "encoder". */
  predicate IsEncoderSource(hpd: seq<u8>, i: nat)
    requires WellFormedSourceList(hpd) && i < hpd[0] as int
  {
    ObjectType(SourceId(hpd, i)) == GraphObjectTypeEncoder
  }

  /**
   * The index of the first source id, from the `i`-th on, whose object type
   * is "encoder", or none when no listed id from there on is an encoder.
   */
  function FirstEncoderFrom(hpd: seq<u8>, i: nat): (r: Option<nat>)
    requires WellFormedSourceList(hpd) && i <= hpd[0] as int
    ensures r.None? <==> forall k :: i <= k < hpd[0] as int ==> !IsEncoderSource(hpd, k)
    ensures r.Some? ==> i <= r.value < hpd[0] as int && IsEncoderSource(hpd, r.value)
    ensures r.Some? ==> forall m :: i <= m < r.value ==> !IsEncoderSource(hpd, m)
    decreases hpd[0] as int - i
  {
    if i == hpd[0] as int then None
    else if IsEncoderSource(hpd, i) then Some(i)
    else FirstEncoderFrom(hpd, i + 1)
  }

  /** The encoder id the translate hook acts on. */
  function FirstEncoderSource(hpd: seq<u8>): Option<u16>
    requires WellFormedSourceList(hpd)
  {
    match FirstEncoderFrom(hpd, 0)
    case None => None
    case Some(k) => Some(SourceId(hpd, k))
  }

  /**
   * The scan of the translate hook over the source ids: it stops at the
   * first id whose object type is "encoder".
   */
  method FindEncoderSource(hpd: seq<u8>) returns (found: Option<u16>)
    requires WellFormedSourceList(hpd)
    ensures found == FirstEncoderSource(hpd)
  {
    var count := hpd[0];
    var i: u8 := 0;
    while i < count
      invariant 0 <= i <= count
      invariant FirstEncoderFrom(hpd, i as nat) == FirstEncoderFrom(hpd, 0)
    {
      var id := LittleEndian16(hpd[1 + 2 * i as int], hpd[2 + 2 * i as int]);
      if ObjectType(id) == GraphObjectTypeEncoder {
        return Some(id);
      }
      i := i + 1;
    }
    return None;
  }
}
