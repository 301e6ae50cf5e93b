/**
 * The DVI single-link transmitter correction.
 *
 * Some AMD boards report a transmitter for dual-link DVI and LVDS connectors
 * that the driver later masks with 0xCF, turning 0x10 into 0 and 0x11 into 1.
 * The correction puts back the transmitter decoded from the firmware object
 * table, for one connector at a time or for every display path of the table.
 */
module Autocorrect {
  import opened Types
  import opened Connectors
  import opened Atom

  /** The connector object ids the correction accepts. */
  predicate SupportedConnector(connector: u8)
  {
    connector == ConnectorObjectIdDualLinkDviI ||
    connector == ConnectorObjectIdDualLinkDviD ||
    connector == ConnectorObjectIdLvds
  }

  /** A transmitter that masking with 0xCF leaves as it is (bits 4 and 5 clear). */
  predicate MaskInvariant(transmitter: u8)
  {
    (transmitter as bv8) & 0xCF == transmitter as bv8
  }

  /** The current transmitter may be replaced by `txmit`. */
  predicate Replaceable(current: u8, txmit: u8)
  {
    current != txmit && MaskInvariant(current)
  }

  /** The index the correction acts on, if any. */
  function CorrectionTarget(cons: seq<Connector>, dviSingleLink: bool, connector: u8, sense: u8): Option<nat>
  {
    if dviSingleLink && SupportedConnector(connector) then FirstWithSense(cons, sense) else None
  }

  /**
   * The table after `autocorrectConnector(connector, sense, txmit, enc)`:
   * when the single-link mode is on and the connector is supported, the first
   * record with the given sense gets `txmit` as its transmitter if its current
   * transmitter differs and is unchanged by the 0xCF mask. The encoder id
   * plays no part.
   */
  function Autocorrected(cons: seq<Connector>, dviSingleLink: bool, connector: u8, sense: u8, txmit: u8): (r: seq<Connector>)
    ensures SameButTransmitter(r, cons)
    ensures !dviSingleLink || !SupportedConnector(connector) ==> r == cons
    ensures forall j :: 0 <= j < |r| ==>
      (r[j] != cons[j] <==>
        CorrectionTarget(cons, dviSingleLink, connector, sense) == Some(j) && Replaceable(cons[j].transmitter, txmit))
    ensures forall j :: 0 <= j < |r| && r[j] != cons[j] ==> r[j].transmitter == txmit
  {
    match CorrectionTarget(cons, dviSingleLink, connector, sense)
    case None => cons
    case Some(j) =>
      if Replaceable(cons[j].transmitter, txmit) then cons[j := cons[j].(transmitter := txmit)] else cons
  }

  /** At most one record changes per call. */
  lemma AutocorrectTouchesAtMostOne(cons: seq<Connector>, dviSingleLink: bool, connector: u8, sense: u8, txmit: u8, a: nat, b: nat)
    requires a < b < |cons|
    ensures Autocorrected(cons, dviSingleLink, connector, sense, txmit)[a] == cons[a] ||
            Autocorrected(cons, dviSingleLink, connector, sense, txmit)[b] == cons[b]
  {
  }

  /** Correcting twice with the same arguments changes nothing more. */
  lemma {:induction false} AutocorrectIdempotent(cons: seq<Connector>, dviSingleLink: bool, connector: u8, sense: u8, txmit: u8)
    ensures Autocorrected(Autocorrected(cons, dviSingleLink, connector, sense, txmit), dviSingleLink, connector, sense, txmit)
         == Autocorrected(cons, dviSingleLink, connector, sense, txmit)
  {
    var once := Autocorrected(cons, dviSingleLink, connector, sense, txmit);
    FirstWithSenseReadsOnlySenses(once, cons, sense);
  }

  /**
   * One display path of the table-wide pass: skipped unless its graphics
   * object is an encoder, its transmitter and encoder decode, and a non-zero
   * sense id is read at the table base plus its connector object's record offset.
   */
  function PathCorrected(cons: seq<Connector>, dviSingleLink: bool, dec: Decoder, baseAddr: int,
                         path: DisplayPath, obj: ConnectorObject): seq<Connector>
  {
    if !dec.isEncoder(path.graphicObjIds) then cons
    else match dec.txEnc(path.graphicObjIds)
      case None => cons
      case Some(te) =>
        var sense := dec.senseId(baseAddr + obj.recordOffset as int);
        if sense == 0 then cons
        else Autocorrected(cons, dviSingleLink, dec.connectorId(path.connObjectId), sense, te.transmitter)
  }

  /** The transmitter decoded from a display path's graphics object id. */
  function DecodedTransmitter(dec: Decoder, path: DisplayPath): Option<u8>
  {
    match dec.txEnc(path.graphicObjIds)
    case None => None
    case Some(te) => Some(te.transmitter)
  }

  /** The table after the first `k` display paths of the pass. */
  function PathsCorrected(cons: seq<Connector>, dviSingleLink: bool, dec: Decoder, baseAddr: int,
                          paths: seq<DisplayPath>, objs: seq<ConnectorObject>, k: nat): seq<Connector>
    requires k <= |paths| && k <= |objs|
  {
    if k == 0 then cons
    else PathCorrected(PathsCorrected(cons, dviSingleLink, dec, baseAddr, paths, objs, k - 1),
                       dviSingleLink, dec, baseAddr, paths[k - 1], objs[k - 1])
  }

  /** The pass only ever writes transmitters. */
  lemma {:induction false} PathsCorrectedOnlyTransmitters(cons: seq<Connector>, dviSingleLink: bool, dec: Decoder, baseAddr: int,
                                                          paths: seq<DisplayPath>, objs: seq<ConnectorObject>, k: nat)
    requires k <= |paths| && k <= |objs|
    ensures SameButTransmitter(PathsCorrected(cons, dviSingleLink, dec, baseAddr, paths, objs, k), cons)
  {
    if k > 0 {
      PathsCorrectedOnlyTransmitters(cons, dviSingleLink, dec, baseAddr, paths, objs, k - 1);
    }
  }

  /** With the single-link mode off the pass leaves the table as it was. */
  lemma {:induction false} PathsCorrectedDisabled(cons: seq<Connector>, dec: Decoder, baseAddr: int,
                                                  paths: seq<DisplayPath>, objs: seq<ConnectorObject>, k: nat)
    requires k <= |paths| && k <= |objs|
    ensures PathsCorrected(cons, false, dec, baseAddr, paths, objs, k) == cons
  {
    if k > 0 {
      PathsCorrectedDisabled(cons, dec, baseAddr, paths, objs, k - 1);
    }
  }

  /**
   * Every transmitter the pass writes is one decoded from some display path
   * at or before `k`: a record either keeps its transmitter or holds a decoded one.
   */
  lemma {:induction false} PathsCorrectedWritesDecoded(cons: seq<Connector>, dviSingleLink: bool, dec: Decoder, baseAddr: int,
                                                       paths: seq<DisplayPath>, objs: seq<ConnectorObject>, k: nat, j: nat)
    requires k <= |paths| && k <= |objs| && j < |cons|
    ensures |PathsCorrected(cons, dviSingleLink, dec, baseAddr, paths, objs, k)| == |cons|
    ensures var r := PathsCorrected(cons, dviSingleLink, dec, baseAddr, paths, objs, k);
      r[j].transmitter == cons[j].transmitter ||
      exists i :: 0 <= i < k && DecodedTransmitter(dec, paths[i]) == Some(r[j].transmitter)
  {
    if k > 0 {
      PathsCorrectedWritesDecoded(cons, dviSingleLink, dec, baseAddr, paths, objs, k - 1, j);
      var before := PathsCorrected(cons, dviSingleLink, dec, baseAddr, paths, objs, k - 1);
      var r := PathsCorrected(cons, dviSingleLink, dec, baseAddr, paths, objs, k);
      if r[j].transmitter != before[j].transmitter {
        assert DecodedTransmitter(dec, paths[k - 1]) == Some(r[j].transmitter);
      }
    }
  }

  // ---- The translate hooks ----

  /**
   * The connector the V1 translate hook acts on: when the I2C record gives a
   * non-zero sense id, the first encoder among the HPD record's source ids
   * is decoded and, if it decodes, corrects the record.
   */
  function TranslatedV1(cons: seq<Connector>, dviSingleLink: bool, dec: Decoder, info: AtomConnectorInfo): seq<Connector>
    requires dec.senseId(info.i2cRecord) != 0 ==> WellFormedSourceList(info.hpdRecord)
  {
    var sense := dec.senseId(info.i2cRecord);
    if sense == 0 then cons
    else match FirstEncoderSource(info.hpdRecord)
      case None => cons
      case Some(id) =>
        match dec.txEnc(id)
        case None => cons
        case Some(te) => Autocorrected(cons, dviSingleLink, dec.connectorId(info.connObjectId), sense, te.transmitter)
  }

  /** The same for the V2 hook, which decodes the graphics object ids of the info itself. */
  function TranslatedV2(cons: seq<Connector>, dviSingleLink: bool, dec: Decoder, info: AtomConnectorInfo): seq<Connector>
  {
    var sense := dec.senseId(info.i2cRecord);
    if sense == 0 then cons
    else match dec.txEnc(info.graphicObjIds)
      case None => cons
      case Some(te) => Autocorrected(cons, dviSingleLink, dec.connectorId(info.connObjectId), sense, te.transmitter)
  }

  /**
   * The V1 hook writes only a transmitter, and only one decoded from the
   * first listed encoder source: a later encoder in the list plays no part.
   */
  lemma TranslatedV1WritesFirstEncoder(cons: seq<Connector>, dviSingleLink: bool, dec: Decoder, info: AtomConnectorInfo, j: nat)
    requires dec.senseId(info.i2cRecord) != 0 ==> WellFormedSourceList(info.hpdRecord)
    requires j < |cons|
    ensures SameButTransmitter(TranslatedV1(cons, dviSingleLink, dec, info), cons)
    ensures var r := TranslatedV1(cons, dviSingleLink, dec, info);
      r[j] != cons[j] ==>
        dec.senseId(info.i2cRecord) != 0 &&
        exists k :: 0 <= k < info.hpdRecord[0] as int && FirstEncoderFrom(info.hpdRecord, 0) == Some(k) &&
          dec.txEnc(SourceId(info.hpdRecord, k)).Some? &&
          r[j].transmitter == dec.txEnc(SourceId(info.hpdRecord, k)).value.transmitter
  {
    var r := TranslatedV1(cons, dviSingleLink, dec, info);
    if r[j] != cons[j] {
      var k := FirstEncoderFrom(info.hpdRecord, 0).value;
      assert FirstEncoderFrom(info.hpdRecord, 0) == Some(k);
    }
  }

  /** Without a sense id, or with the single-link mode off, neither hook changes the record. */
  lemma TranslatedIdle(cons: seq<Connector>, dviSingleLink: bool, dec: Decoder, info: AtomConnectorInfo)
    requires dec.senseId(info.i2cRecord) != 0 ==> WellFormedSourceList(info.hpdRecord)
    requires dec.senseId(info.i2cRecord) == 0 || !dviSingleLink
    ensures TranslatedV1(cons, dviSingleLink, dec, info) == cons
    ensures TranslatedV2(cons, dviSingleLink, dec, info) == cons
  {
  }
}
