/**
 * The AMD display support object: its boot flags, the provider slots that
 * are set while a controller starts, the power-gating switch names, and the
 * hooks that correct the driver's connector table.
 */
module Rad {
  import opened Types
  import opened Connectors
  import opened Atom
  import opened Autocorrect
  import opened Priority
  import opened Properties
  import Hardware

  /** A registry property as `updateConnectorsInfo` reads it. */
  datatype Property = Absent | NotData | Blob(bytes: seq<u8>)

  /**
   * The controller properties the connector update reads: "connectors",
   * "connector-count" (when it reads as a 32-bit value) and
   * "connector-priority" (when it is data).
   */
  datatype ControllerProps = ControllerProps(
    connectors: Property, connectorCount: Option<u32>, connectorPriority: Option<seq<u8>>)

  /**
   * The firmware object tables, when the driver hands over its AtomBIOS
   * helper: the address of the common table, and the display path and
   * connector object tables with their entries.
   */
  datatype AtomTables = AtomTables(commonTable: int, displayPaths: seq<DisplayPath>, connectorObjects: seq<ConnectorObject>)

  /** The three `getConnectorsInfo` hooks: the modern driver's V1 and V2, and the legacy driver's. */
  datatype ConnectorsHook = HookV1 | HookV2 | HookLegacy

  /**
   * The firmware tables a hook passes to the update, given the tables its
   * driver would hand over: the V2 hook never passes any, the V1 hook none
   * from 10.13 (Darwin 17) on, the legacy hook always its driver's.
   */
  function HookTables(hook: ConnectorsHook, version: nat, tables: Option<AtomTables>): Option<AtomTables>
  {
    match hook
    case HookV1 => if version >= Hardware.HighSierra then None else tables
    case HookV2 => None
    case HookLegacy => tables
  }

  /** The result of the connector update: the new table, its size, and the argument of the property fix, if it runs. */
  datatype Update = Update(table: seq<Connector>, size: u8, propertyFix: Option<nat>)

  /** The size the update stores: a "connector-count" override applies whenever a connectors blob exists. */
  function OverrideSize(props: ControllerProps, sz: u8): u8
  {
    if props.connectors.Blob? && props.connectorCount.Some? then Trunc8(props.connectorCount.value) else sz
  }

  /** The connectors blob is taken: non-empty, for a non-zero size, and exactly that many records long. */
  predicate OverrideAccepted(layout: Layout, props: ControllerProps, sz: u8)
  {
    props.connectors.Blob? && |props.connectors.bytes| > 0 && OverrideSize(props, sz) > 0 &&
    ValidSize(layout, |props.connectors.bytes|, OverrideSize(props, sz) as nat)
  }

  /** `cons` with its first `n` records read from the blob. */
  function Copied(cons: seq<Connector>, layout: Layout, bytes: seq<u8>, n: nat): (r: seq<Connector>)
    requires n <= |cons| && HoldsRecords(layout, bytes, n)
    ensures |r| == |cons|
  {
    seq(|cons|, k requires 0 <= k < |cons| =>
      if k < n then (RecordInside(layout, bytes, n, k); RecordAt(layout, bytes, k)) else cons[k])
  }

  /** A function on the first `sz` records applied in place of them. */
  function WithPrefix(cons: seq<Connector>, sz: nat, front: seq<Connector>): seq<Connector>
    requires sz <= |cons|
  {
    front + cons[sz..]
  }

  /** The table after the inference branch: autocorrect when the tables agree, then the priority pass if asked for. */
  function Inferred(cons: seq<Connector>, sz: u8, dviSingleLink: bool, atom: Option<AtomTables>, dec: Decoder,
                    priority: Option<seq<u8>>): (r: seq<Connector>)
    requires sz as int <= |cons|
    requires atom.Some? ==> |atom.value.displayPaths| < 0x100 && |atom.value.connectorObjects| < 0x100
    ensures |r| == |cons|
  {
    var corrected :=
      if atom.Some? && |atom.value.displayPaths| == |atom.value.connectorObjects| then
        var t := atom.value;
        PathsCorrectedOnlyTransmitters(cons[..sz], dviSingleLink, dec, t.commonTable - 4, t.displayPaths, t.connectorObjects, |t.displayPaths|);
        WithPrefix(cons, sz as nat, PathsCorrected(cons[..sz], dviSingleLink, dec, t.commonTable - 4, t.displayPaths, t.connectorObjects, |t.displayPaths|))
      else cons;
    if priority.Some? then
      var senses := priority.value[..|priority.value| % 0x100];
      WithPrefix(corrected, sz as nat, Reprioritised(corrected[..sz], senses))
    else corrected
  }

  /**
   * `updateConnectorsInfo`: a "connectors" blob overrides the table (and
   * "connector-count" its size) and nothing is inferred, whether or not the
   * blob is taken; a non-data "connectors" property changes nothing; with
   * no such property the table is corrected from the firmware tables and
   * reprioritised.
   */
  function Updated(cons: seq<Connector>, sz: u8, dviSingleLink: bool, atom: Option<AtomTables>, dec: Decoder,
                   layout: Layout, props: ControllerProps): (u: Update)
    requires sz as int <= |cons|
    requires OverrideAccepted(layout, props, sz) ==> OverrideSize(props, sz) as int <= |cons|
    requires atom.Some? ==> |atom.value.displayPaths| < 0x100 && |atom.value.connectorObjects| < 0x100
    ensures |u.table| == |cons|
  {
    match props.connectors
    case Blob(bytes) =>
      var n := OverrideSize(props, sz);
      if OverrideAccepted(layout, props, sz) then
        Update(Copied(cons, layout, bytes, n as nat), n, Some(|bytes|))
      else Update(cons, n, None)
    case NotData => Update(cons, sz, None)
    case Absent =>
      Update(Inferred(cons, sz, dviSingleLink, atom, dec, props.connectorPriority), sz, Some(sz as nat))
  }

  // ---- Properties of the update ----

  /**
   * With a "connectors" property present nothing is inferred: the table is
   * either the copied blob or left as it was, the "connector-count" override
   * holds even for a rejected blob, and the property fix gets the blob's
   * byte length.
   */
  lemma UpdateOverrideSkipsInference(cons: seq<Connector>, sz: u8, dviSingleLink: bool, atom: Option<AtomTables>,
                                     dec: Decoder, layout: Layout, props: ControllerProps)
    requires sz as int <= |cons|
    requires OverrideAccepted(layout, props, sz) ==> OverrideSize(props, sz) as int <= |cons|
    requires atom.Some? ==> |atom.value.displayPaths| < 0x100 && |atom.value.connectorObjects| < 0x100
    requires !props.connectors.Absent?
    ensures var u := Updated(cons, sz, dviSingleLink, atom, dec, layout, props);
      (props.connectors.Blob? && props.connectorCount.Some? ==> u.size == Trunc8(props.connectorCount.value)) &&
      (!OverrideAccepted(layout, props, sz) ==> u.table == cons && u.propertyFix.None?) &&
      (OverrideAccepted(layout, props, sz) ==> u.propertyFix == Some(|props.connectors.bytes|)) &&
      (props.connectors.NotData? ==> u == Update(cons, sz, None))
  {
  }

  /** An accepted blob fills the first records, record by record, and leaves the rest of the array. */
  lemma UpdateCopiesBlob(cons: seq<Connector>, sz: u8, dviSingleLink: bool, atom: Option<AtomTables>,
                         dec: Decoder, layout: Layout, props: ControllerProps, k: nat)
    requires sz as int <= |cons| && k < |cons|
    requires OverrideAccepted(layout, props, sz) && OverrideSize(props, sz) as int <= |cons|
    requires atom.Some? ==> |atom.value.displayPaths| < 0x100 && |atom.value.connectorObjects| < 0x100
    ensures var u := Updated(cons, sz, dviSingleLink, atom, dec, layout, props);
      u.size == OverrideSize(props, sz) &&
      (k < u.size as int ==>
         (HoldsRecords(layout, props.connectors.bytes, k + 1) && u.table[k] == RecordAt(layout, props.connectors.bytes, k))) &&
      (k >= u.size as int ==> u.table[k] == cons[k])
  {
    var n := OverrideSize(props, sz) as nat;
    if k < n {
      RecordInside(layout, props.connectors.bytes, n, k);
    }
  }

  /**
   * Without a "connectors" property the size stays, records past it are
   * untouched, and no record changes its type or sense id: inference writes
   * transmitters and priorities only.
   */
  lemma UpdateInferenceKeepsIdentity(cons: seq<Connector>, sz: u8, dviSingleLink: bool, atom: Option<AtomTables>,
                                     dec: Decoder, layout: Layout, props: ControllerProps, k: nat)
    requires sz as int <= |cons| && k < |cons|
    requires atom.Some? ==> |atom.value.displayPaths| < 0x100 && |atom.value.connectorObjects| < 0x100
    requires props.connectors.Absent?
    ensures var u := Updated(cons, sz, dviSingleLink, atom, dec, layout, props);
      u.size == sz && u.propertyFix == Some(sz as nat) &&
      u.table[k].kind == cons[k].kind && u.table[k].sense == cons[k].sense &&
      (k >= sz as int ==> u.table[k] == cons[k])
  {
    var corrected :=
      if atom.Some? && |atom.value.displayPaths| == |atom.value.connectorObjects| then
        var t := atom.value;
        WithPrefix(cons, sz as nat, PathsCorrected(cons[..sz], dviSingleLink, dec, t.commonTable - 4, t.displayPaths, t.connectorObjects, |t.displayPaths|))
      else cons;
    if atom.Some? && |atom.value.displayPaths| == |atom.value.connectorObjects| {
      var t := atom.value;
      PathsCorrectedOnlyTransmitters(cons[..sz], dviSingleLink, dec, t.commonTable - 4, t.displayPaths, t.connectorObjects, |t.displayPaths|);
    }
    assert corrected[k].kind == cons[k].kind && corrected[k].sense == cons[k].sense;
    assert k >= sz as int ==> corrected[k] == cons[k];
    if props.connectorPriority.Some? {
      var senses := props.connectorPriority.value[..|props.connectorPriority.value| % 0x100];
      RoundsKeepFields(corrected[..sz], senses, RoundCount(senses));
    }
  }

  /**
   * Without the firmware tables, or when their display-path and
   * connector-object counts differ, the autocorrection is skipped: every
   * transmitter stays, and without a priority blob the whole table does.
   */
  lemma UpdateMismatchedTablesSkipsCorrection(cons: seq<Connector>, sz: u8, dviSingleLink: bool, atom: Option<AtomTables>,
                                              dec: Decoder, layout: Layout, props: ControllerProps, k: nat)
    requires sz as int <= |cons| && k < |cons|
    requires atom.Some? ==> |atom.value.displayPaths| < 0x100 && |atom.value.connectorObjects| < 0x100
    requires props.connectors.Absent?
    requires atom.None? || |atom.value.displayPaths| != |atom.value.connectorObjects|
    ensures var u := Updated(cons, sz, dviSingleLink, atom, dec, layout, props);
      u.table[k].transmitter == cons[k].transmitter &&
      (props.connectorPriority.None? ==> u.table == cons)
  {
    if props.connectorPriority.Some? {
      var senses := props.connectorPriority.value[..|props.connectorPriority.value| % 0x100];
      RoundsKeepFields(cons[..sz], senses, RoundCount(senses));
    }
  }

  /** Without a priority blob inference leaves every priority as it was. */
  lemma UpdateWithoutPriorityBlob(cons: seq<Connector>, sz: u8, dviSingleLink: bool, atom: Option<AtomTables>,
                                  dec: Decoder, layout: Layout, props: ControllerProps, k: nat)
    requires sz as int <= |cons| && k < |cons|
    requires atom.Some? ==> |atom.value.displayPaths| < 0x100 && |atom.value.connectorObjects| < 0x100
    requires props.connectors.Absent? && props.connectorPriority.None?
    ensures Updated(cons, sz, dviSingleLink, atom, dec, layout, props).table[k].priority == cons[k].priority
  {
    if atom.Some? && |atom.value.displayPaths| == |atom.value.connectorObjects| {
      var t := atom.value;
      PathsCorrectedOnlyTransmitters(cons[..sz], dviSingleLink, dec, t.commonTable - 4, t.displayPaths, t.connectorObjects, |t.displayPaths|);
    }
  }

  /** With a priority blob every one of the first `sz` records ends with a non-zero priority. */
  lemma UpdateWithPriorityBlob(cons: seq<Connector>, sz: u8, dviSingleLink: bool, atom: Option<AtomTables>,
                               dec: Decoder, layout: Layout, props: ControllerProps, k: nat)
    requires sz as int <= |cons| && k < sz as int
    requires atom.Some? ==> |atom.value.displayPaths| < 0x100 && |atom.value.connectorObjects| < 0x100
    requires props.connectors.Absent? && props.connectorPriority.Some?
    ensures Updated(cons, sz, dviSingleLink, atom, dec, layout, props).table[k].priority != 0
  {
    var corrected :=
      if atom.Some? && |atom.value.displayPaths| == |atom.value.connectorObjects| then
        var t := atom.value;
        WithPrefix(cons, sz as nat, PathsCorrected(cons[..sz], dviSingleLink, dec, t.commonTable - 4, t.displayPaths, t.connectorObjects, |t.displayPaths|))
      else cons;
    if atom.Some? && |atom.value.displayPaths| == |atom.value.connectorObjects| {
      var t := atom.value;
      PathsCorrectedOnlyTransmitters(cons[..sz], dviSingleLink, dec, t.commonTable - 4, t.displayPaths, t.connectorObjects, |t.displayPaths|);
    }
    var blob := props.connectorPriority.value;
    var senses := blob[..|blob| % 0x100];
    ReprioritisedAllSet(corrected[..sz], senses);
  }

  /** The names of the power-gating switches, one per bit of the "radpg" mask. */
  const PowerGatingNames: seq<string> := [
    "CAIL_DisableDrmdmaPowerGating",
    "CAIL_DisableGfxCGPowerGating",
    "CAIL_DisableUVDPowerGating",
    "CAIL_DisableVCEPowerGating",
    "CAIL_DisableDynamicGfxMGPowerGating",
    "CAIL_DisableGmcPowerGating",
    "CAIL_DisableAcpPowerGating",
    "CAIL_DisableSAMUPowerGating"]

  /** Bit `i` of the mask is set. */
  predicate BitSet(mask: u32, i: nat)
    requires i < 32
  {
    (mask as bv32) & (1 as bv32 << i) != 0
  }

  class Rad {
    var dviSingleLink: bool
    var forceOpenGL: bool
    var fixConfigName: bool
    var forceVesaMode: bool
    /** The provider of the controller that is starting, while it starts. */
    var currentPropProvider: Option<Provider>
    /** The same for the legacy controller. */
    var currentLegacyPropProvider: Option<Provider>
    /** The power-gating switch names, each cleared when its mask bit is off. */
    const powerGatingFlags: array<Option<string>>

    /** The object after `init` has read its boot flags; no controller is starting. */
    constructor(dviSingleLink: bool, forceOpenGL: bool, fixConfigName: bool, forceVesaMode: bool)
      ensures this.dviSingleLink == dviSingleLink && this.forceOpenGL == forceOpenGL
      ensures this.fixConfigName == fixConfigName && this.forceVesaMode == forceVesaMode
      ensures currentPropProvider.None? && currentLegacyPropProvider.None?
      ensures fresh(powerGatingFlags) && powerGatingFlags.Length == |PowerGatingNames|
      ensures forall i :: 0 <= i < |PowerGatingNames| ==> powerGatingFlags[i] == Some(PowerGatingNames[i])
    {
      this.dviSingleLink := dviSingleLink;
      this.forceOpenGL := forceOpenGL;
      this.fixConfigName := fixConfigName;
      this.forceVesaMode := forceVesaMode;
      currentPropProvider := None;
      currentLegacyPropProvider := None;
      powerGatingFlags := new Option<string>[|PowerGatingNames|](i requires 0 <= i < |PowerGatingNames| => Some(PowerGatingNames[i]));
    }

    /** The "radpg" filter of `init`: a switch whose bit is clear is dropped. */
    method ApplyPowerGatingMask(mask: u32)
      requires powerGatingFlags.Length <= 32
      modifies powerGatingFlags
      ensures forall i :: 0 <= i < powerGatingFlags.Length ==>
        powerGatingFlags[i] == if BitSet(mask, i) then old(powerGatingFlags[i]) else None
    {
      var i := 0;
      while i < powerGatingFlags.Length
        invariant 0 <= i <= powerGatingFlags.Length
        invariant forall k :: 0 <= k < i ==> powerGatingFlags[k] == if BitSet(mask, k) then old(powerGatingFlags[k]) else None
        invariant forall k :: i <= k < powerGatingFlags.Length ==> powerGatingFlags[k] == old(powerGatingFlags[k])
      {
        if !BitSet(mask, i) {
          powerGatingFlags[i] := None;
        }
        i := i + 1;
      }
    }

    /** `autocorrectConnector` on the first `sz` records; `enc` is not used. */
    method AutocorrectConnector(connector: u8, sense: u8, txmit: u8, enc: u8, connectors: array<Connector>, sz: u8)
      requires sz as int <= connectors.Length
      modifies connectors
      ensures connectors[..sz] == Autocorrected(old(connectors[..sz]), dviSingleLink, connector, sense, txmit)
      ensures connectors[sz..] == old(connectors[sz..])
    {
      if !dviSingleLink {
        return;
      }
      if connector != ConnectorObjectIdDualLinkDviI && connector != ConnectorObjectIdDualLinkDviD &&
         connector != ConnectorObjectIdLvds {
        return;
      }
      ghost var start := connectors[..sz];
      FirstWithSenseIsFirst(start, sense);
      var j: u8 := 0;
      while j < sz
        invariant j <= sz
        invariant forall k :: 0 <= k < j as int ==> start[k].sense != sense
        invariant connectors[..] == old(connectors[..])
      {
        if connectors[j].sense == sense {
          assert FirstWithSense(start, sense) == Some(j as nat);
          var t := connectors[j].transmitter;
          if t != txmit && (t as bv8) & 0xCF == t as bv8 {
            connectors[j] := connectors[j].(transmitter := txmit);
            assert connectors[..sz] == start[j as int := start[j].(transmitter := txmit)];
          }
          return;
        }
        j := j + 1;
      }
    }

    /** `autocorrectConnectors`: one correction per display path, in table order. */
    method AutocorrectConnectors(baseAddr: int, dec: Decoder, displayPaths: seq<DisplayPath>, displayPathNum: u8,
                                 connectorObjects: seq<ConnectorObject>, connectorObjectNum: u8,
                                 connectors: array<Connector>, sz: u8)
      requires displayPathNum as int <= |displayPaths| && displayPathNum as int <= |connectorObjects|
      requires sz as int <= connectors.Length
      modifies connectors
      ensures connectors[..sz] ==
        PathsCorrected(old(connectors[..sz]), dviSingleLink, dec, baseAddr, displayPaths, connectorObjects, displayPathNum as nat)
      ensures connectors[sz..] == old(connectors[sz..])
    {
      ghost var start := connectors[..sz];
      var i: u8 := 0;
      while i < displayPathNum
        invariant i <= displayPathNum
        invariant connectors[..sz] == PathsCorrected(start, dviSingleLink, dec, baseAddr, displayPaths, connectorObjects, i as nat)
        invariant connectors[sz..] == old(connectors[sz..])
      {
        var path := displayPaths[i];
        if dec.isEncoder(path.graphicObjIds) {
          var te := dec.txEnc(path.graphicObjIds);
          if te.Some? {
            var sense := dec.senseId(baseAddr + connectorObjects[i].recordOffset as int);
            if sense != 0 {
              AutocorrectConnector(dec.connectorId(path.connObjectId), sense, te.value.transmitter, te.value.encoder, connectors, sz);
            }
          }
        }
        i := i + 1;
      }
    }

    /**
     * The V1 translate hook, after the driver's own translation returned
     * `code` for the one record `connector` points to.
     */
    method TranslateAtomConnectorInfoV1(code: u32, dec: Decoder, info: Option<AtomConnectorInfo>, connector: array?<Connector>)
      returns (r: u32)
      requires connector != null ==> connector.Length >= 1
      requires info.Some? && dec.senseId(info.value.i2cRecord) != 0 ==> WellFormedSourceList(info.value.hpdRecord)
      modifies connector
      ensures r == code
      ensures code == 0 && info.Some? && connector != null ==>
        connector[..1] == TranslatedV1(old(connector[..1]), dviSingleLink, dec, info.value) &&
        connector[1..] == old(connector[1..])
      ensures !(code == 0 && info.Some? && connector != null) && connector != null ==> connector[..] == old(connector[..])
    {
      r := code;
      if code == 0 && info.Some? && connector != null {
        var i := info.value;
        var sense := dec.senseId(i.i2cRecord);
        if sense != 0 {
          var found := FindEncoderSource(i.hpdRecord);
          if found.Some? {
            var te := dec.txEnc(found.value);
            if te.Some? {
              AutocorrectConnector(dec.connectorId(i.connObjectId), dec.senseId(i.i2cRecord), te.value.transmitter, te.value.encoder, connector, 1);
            }
          }
        }
      }
    }

    /** The V2 hook: the transmitter comes from the info's own graphics object ids. */
    method TranslateAtomConnectorInfoV2(code: u32, dec: Decoder, info: Option<AtomConnectorInfo>, connector: array?<Connector>)
      returns (r: u32)
      requires connector != null ==> connector.Length >= 1
      modifies connector
      ensures r == code
      ensures code == 0 && info.Some? && connector != null ==>
        connector[..1] == TranslatedV2(old(connector[..1]), dviSingleLink, dec, info.value) &&
        connector[1..] == old(connector[1..])
      ensures !(code == 0 && info.Some? && connector != null) && connector != null ==> connector[..] == old(connector[..])
    {
      r := code;
      if code == 0 && info.Some? && connector != null {
        var i := info.value;
        var sense := dec.senseId(i.i2cRecord);
        if sense != 0 {
          var te := dec.txEnc(i.graphicObjIds);
          if te.Some? {
            AutocorrectConnector(dec.connectorId(i.connObjectId), dec.senseId(i.i2cRecord), te.value.transmitter, te.value.encoder, connector, 1);
          }
        }
      }
    }

    /** RADConnectors::copy of `n` records of the blob into the table. */
    static method CopyRecords(connectors: array<Connector>, n: u8, layout: Layout, bytes: seq<u8>)
      requires n as int <= connectors.Length && HoldsRecords(layout, bytes, n as nat)
      modifies connectors
      ensures connectors[..] == Copied(old(connectors[..]), layout, bytes, n as nat)
    {
      ghost var start := connectors[..];
      var k: u8 := 0;
      while k < n
        invariant k <= n
        invariant forall m :: 0 <= m < k as int ==> (RecordInside(layout, bytes, n as nat, m); connectors[m] == RecordAt(layout, bytes, m))
        invariant forall m :: k as int <= m < connectors.Length ==> connectors[m] == start[m]
      {
        RecordInside(layout, bytes, n as nat, k as nat);
        connectors[k] := RecordAt(layout, bytes, k as nat);
        k := k + 1;
      }
    }

    /**
     * `updateConnectorsInfo` on the driver's table of `connectors.Length`
     * slots holding `sz` records: gives the new size and the argument passed
     * to the property fix, when it is called.
     */
    method UpdateConnectorsInfo(atom: Option<AtomTables>, dec: Decoder, layout: Layout, props: ControllerProps,
                                connectors: array<Connector>, sz: u8) returns (newSz: u8, propertyFix: Option<nat>)
      requires sz as int <= connectors.Length
      requires OverrideAccepted(layout, props, sz) ==> OverrideSize(props, sz) as int <= connectors.Length
      requires atom.Some? ==> |atom.value.displayPaths| < 0x100 && |atom.value.connectorObjects| < 0x100
      modifies connectors
      ensures Update(connectors[..], newSz, propertyFix) ==
        Updated(old(connectors[..]), sz, dviSingleLink, atom, dec, layout, props)
    {
      newSz := sz;
      propertyFix := None;
      match props.connectors {
        case Blob(bytes) =>
          if props.connectorCount.Some? {
            newSz := Trunc8(props.connectorCount.value);
          }
          if |bytes| > 0 && newSz > 0 && |bytes| == newSz as int * layout.recordSize {
            CopyRecords(connectors, newSz, layout, bytes);
            propertyFix := Some(|bytes|);
          }
        case NotData =>
        case Absent =>
          ghost var start := connectors[..];
          if atom.Some? {
            var t := atom.value;
            var displayPathNum := |t.displayPaths| as u8;
            var connectorObjectNum := |t.connectorObjects| as u8;
            if displayPathNum == connectorObjectNum {
              AutocorrectConnectors(t.commonTable - 4, dec, t.displayPaths, displayPathNum, t.connectorObjects,
                                    connectorObjectNum, connectors, sz);
              assert connectors[..] == connectors[..sz] + connectors[sz..];
            }
          }
          propertyFix := Some(sz as nat);
          if props.connectorPriority.Some? {
            var blob := props.connectorPriority.value;
            var senseNum := (|blob| % 0x100) as u8;
            ghost var corrected := connectors[..];
            ReprioritiseConnectors(blob, senseNum, connectors, sz);
            assert connectors[..] == connectors[..sz] + connectors[sz..];
            assert connectors[sz..] == corrected[sz..];
          }
      }
    }

    /**
     * A `getConnectorsInfo` hook after the driver's own call returned `code`
     * on the table of `sz` records: the update runs only when the code is 0,
     * the size pointer (`hasSize`) is set and a controller of the hook's
     * driver is starting; `props` are the properties of that controller.
     * The driver's code is returned either way.
     */
    method GetConnectorsInfo(hook: ConnectorsHook, version: nat, code: u32, hasSize: bool, tables: Option<AtomTables>,
                             dec: Decoder, layout: Layout, props: ControllerProps,
                             connectors: array<Connector>, sz: u8) returns (r: u32, newSz: u8, propertyFix: Option<nat>)
      requires sz as int <= connectors.Length
      requires OverrideAccepted(layout, props, sz) ==> OverrideSize(props, sz) as int <= connectors.Length
      requires tables.Some? ==> |tables.value.displayPaths| < 0x100 && |tables.value.connectorObjects| < 0x100
      modifies connectors
      ensures r == code
      ensures var slot := if hook.HookLegacy? then currentLegacyPropProvider else currentPropProvider;
        if code == 0 && hasSize && slot.Some? then
          Update(connectors[..], newSz, propertyFix) ==
            Updated(old(connectors[..]), sz, dviSingleLink, HookTables(hook, version, tables), dec, layout, props)
        else connectors[..] == old(connectors[..]) && newSz == sz && propertyFix.None?
    {
      r := code;
      var slot := if hook.HookLegacy? then currentLegacyPropProvider else currentPropProvider;
      if code == 0 && hasSize && slot.Some? {
        newSz, propertyFix := UpdateConnectorsInfo(HookTables(hook, version, tables), dec, layout, props, connectors, sz);
      } else {
        newSz, propertyFix := sz, None;
      }
    }

    /**
     * The controller start hook: with forced VESA mode the start fails
     * before the driver runs; otherwise the provider sits in its slot while
     * the driver's own start runs (`original` sees the slot's value) and the
     * slot is cleared afterwards.
     */
    method ATIControllerStart(provider: Provider, original: (Provider, Option<Provider>) -> bool) returns (r: bool)
      modifies this
      ensures forceVesaMode ==> !r && currentPropProvider == old(currentPropProvider)
      ensures !forceVesaMode ==> r == original(provider, Some(provider)) && currentPropProvider.None?
      ensures currentLegacyPropProvider == old(currentLegacyPropProvider)
      ensures dviSingleLink == old(dviSingleLink) && forceOpenGL == old(forceOpenGL)
      ensures fixConfigName == old(fixConfigName) && forceVesaMode == old(forceVesaMode)
    {
      if forceVesaMode {
        return false;
      }
      currentPropProvider := Some(provider);
      r := original(provider, currentPropProvider);
      currentPropProvider := None;
    }

    /** The same for the legacy controller and its slot. */
    method LegacyATIControllerStart(provider: Provider, original: (Provider, Option<Provider>) -> bool) returns (r: bool)
      modifies this
      ensures forceVesaMode ==> !r && currentLegacyPropProvider == old(currentLegacyPropProvider)
      ensures !forceVesaMode ==> r == original(provider, Some(provider)) && currentLegacyPropProvider.None?
      ensures currentPropProvider == old(currentPropProvider)
      ensures dviSingleLink == old(dviSingleLink) && forceOpenGL == old(forceOpenGL)
      ensures fixConfigName == old(fixConfigName) && forceVesaMode == old(forceVesaMode)
    {
      if forceVesaMode {
        return false;
      }
      currentLegacyPropProvider := Some(provider);
      r := original(provider, currentLegacyPropProvider);
      currentLegacyPropProvider := None;
    }

    /**
     * The merge `wrapGetProperty` asks for on `key`: the legacy slot wins
     * over the other one, and the registry parent is used only when neither
     * slot is set.
     */
    function MergeRequest(key: string, parent: Option<Provider>): (r: Option<(string, Provider)>)
      reads this
      ensures currentLegacyPropProvider.Some? && r.Some? ==> r.value.1 == currentLegacyPropProvider.value
      ensures currentLegacyPropProvider.None? && currentPropProvider.Some? && r.Some? ==> r.value.1 == currentPropProvider.value
    {
      var slot := if currentLegacyPropProvider.Some? then currentLegacyPropProvider else currentPropProvider;
      MergePrefix(slot, parent, key)
    }

    /**
     * `mergeProperties(props, prefix, provider)`: the provider's property
     * table, in iteration order, then for "CAIL," the power-gating switches.
     */
    method MergeProperties(props: Dictionary, prefix: string, table: Option<seq<(string, OSValue)>>)
      modifies props
      ensures props.entries == Merged(old(props.entries), table, prefix, powerGatingFlags[..])
    {
      if table.Some? {
        var t := table.value;
        var i := 0;
        while i < |t|
          invariant 0 <= i <= |t|
          invariant props.entries == MergedFrom(old(props.entries), t[..i], prefix)
        {
          assert t[..i + 1][..i] == t[..i];
          var name := t[i].0;
          if |name| > |prefix| && prefix <= name {
            props.entries := props.entries[name[|prefix|..] := Coerced(t[i].1)];
          }
          i := i + 1;
        }
        assert t[..|t|] == t;
      }
      if prefix == "CAIL," {
        ghost var merged := props.entries;
        var i := 0;
        while i < powerGatingFlags.Length
          invariant 0 <= i <= powerGatingFlags.Length
          invariant props.entries == CailReplaced(merged, powerGatingFlags[..i])
        {
          assert powerGatingFlags[..i + 1][..i] == powerGatingFlags[..i];
          var flag := powerGatingFlags[i];
          if flag.Some? && flag.value in props.entries {
            props.entries := props.entries[flag.value := Number(1, 32)];
          }
          i := i + 1;
        }
        assert powerGatingFlags[..powerGatingFlags.Length] == powerGatingFlags[..];
      }
    }
  }
}
