/**
 * The property transforms around the accelerator and the controller: the
 * vendor prefix dropped from a GPU model name, the choice of which
 * provider properties are merged into a requested dictionary, and the merge
 * itself, which strips a prefix, turns one-byte 0/1 data into booleans and,
 * for CAIL properties, forces the enabled power-gating switches to 1.
 */
module Properties {
  import opened Types

  /** A registry value, as far as the merge tells values apart. */
  datatype OSValue = Bool(b: bool) | Number(value: nat, bits: nat) | Data(bytes: seq<u8>) | Other(id: nat)

  /** A driver service that can provide properties. */
  datatype Provider = Provider(id: nat)

  // ---- updateAccelConfig ----

  /** A model name that starts with "AMD " or "ATI ". */
  predicate HasVendorPrefix(model: string)
  {
    |model| >= 4 && (model[..4] == "AMD " || model[..4] == "ATI ")
  }

  /**
   * The accelerator name `updateAccelConfig` stores: the GPU model without
   * its vendor prefix, which is dropped once.
   */
  function StripVendorPrefix(model: string): (r: string)
    ensures HasVendorPrefix(model) ==> model == model[..4] + r
    ensures !HasVendorPrefix(model) ==> r == model
  {
    if HasVendorPrefix(model) then model[4..] else model
  }

  /** Only one prefix goes: "AMD ATI X" becomes "ATI X". */
  lemma StripVendorPrefixOnce()
    ensures StripVendorPrefix("AMD ATI X") == "ATI X"
  {
    assert HasVendorPrefix("AMD ATI X") by {
      assert "AMD ATI X"[..4] == "AMD ";
    }
    assert "AMD ATI X"[4..] == "ATI X";
  }

  // ---- wrapGetProperty: which merge is requested ----

  /**
   * The prefix and the provider of a merge requested for `key`. While a
   * controller is starting (`slot` holds its provider) "aty_config" takes
   * the provider's "CFG," properties and "aty_properties" its "PP,"
   * properties; otherwise "cail_properties" takes the "CAIL," properties of
   * the registry parent, when there is one.
   */
  function MergePrefix(slot: Option<Provider>, parent: Option<Provider>, key: string): (r: Option<(string, Provider)>)
  {
    if slot.Some? then
      if key == "aty_config" then Some(("CFG,", slot.value))
      else if key == "aty_properties" then Some(("PP,", slot.value))
      else None
    else if key == "cail_properties" && parent.Some? then Some(("CAIL,", parent.value))
    else None
  }

  /** A merge is requested exactly in those three cases, and never reads the parent while a controller starts. */
  lemma MergePrefixCases(slot: Option<Provider>, parent: Option<Provider>, key: string)
    ensures MergePrefix(slot, parent, key).Some? <==>
      (slot.Some? && (key == "aty_config" || key == "aty_properties")) ||
      (slot.None? && key == "cail_properties" && parent.Some?)
    ensures slot.Some? ==> MergePrefix(slot, parent, key) == MergePrefix(slot, None, key)
    ensures MergePrefix(slot, parent, key).Some? && MergePrefix(slot, parent, key).value.0 == "CAIL," ==>
      slot.None? && MergePrefix(slot, parent, key).value.1 == parent.value
  {
  }

  // ---- mergeProperties ----

  /** A property name the merge takes: strictly longer than the prefix and starting with it. */
  predicate Matches(key: string, prefix: string)
  {
    |key| > |prefix| && prefix <= key
  }

  /**
   * The value the merge stores: one byte of data holding 1 or 0 becomes a
   * boolean, anything else is stored as it is.
   */
  function Coerced(v: OSValue): (r: OSValue)
    ensures v.Data? && |v.bytes| == 1 && v.bytes[0] <= 1 ==> r == Bool(v.bytes[0] == 1)
    ensures !(v.Data? && |v.bytes| == 1 && v.bytes[0] <= 1) ==> r == v
  {
    match v
    case Data(bytes) =>
      if |bytes| == 1 && bytes[0] == 1 then Bool(true)
      else if |bytes| == 1 && bytes[0] == 0 then Bool(false)
      else v
    case _ => v
  }

  /** One property of the provider merged into the dictionary. */
  function MergeEntry(entries: map<string, OSValue>, key: string, value: OSValue, prefix: string): map<string, OSValue>
  {
    if Matches(key, prefix) then entries[key[|prefix|..] := Coerced(value)] else entries
  }

  /** The dictionary after merging the provider's properties, in iteration order. */
  function MergedFrom(entries: map<string, OSValue>, table: seq<(string, OSValue)>, prefix: string): (r: map<string, OSValue>)
    ensures entries.Keys <= r.Keys
    decreases |table|
  {
    if table == [] then entries
    else
      var last := table[|table| - 1];
      MergeEntry(MergedFrom(entries, table[..|table| - 1], prefix), last.0, last.1, prefix)
  }

  /** A property table as a dictionary has it: no name twice. */
  predicate DistinctKeys(table: seq<(string, OSValue)>)
  {
    forall i, j :: 0 <= i < j < |table| ==> table[i].0 != table[j].0
  }

  /** Two names with the same prefix and the same rest are the same name. */
  lemma StrippedInjective(a: string, b: string, prefix: string)
    requires Matches(a, prefix) && Matches(b, prefix) && a[|prefix|..] == b[|prefix|..]
    ensures a == b
  {
    assert a == prefix + a[|prefix|..];
    assert b == prefix + b[|prefix|..];
  }

  /**
   * Every matching provider property ends up under its name without the
   * prefix, with its coerced value: no other property of the table lands
   * on the same name.
   */
  lemma {:induction false} MergedFromValue(entries: map<string, OSValue>, table: seq<(string, OSValue)>, prefix: string, i: nat)
    requires DistinctKeys(table) && i < |table| && Matches(table[i].0, prefix)
    ensures table[i].0[|prefix|..] in MergedFrom(entries, table, prefix)
    ensures MergedFrom(entries, table, prefix)[table[i].0[|prefix|..]] == Coerced(table[i].1)
    decreases |table|
  {
    var n := |table|;
    var front := table[..n - 1];
    var last := table[n - 1];
    if i < n - 1 {
      assert front[i] == table[i];
      MergedFromValue(entries, front, prefix, i);
      if Matches(last.0, prefix) && last.0[|prefix|..] == table[i].0[|prefix|..] {
        StrippedInjective(last.0, table[i].0, prefix);
        assert false;
      }
    }
  }

  /** A name no matching property strips to keeps its entry, or its absence. */
  lemma {:induction false} MergedFromKeeps(entries: map<string, OSValue>, table: seq<(string, OSValue)>, prefix: string, k: string)
    requires forall i :: 0 <= i < |table| && Matches(table[i].0, prefix) ==> table[i].0[|prefix|..] != k
    ensures k in MergedFrom(entries, table, prefix) <==> k in entries
    ensures k in entries ==> MergedFrom(entries, table, prefix)[k] == entries[k]
    decreases |table|
  {
    if table != [] {
      var front := table[..|table| - 1];
      forall i | 0 <= i < |front| && Matches(front[i].0, prefix)
        ensures front[i].0[|prefix|..] != k
      {
        assert front[i] == table[i];
      }
      MergedFromKeeps(entries, front, prefix, k);
    }
  }

  /**
   * The CAIL replacement: every power-gating switch still enabled whose
   * name is in the dictionary is set to the 32-bit number 1.
   */
  function CailReplaced(entries: map<string, OSValue>, flags: seq<Option<string>>): (r: map<string, OSValue>)
    ensures r.Keys == entries.Keys
    decreases |flags|
  {
    if flags == [] then entries
    else
      var acc := CailReplaced(entries, flags[..|flags| - 1]);
      var flag := flags[|flags| - 1];
      if flag.Some? && flag.value in acc then acc[flag.value := Number(1, 32)] else acc
  }

  /** An enabled switch present in the dictionary ends as 1. */
  lemma {:induction false} CailReplacedSets(entries: map<string, OSValue>, flags: seq<Option<string>>, i: nat)
    requires i < |flags| && flags[i].Some? && flags[i].value in entries
    ensures CailReplaced(entries, flags)[flags[i].value] == Number(1, 32)
    decreases |flags|
  {
    var n := |flags|;
    if i < n - 1 {
      assert flags[..n - 1][i] == flags[i];
      CailReplacedSets(entries, flags[..n - 1], i);
    }
  }

  /** A name that is no enabled switch keeps its value. */
  lemma {:induction false} CailReplacedKeeps(entries: map<string, OSValue>, flags: seq<Option<string>>, k: string)
    requires k in entries && forall i :: 0 <= i < |flags| ==> flags[i] != Some(k)
    ensures CailReplaced(entries, flags)[k] == entries[k]
    decreases |flags|
  {
    if flags != [] {
      var front := flags[..|flags| - 1];
      forall i | 0 <= i < |front| ensures front[i] != Some(k) {
        assert front[i] == flags[i];
      }
      CailReplacedKeeps(entries, front, k);
    }
  }

  /**
   * The dictionary after `mergeProperties(props, prefix, provider)`: the
   * provider's table, when it has one, is merged; then, for the "CAIL,"
   * prefix, the enabled power-gating switches are replaced.
   */
  function Merged(entries: map<string, OSValue>, table: Option<seq<(string, OSValue)>>, prefix: string,
                  flags: seq<Option<string>>): map<string, OSValue>
  {
    var m := if table.Some? then MergedFrom(entries, table.value, prefix) else entries;
    if prefix == "CAIL," then CailReplaced(m, flags) else m
  }

  /**
   * A CAIL property set by the firmware for an enabled power-gating switch
   * does not keep its firmware value: after the prefix is stripped the
   * switch is found in the dictionary and forced to 1.
   */
  lemma CailOverridesFirmwareSwitch(entries: map<string, OSValue>, table: seq<(string, OSValue)>,
                                    flags: seq<Option<string>>, i: nat, f: nat)
    requires DistinctKeys(table) && i < |table| && f < |flags|
    requires Matches(table[i].0, "CAIL,") && flags[f] == Some(table[i].0[5..])
    ensures var m := Merged(entries, Some(table), "CAIL,", flags);
      table[i].0[5..] in m && m[table[i].0[5..]] == Number(1, 32)
  {
    MergedFromValue(entries, table, "CAIL,", i);
    CailReplacedSets(MergedFrom(entries, table, "CAIL,"), flags, f);
  }

  /** The dictionary a merge fills. */
  class Dictionary {
    var entries: map<string, OSValue>

    constructor(entries: map<string, OSValue>)
      ensures this.entries == entries
    {
      this.entries := entries;
    }
  }
}
