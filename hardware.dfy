/**
 * The choice of accelerator kexts per macOS release, and the 10-to-8 bit
 * rewrite of the framebuffer's BITS_PER_COMPONENT table that forces 24-bit
 * output.
 */
module Hardware {

  // Darwin major versions.
  const Sierra: nat := 16
  const HighSierra: nat := 17
  const Mojave: nat := 18

  /** The accelerator kexts, in the order of their table slots. */
  datatype HardwareKext = X4000 | X5000 | X3000 | X4100 | X4150 | X4200 | X4250

  const HardwareOrder: seq<HardwareKext> := [X4000, X5000, X3000, X4100, X4150, X4200, X4250]

  // How many leading slots are loaded: all of them, the modern 10.13 set or the Mojave set.
  const MaxRadeonHardware: nat := 7
  const MaxRadeonHardwareModernHighSierra: nat := 3
  const MaxRadeonHardwareMojave: nat := 2

  /**
   * What `initHardwareKextMods` decides: how many leading slots are
   * registered, which of them are switched off, whether X3000 and X4000 use
   * their pre-10.13 bundle ids, and whether the X4000 framebuffer procedure
   * names are cleared.
   */
  datatype KextMods = KextMods(count: nat, switchedOff: set<HardwareKext>, oldIds: bool, procNamesCleared: bool)

  /** `initHardwareKextMods` as a function of the kernel version and the two boot flags it reads. */
  function HardwareKextMods(version: nat, minor: nat, fixConfigName: bool, forceOpenGL: bool): (m: KextMods)
    ensures m.count <= |HardwareOrder|
  {
    var count :=
      if version >= Mojave then MaxRadeonHardwareMojave
      else if version == HighSierra && minor >= 5 then MaxRadeonHardwareModernHighSierra
      else MaxRadeonHardware;
    var recent := count != MaxRadeonHardware;
    var idle: set<HardwareKext> := if recent && !fixConfigName && !forceOpenGL then {X4000, X5000} else {};
    var preSierra := version < Sierra;
    var unsupported: set<HardwareKext> :=
      if version < HighSierra then
        {X4250, X5000} +
        (if preSierra then {X4100} else {}) +
        (if preSierra || (version == Sierra && minor < 7) then {X4150, X4200} else {})
      else {};
    KextMods(count, idle + unsupported, version < HighSierra, recent)
  }

  /** The kexts that end up registered and not switched off. */
  function ActiveKexts(m: KextMods): set<HardwareKext>
    requires m.count <= |HardwareOrder|
  {
    (set i | 0 <= i < m.count :: HardwareOrder[i]) - m.switchedOff
  }

  /** On Mojave and later only X4000 and X5000 remain, and only when a flag needs them. */
  lemma MojaveKexts(version: nat, minor: nat, fixConfigName: bool, forceOpenGL: bool)
    requires version >= Mojave
    ensures ActiveKexts(HardwareKextMods(version, minor, fixConfigName, forceOpenGL)) ==
      if fixConfigName || forceOpenGL then {X4000, X5000} else {}
  {
    var m := HardwareKextMods(version, minor, fixConfigName, forceOpenGL);
    assert (set i | 0 <= i < m.count :: HardwareOrder[i]) == {X4000, X5000} by {
      assert HardwareOrder[0] == X4000 && HardwareOrder[1] == X5000;
    }
  }

  /** From 10.13.4 on (minor 5) X3000 stays, X4000 and X5000 only when a flag needs them. */
  lemma ModernHighSierraKexts(minor: nat, fixConfigName: bool, forceOpenGL: bool)
    requires minor >= 5
    ensures ActiveKexts(HardwareKextMods(HighSierra, minor, fixConfigName, forceOpenGL)) ==
      {X3000} + if fixConfigName || forceOpenGL then {X4000, X5000} else {}
  {
    var m := HardwareKextMods(HighSierra, minor, fixConfigName, forceOpenGL);
    assert (set i | 0 <= i < m.count :: HardwareOrder[i]) == {X4000, X5000, X3000} by {
      assert HardwareOrder[0] == X4000 && HardwareOrder[1] == X5000 && HardwareOrder[2] == X3000;
    }
  }

  /** Every slot is loaded and none is switched off on early 10.13 releases. */
  lemma EarlyHighSierraKexts(minor: nat, fixConfigName: bool, forceOpenGL: bool)
    requires minor < 5
    ensures ActiveKexts(HardwareKextMods(HighSierra, minor, fixConfigName, forceOpenGL)) ==
      {X4000, X5000, X3000, X4100, X4150, X4200, X4250}
    ensures !HardwareKextMods(HighSierra, minor, fixConfigName, forceOpenGL).oldIds
  {
    var m := HardwareKextMods(HighSierra, minor, fixConfigName, forceOpenGL);
    AllSlots(m.count);
  }

  /**
   * Before 10.13 X4250 and X5000 are off and the old ids are used; before
   * 10.12 X4100 is off too, and before 10.12.6 (Sierra minor 7) X4150 and
   * X4200 are off.
   */
  lemma PreHighSierraKexts(version: nat, minor: nat, fixConfigName: bool, forceOpenGL: bool)
    requires version < HighSierra
    ensures var m := HardwareKextMods(version, minor, fixConfigName, forceOpenGL);
      m.oldIds && !m.procNamesCleared &&
      ActiveKexts(m) ==
        {X4000, X3000} +
        (if version < Sierra then {} else {X4100}) +
        (if version < Sierra || (version == Sierra && minor < 7) then {} else {X4150, X4200})
  {
    var m := HardwareKextMods(version, minor, fixConfigName, forceOpenGL);
    AllSlots(m.count);
  }

  lemma AllSlots(count: nat)
    requires count == MaxRadeonHardware
    ensures (set i | 0 <= i < count :: HardwareOrder[i]) == {X4000, X5000, X3000, X4100, X4150, X4200, X4250}
  {
    var s := set i | 0 <= i < count :: HardwareOrder[i];
    assert HardwareOrder[0] in s && HardwareOrder[1] in s && HardwareOrder[2] in s && HardwareOrder[3] in s;
    assert HardwareOrder[4] in s && HardwareOrder[5] in s && HardwareOrder[6] in s;
  }

  // ---- BITS_PER_COMPONENT ----

  /** The table ends: some entry is the terminating 0. */
  predicate Terminated(s: seq<int>)
  {
    exists k :: 0 <= k < |s| && s[k] == 0
  }

  /** The index of the terminating 0. */
  function TerminatorIndex(s: seq<int>): (k: nat)
    requires Terminated(s)
    ensures k < |s| && s[k] == 0 && forall i :: 0 <= i < k ==> s[i] != 0
    decreases |s|
  {
    if s[0] == 0 then 0
    else
      assert Terminated(s[1..]) by {
        var k :| 0 <= k < |s| && s[k] == 0;
        assert s[1..][k - 1] == 0;
      }
      1 + TerminatorIndex(s[1..])
  }

  /** The table after the walk: every 10 before the terminator reads 8, nothing else changes. */
  function Downgraded(s: seq<int>): (r: seq<int>)
    ensures |r| == |s|
    ensures forall i :: 0 <= i < |s| && r[i] != s[i] ==> s[i] == 10 && r[i] == 8
    decreases |s|
  {
    if s == [] || s[0] == 0 then s
    else [if s[0] == 10 then 8 else s[0]] + Downgraded(s[1..])
  }

  /** Entry `i` after the walk: a 10 before the terminator becomes 8, the rest stays. */
  lemma {:induction false} DowngradedAt(s: seq<int>, i: nat)
    requires Terminated(s) && i < |s|
    ensures Downgraded(s)[i] == if i < TerminatorIndex(s) && s[i] == 10 then 8 else s[i]
    decreases |s|
  {
    if s[0] != 0 && i > 0 {
      assert Terminated(s[1..]) by {
        var k := TerminatorIndex(s);
        assert s[1..][k - 1] == 0;
      }
      DowngradedAt(s[1..], i - 1);
    }
  }

  /** A second walk finds no 10 left and changes nothing. */
  lemma {:induction false} DowngradedIdempotent(s: seq<int>)
    ensures Downgraded(Downgraded(s)) == Downgraded(s)
    decreases |s|
  {
    if s != [] && s[0] != 0 {
      DowngradedIdempotent(s[1..]);
      assert Downgraded(s)[1..] == Downgraded(s[1..]);
    }
  }

  /**
   * The walk of `process24BitOutput` over the table, writing 8 over each 10
   * until the terminating 0.
   */
  method FixBitsPerComponent(a: array<int>)
    requires Terminated(a[..])
    modifies a
    ensures a[..] == Downgraded(old(a[..]))
  {
    ghost var start := a[..];
    ghost var end := TerminatorIndex(start);
    var p := 0;
    while a[p] != 0
      invariant 0 <= p <= end
      invariant forall i :: 0 <= i < p ==> a[i] == (if start[i] == 10 then 8 else start[i])
      invariant forall i :: p <= i < a.Length ==> a[i] == start[i]
      decreases end - p
    {
      if a[p] == 10 {
        a[p] := 8;
      }
      p := p + 1;
    }
    forall i | 0 <= i < a.Length ensures a[i] == Downgraded(start)[i] {
      DowngradedAt(start, i);
    }
  }
}
