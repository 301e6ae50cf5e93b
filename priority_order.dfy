/**
 * The whole reprioritisation pass in closed form.
 *
 * After the sense rounds, the five type rounds and the last round each number
 * the records still at 0 that they look for, so together they rank every
 * such record by its "phase" (its type's place in the type order, or the last
 * round) and then by its place in the table. This module states the value
 * the pass gives every record, for any starting table, and draws the order,
 * distinctness and bound properties from it.
 */
module PriorityOrder {
  import opened Types
  import opened Connectors
  import opened Priority

  /** The round after the sense rounds that numbers a record of type `kind`: its place in the type order, or 5 for the last round. */
  function Phase(kind: u32): (p: nat)
    ensures p <= |TypeOrder|
    ensures p < |TypeOrder| <==> InTypeOrder(kind)
    ensures p < |TypeOrder| ==> TypeOrder[p] == kind
  {
    if kind == ConnectorLVDS then 0
    else if kind == ConnectorDigitalDVI then 1
    else if kind == ConnectorHDMI then 2
    else if kind == ConnectorDP then 3
    else if kind == ConnectorVGA then 4
    else 5
  }

  /** The rule of the round `p` places after the sense rounds. */
  function PhaseRule(p: nat): Rule
    requires p <= |TypeOrder|
  {
    if p < |TypeOrder| then ByType(TypeOrder[p]) else Remaining
  }

  /** The table once the sense rounds are over. */
  function AfterSenses(cons: seq<Connector>, senses: seq<u8>): seq<Connector>
  {
    Rounds(cons, senses, |senses|).0
  }

  /** Records of `s` still at 0 whose phase lies in `[lo, hi)`. */
  function ZerosInPhases(s: seq<Connector>, lo: nat, hi: nat): (n: nat)
    ensures n <= |s|
    decreases |s|
  {
    if s == [] then 0
    else
      var c := s[|s| - 1];
      ZerosInPhases(s[..|s| - 1], lo, hi) + (if c.priority == 0 && lo <= Phase(c.kind) < hi then 1 else 0)
  }

  // ---- Counting by phase ----

  lemma ZerosInPhasesStep(s: seq<Connector>, lo: nat, hi: nat, j: nat)
    requires j < |s|
    ensures ZerosInPhases(s[..j + 1], lo, hi) ==
      ZerosInPhases(s[..j], lo, hi) + (if s[j].priority == 0 && lo <= Phase(s[j].kind) < hi then 1 else 0)
  {
    assert s[..j + 1][..j] == s[..j];
  }

  /** Adjacent phase ranges add up. */
  lemma {:induction false} ZerosInPhasesSplit(s: seq<Connector>, lo: nat, mid: nat, hi: nat)
    requires lo <= mid <= hi
    ensures ZerosInPhases(s, lo, hi) == ZerosInPhases(s, lo, mid) + ZerosInPhases(s, mid, hi)
    decreases |s|
  {
    if s != [] {
      ZerosInPhasesSplit(s[..|s| - 1], lo, mid, hi);
    }
  }

  /** Every phase together counts every record at 0. */
  lemma {:induction false} ZerosInAllPhases(s: seq<Connector>)
    ensures ZerosInPhases(s, 0, |TypeOrder| + 1) == Zeros(s)
    decreases |s|
  {
    if s != [] {
      ZerosInAllPhases(s[..|s| - 1]);
    }
  }

  lemma {:induction false} ZerosInPhasesPrefixMono(s: seq<Connector>, lo: nat, hi: nat, a: nat, b: nat)
    requires a <= b <= |s|
    ensures ZerosInPhases(s[..a], lo, hi) <= ZerosInPhases(s[..b], lo, hi)
    decreases b - a
  {
    if a < b {
      ZerosInPhasesStep(s, lo, hi, b - 1);
      ZerosInPhasesPrefixMono(s, lo, hi, a, b - 1);
    }
  }

  /** A record at 0 of phase `q` at index `a` comes strictly before the end of its phase's count up to `b`. */
  lemma ZerosInPhaseBefore(s: seq<Connector>, q: nat, a: nat, b: nat)
    requires a < b <= |s| && s[a].priority == 0 && Phase(s[a].kind) == q
    ensures ZerosInPhases(s[..a], q, q + 1) < ZerosInPhases(s[..b], q, q + 1)
  {
    ZerosInPhasesStep(s, q, q + 1, a);
    ZerosInPhasesPrefixMono(s, q, q + 1, a + 1, b);
  }

  // ---- The table after the first phase rounds ----

  /**
   * The value the phase rounds give record `i` of `z` (the table after the
   * sense rounds) when the counter stood at `c0` after them: the records at 0
   * of earlier phases come first, then those of its own phase before it.
   */
  function PhaseValue(z: seq<Connector>, c0: int, i: nat): int
    requires i < |z|
  {
    var q := Phase(z[i].kind);
    c0 + ZerosInPhases(z, 0, q) + ZerosInPhases(z[..i], q, q + 1)
  }

  /** Record `i` of `z` once the first `p` phase rounds are over. */
  function Settled(z: seq<Connector>, c0: int, p: nat, i: nat): Connector
    requires i < |z|
  {
    if z[i].priority == 0 && Phase(z[i].kind) < p then z[i].(priority := Wrap16(PhaseValue(z, c0, i)))
    else z[i]
  }

  /** The whole table once the first `p` phase rounds are over. */
  function SettledTable(z: seq<Connector>, c0: int, p: nat): (t: seq<Connector>)
    ensures |t| == |z|
  {
    seq(|z|, i requires 0 <= i < |z| => Settled(z, c0, p, i))
  }

  /** A phase value lies in the block of counter values the phase rounds hand out. */
  lemma PhaseValueBound(z: seq<Connector>, c0: int, i: nat)
    requires i < |z| && z[i].priority == 0
    ensures c0 <= PhaseValue(z, c0, i) < c0 + Zeros(z)
  {
    var q := Phase(z[i].kind);
    ZerosInPhaseBefore(z, q, i, |z|);
    assert z[..|z|] == z;
    ZerosInPhasesSplit(z, 0, q, q + 1);
    ZerosInPhasesSplit(z, 0, q + 1, |TypeOrder| + 1);
    ZerosInAllPhases(z);
  }

  /** Round `p` numbers exactly the records at 0 of phase `p`: the earlier ones are no longer 0. */
  lemma SettledEligible(z: seq<Connector>, c0: int, p: nat, i: nat)
    requires p <= |TypeOrder| && i < |z| && 1 <= c0 && c0 + Zeros(z) <= 0x1_0000
    ensures Eligible(PhaseRule(p), Settled(z, c0, p, i)) <==> z[i].priority == 0 && Phase(z[i].kind) == p
  {
    if z[i].priority == 0 && Phase(z[i].kind) < p {
      PhaseValueBound(z, c0, i);
    }
  }

  /** Round `p` counts, before index `i`, the records at 0 of phase `p`. */
  lemma {:induction false} SettledCount(z: seq<Connector>, c0: int, p: nat, i: nat)
    requires p <= |TypeOrder| && i <= |z| && 1 <= c0 && c0 + Zeros(z) <= 0x1_0000
    ensures CountEligible(SettledTable(z, c0, p)[..i], PhaseRule(p)) == ZerosInPhases(z[..i], p, p + 1)
  {
    if i > 0 {
      SettledCount(z, c0, p, i - 1);
      CountEligibleStep(SettledTable(z, c0, p), PhaseRule(p), i - 1);
      ZerosInPhasesStep(z, p, p + 1, i - 1);
      SettledEligible(z, c0, p, i - 1);
    }
  }

  /** Record `i` after round `p`, numbered over the table after `p` phase rounds. */
  lemma SettledStepAt(z: seq<Connector>, c0: int, p: nat, i: nat)
    requires p <= |TypeOrder| && i < |z| && 1 <= c0 && c0 + Zeros(z) <= 0x1_0000
    ensures Numbered(SettledTable(z, c0, p), PhaseRule(p), c0 + ZerosInPhases(z, 0, p)).0[i] ==
      Settled(z, c0, p + 1, i)
  {
    var t := SettledTable(z, c0, p);
    NumberedAt(t, PhaseRule(p), c0 + ZerosInPhases(z, 0, p), i);
    SettledEligible(z, c0, p, i);
    if z[i].priority == 0 && Phase(z[i].kind) == p {
      SettledCount(z, c0, p, i);
    }
  }

  /** Round `p` turns the table after `p` phase rounds into the table after `p + 1`. */
  lemma SettledStep(z: seq<Connector>, c0: int, p: nat)
    requires p <= |TypeOrder| && 1 <= c0 && c0 + Zeros(z) <= 0x1_0000
    ensures Numbered(SettledTable(z, c0, p), PhaseRule(p), c0 + ZerosInPhases(z, 0, p)) ==
      (SettledTable(z, c0, p + 1), c0 + ZerosInPhases(z, 0, p + 1))
  {
    SettledStepTable(z, c0, p);
    SettledStepCounter(z, c0, p);
  }

  lemma SettledStepTable(z: seq<Connector>, c0: int, p: nat)
    requires p <= |TypeOrder| && 1 <= c0 && c0 + Zeros(z) <= 0x1_0000
    ensures Numbered(SettledTable(z, c0, p), PhaseRule(p), c0 + ZerosInPhases(z, 0, p)).0 == SettledTable(z, c0, p + 1)
  {
    var r := Numbered(SettledTable(z, c0, p), PhaseRule(p), c0 + ZerosInPhases(z, 0, p));
    var u := SettledTable(z, c0, p + 1);
    forall i | 0 <= i < |z| ensures r.0[i] == u[i] {
      SettledStepAt(z, c0, p, i);
    }
  }

  lemma SettledStepCounter(z: seq<Connector>, c0: int, p: nat)
    requires p <= |TypeOrder| && 1 <= c0 && c0 + Zeros(z) <= 0x1_0000
    ensures Numbered(SettledTable(z, c0, p), PhaseRule(p), c0 + ZerosInPhases(z, 0, p)).1 == c0 + ZerosInPhases(z, 0, p + 1)
  {
    var t := SettledTable(z, c0, p);
    SettledCount(z, c0, p, |z|);
    assert t[..|z|] == t && z[..|z|] == z;
    ZerosInPhasesSplit(z, 0, p, p + 1);
  }

  /** Before any phase round nothing is settled. */
  lemma SettledNone(z: seq<Connector>, c0: int)
    ensures SettledTable(z, c0, 0) == z && ZerosInPhases(z, 0, 0) == 0
  {
    assert SettledTable(z, c0, 0) == z;
    ZerosInPhasesSplit(z, 0, 0, 0);
  }

  /** The counter after the sense rounds and the records still at 0 fit in 16 bits together. */
  lemma PhaseBudget(cons: seq<Connector>, senses: seq<u8>)
    requires WithinCounter(cons, senses)
    ensures var c0 := 1 + Hits(cons, senses, |senses|);
      1 <= c0 && c0 + Zeros(AfterSenses(cons, senses)) <= 1 + |senses| + |cons|
  {
    SenseRoundsCounter(cons, senses, |senses|);
    RoundsBound(cons, senses, |senses|);
  }

  /**
   * From the table `z` and counter `c0` the sense rounds leave, each round `k`
   * after them leaves `SettledTable` of the phase rounds done so far, and the
   * counter past the records at 0 of those phases.
   */
  lemma {:induction false} PhaseRounds(cons: seq<Connector>, senses: seq<u8>, k: nat, z: seq<Connector>, c0: int)
    requires |senses| <= k <= RoundCount(senses)
    requires Rounds(cons, senses, |senses|) == (z, c0) && 1 <= c0 && c0 + Zeros(z) <= 0x1_0000
    ensures Rounds(cons, senses, k).0 == SettledTable(z, c0, k - |senses|)
    ensures Rounds(cons, senses, k).1 == c0 + ZerosInPhases(z, 0, k - |senses|)
  {
    if k == |senses| {
      SettledNone(z, c0);
    } else {
      PhaseRounds(cons, senses, k - 1, z, c0);
      PhaseRoundStep(cons, senses, k, z, c0);
    }
  }

  /** Round `k` after the sense rounds is phase round `k - 1 - |senses|`. */
  lemma PhaseRoundStep(cons: seq<Connector>, senses: seq<u8>, k: nat, z: seq<Connector>, c0: int)
    requires |senses| < k <= RoundCount(senses) && 1 <= c0 && c0 + Zeros(z) <= 0x1_0000
    requires Rounds(cons, senses, k - 1).0 == SettledTable(z, c0, k - 1 - |senses|)
    requires Rounds(cons, senses, k - 1).1 == c0 + ZerosInPhases(z, 0, k - 1 - |senses|)
    ensures Rounds(cons, senses, k).0 == SettledTable(z, c0, k - |senses|)
    ensures Rounds(cons, senses, k).1 == c0 + ZerosInPhases(z, 0, k - |senses|)
  {
    var q := k - 1 - |senses|;
    assert q + 1 == k - |senses|;
    LaterRoundStep(cons, senses, k);
    assert RuleAt(senses, k - 1) == PhaseRule(q);
    SettledStep(z, c0, q);
  }

  // ---- The value of every record ----

  /** The pass ends with every phase round over. */
  lemma ReprioritisedSettled(cons: seq<Connector>, senses: seq<u8>)
    requires WithinCounter(cons, senses)
    ensures Reprioritised(cons, senses) ==
      SettledTable(AfterSenses(cons, senses), 1 + Hits(cons, senses, |senses|), |TypeOrder| + 1)
  {
    var z := AfterSenses(cons, senses);
    var c0 := 1 + Hits(cons, senses, |senses|);
    SenseRoundsCounter(cons, senses, |senses|);
    PhaseBudget(cons, senses);
    PhaseRounds(cons, senses, RoundCount(senses), z, c0);
  }

  /** Assigned by the pass: reached by a sense-list entry, or at 0 to start with. */
  predicate AssignedByPass(cons: seq<Connector>, senses: seq<u8>, j: nat)
    requires j < |cons|
  {
    LastHit(cons, senses, |senses|, j).Some? || cons[j].priority == 0
  }

  /**
   * A record still at 0 once the sense rounds are over (so no entry reached
   * it) ends with 1, plus the number of entries that reached a record, plus the
   * records at 0 the earlier type rounds number, plus the records of its own
   * round before it.
   */
  lemma ReprioritisedAfterSenses(cons: seq<Connector>, senses: seq<u8>, j: nat)
    requires WithinCounter(cons, senses) && j < |cons|
    requires AfterSenses(cons, senses)[j].priority == 0
    ensures var z := AfterSenses(cons, senses);
      var q := Phase(cons[j].kind);
      Reprioritised(cons, senses)[j].priority as int ==
        1 + Hits(cons, senses, |senses|) + ZerosInPhases(z, 0, q) + ZerosInPhases(z[..j], q, q + 1)
    ensures Reprioritised(cons, senses)[j].priority as int <= |senses| + |cons|
  {
    var c0 := 1 + Hits(cons, senses, |senses|);
    var z := AfterSenses(cons, senses);
    ReprioritisedSettled(cons, senses);
    PhaseBudget(cons, senses);
    SettledFinalAt(z, c0, j);
    assert z[j].kind == cons[j].kind by {
      RoundsKeepFields(cons, senses, |senses|);
    }
  }

  /** Once every phase round is over, a record that was at 0 holds its phase value. */
  lemma SettledFinalAt(z: seq<Connector>, c0: int, j: nat)
    requires j < |z| && z[j].priority == 0 && 1 <= c0 && c0 + Zeros(z) <= 0x1_0000
    ensures SettledTable(z, c0, |TypeOrder| + 1)[j].priority as int == PhaseValue(z, c0, j) < c0 + Zeros(z)
  {
    PhaseValueBound(z, c0, j);
  }

  /** A record some sense-list entry reached ends with the value of the last such entry. */
  lemma ReprioritisedSenseValue(cons: seq<Connector>, senses: seq<u8>, j: nat)
    requires WithinCounter(cons, senses) && j < |cons|
    requires LastHit(cons, senses, |senses|, j).Some?
    ensures Reprioritised(cons, senses)[j].priority as int ==
      1 + Hits(cons, senses, LastHit(cons, senses, |senses|, j).value)
  {
    var n := |senses|;
    var i := LastHit(cons, senses, n, j).value;
    SenseRoundsAt(cons, senses, n, j);
    LaterRoundsKeepSet(cons, senses, RoundCount(senses), j);
  }

  /** A record at 0 that no sense-list entry reaches is still 0 after the sense rounds. */
  lemma ZeroAfterSenses(cons: seq<Connector>, senses: seq<u8>, j: nat)
    requires j < |cons| && cons[j].priority == 0 && LastHit(cons, senses, |senses|, j).None?
    ensures AfterSenses(cons, senses)[j].priority == 0
  {
    SenseRoundsAt(cons, senses, |senses|, j);
  }

  lemma {:induction false} HitsMono(cons: seq<Connector>, senses: seq<u8>, a: nat, b: nat)
    requires a <= b <= |senses|
    ensures Hits(cons, senses, a) <= Hits(cons, senses, b)
    decreases b - a
  {
    if a < b {
      HitsMono(cons, senses, a, b - 1);
    }
  }

  /** An entry that reaches a record counts towards every later round. */
  lemma HitsPastHit(cons: seq<Connector>, senses: seq<u8>, i: nat, k: nat)
    requires i < k <= |senses| && FirstWithSense(cons, senses[i]).Some?
    ensures Hits(cons, senses, i) < Hits(cons, senses, k)
  {
    HitsMono(cons, senses, i + 1, k);
  }

  /** The round that gives record `j` its final value. */
  function FinalRound(cons: seq<Connector>, senses: seq<u8>, j: nat): nat
    requires j < |cons| && AssignedByPass(cons, senses, j)
  {
    match LastHit(cons, senses, |senses|, j)
    case Some(i) => i
    case None => |senses| + Phase(cons[j].kind)
  }

  /**
   * Records the pass assigns are ranked by the round that assigns them and,
   * within a round, by their place in the table.
   */
  lemma ReprioritisedOrder(cons: seq<Connector>, senses: seq<u8>, a: nat, b: nat)
    requires WithinCounter(cons, senses) && a < |cons| && b < |cons|
    requires AssignedByPass(cons, senses, a) && AssignedByPass(cons, senses, b)
    requires FinalRound(cons, senses, a) < FinalRound(cons, senses, b) ||
      (FinalRound(cons, senses, a) == FinalRound(cons, senses, b) && a < b)
    ensures Reprioritised(cons, senses)[a].priority < Reprioritised(cons, senses)[b].priority
  {
    var n := |senses|;
    var ha := LastHit(cons, senses, n, a);
    var hb := LastHit(cons, senses, n, b);
    if ha.Some? && hb.Some? {
      ReprioritisedSenseValue(cons, senses, a);
      ReprioritisedSenseValue(cons, senses, b);
      if ha.value == hb.value {
        assert false;
      }
      HitsPastHit(cons, senses, ha.value, hb.value);
    } else if ha.Some? {
      ReprioritisedSenseValue(cons, senses, a);
      HitsPastHit(cons, senses, ha.value, n);
      ZeroAfterSenses(cons, senses, b);
      ReprioritisedAfterSenses(cons, senses, b);
    } else if hb.Some? {
      assert false;
    } else {
      var z := AfterSenses(cons, senses);
      ZeroAfterSenses(cons, senses, a);
      ZeroAfterSenses(cons, senses, b);
      ReprioritisedAfterSenses(cons, senses, a);
      ReprioritisedAfterSenses(cons, senses, b);
      RoundsKeepFields(cons, senses, n);
      var qa := Phase(cons[a].kind);
      var qb := Phase(cons[b].kind);
      if qa < qb {
        ZerosInPhaseBefore(z, qa, a, |z|);
        assert z[..|z|] == z;
        ZerosInPhasesSplit(z, 0, qa, qa + 1);
        ZerosInPhasesSplit(z, 0, qa + 1, qb);
      } else {
        ZerosInPhaseBefore(z, qa, a, b);
      }
    }
  }

  /** The pass gives the records it assigns pairwise distinct priorities, whatever the starting table. */
  lemma ReprioritisedDistinctAssigned(cons: seq<Connector>, senses: seq<u8>, a: nat, b: nat)
    requires WithinCounter(cons, senses) && a < |cons| && b < |cons| && a != b
    requires AssignedByPass(cons, senses, a) && AssignedByPass(cons, senses, b)
    ensures Reprioritised(cons, senses)[a].priority != Reprioritised(cons, senses)[b].priority
  {
    if FinalRound(cons, senses, a) < FinalRound(cons, senses, b) ||
      (FinalRound(cons, senses, a) == FinalRound(cons, senses, b) && a < b) {
      ReprioritisedOrder(cons, senses, a, b);
    } else {
      ReprioritisedOrder(cons, senses, b, a);
    }
  }

  /**
   * Every priority the pass assigns lies between 1 and the sense-list length
   * plus the record count; the sense-list length counts because an id that
   * appears twice takes a counter value each time.
   */
  lemma ReprioritisedBound(cons: seq<Connector>, senses: seq<u8>, j: nat)
    requires WithinCounter(cons, senses) && j < |cons| && AssignedByPass(cons, senses, j)
    ensures 1 <= Reprioritised(cons, senses)[j].priority as int <= |senses| + |cons|
  {
    var n := |senses|;
    match LastHit(cons, senses, n, j)
    case Some(i) =>
      ReprioritisedSenseValue(cons, senses, j);
      HitsMono(cons, senses, i, n);
    case None =>
      ZeroAfterSenses(cons, senses, j);
      ReprioritisedAfterSenses(cons, senses, j);
  }

  /** One record reached twice by a repeated sense id ends with 2, past the record count of 1. */
  lemma RepeatedSenseExample()
    ensures Reprioritised([Connector(0, 0x02, 0, 0)], [0x02, 0x02])[0].priority == 2
  {
    var cons := [Connector(0, 0x02, 0, 0)];
    var senses: seq<u8> := [0x02, 0x02];
    assert FirstWithSense(cons, 0x02) == Some(0);
    assert LastHit(cons, senses, 2, 0) == Some(1);
    assert Hits(cons, senses, 1) == 1;
    ReprioritisedSenseValue(cons, senses, 0);
  }
}
