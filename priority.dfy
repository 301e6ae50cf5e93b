/**
 * Connector priority reassignment.
 *
 * Connectors the driver detects all come with priority 0, which can leave a
 * board with a black screen. The pass numbers them with a running counter
 * that starts at 1, in rounds over the whole table: one round per entry of
 * the user's sense list (`connector-priority`), then one per connector type
 * in the order LVDS, digital DVI, HDMI, DisplayPort, VGA, and a last round
 * for whatever is still 0.
 */
module Priority {
  import opened Types
  import opened Connectors

  /** The fixed type order of the type rounds. */
  const TypeOrder: seq<u32> := [ConnectorLVDS, ConnectorDigitalDVI, ConnectorHDMI, ConnectorDP, ConnectorVGA]

  /** One of the five type codes of the type rounds. */
  predicate InTypeOrder(kind: u32)
  {
    kind == ConnectorLVDS || kind == ConnectorDigitalDVI || kind == ConnectorHDMI ||
    kind == ConnectorDP || kind == ConnectorVGA
  }

  /** What one round looks for. */
  datatype Rule = BySense(sense: u8) | ByType(kind: u32) | Remaining

  /** Rounds in a pass over a sense list. */
  function RoundCount(senses: seq<u8>): nat
  {
    |senses| + |TypeOrder| + 1
  }

  /** The rule of round `i`. */
  function RuleAt(senses: seq<u8>, i: nat): (r: Rule)
    requires i < RoundCount(senses)
    ensures r.BySense? <==> i < |senses|
    ensures r.BySense? ==> r.sense == senses[i]
    ensures r.ByType? ==> |senses| <= i < |senses| + |TypeOrder| && r.kind == TypeOrder[i - |senses|]
    ensures r.ByType? ==> InTypeOrder(r.kind)
    ensures r.Remaining? <==> i == |senses| + |TypeOrder|
  {
    if i < |senses| then BySense(senses[i])
    else if i < |senses| + |TypeOrder| then ByType(TypeOrder[i - |senses|])
    else Remaining
  }

  /** A record a type round or the last round numbers: still at 0 (and of the round's type). */
  predicate Eligible(rule: Rule, c: Connector)
  {
    match rule
    case BySense(_) => false
    case ByType(t) => c.priority == 0 && c.kind == t
    case Remaining => c.priority == 0
  }

  /** How many records of `s` a round with `rule` numbers. */
  function CountEligible(s: seq<Connector>, rule: Rule): (n: nat)
    ensures n <= |s|
    decreases |s|
  {
    if s == [] then 0
    else CountEligible(s[..|s| - 1], rule) + (if Eligible(rule, s[|s| - 1]) then 1 else 0)
  }

  /** Records still at priority 0. */
  function Zeros(s: seq<Connector>): nat
  {
    CountEligible(s, Remaining)
  }

  /**
   * A type round or the last round: every eligible record, in array order,
   * takes the next counter value; the result pairs the table with the counter.
   */
  function Numbered(cons: seq<Connector>, rule: Rule, next: int): (r: (seq<Connector>, int))
    ensures |r.0| == |cons|
    ensures r.1 == next + CountEligible(cons, rule)
    decreases |cons|
  {
    if cons == [] then ([], next)
    else
      var front := Numbered(cons[..|cons| - 1], rule, next);
      var last := cons[|cons| - 1];
      if Eligible(rule, last) then (front.0 + [last.(priority := Wrap16(front.1))], front.1 + 1)
      else (front.0 + [last], front.1)
  }

  /**
   * Record `j` after a numbering round: an eligible record takes the counter
   * plus the number of eligible records before it, any other record is left alone.
   */
  lemma {:induction false} NumberedAt(cons: seq<Connector>, rule: Rule, next: int, j: nat)
    requires j < |cons|
    ensures Numbered(cons, rule, next).0[j] ==
      if Eligible(rule, cons[j]) then cons[j].(priority := Wrap16(next + CountEligible(cons[..j], rule)))
      else cons[j]
    decreases |cons|
  {
    var n := |cons|;
    if j < n - 1 {
      NumberedAt(cons[..n - 1], rule, next, j);
      assert cons[..n - 1][..j] == cons[..j];
    } else {
      assert cons[..n - 1] == cons[..j];
    }
  }

  /** The record a numbering round makes of `c` while the counter stands at `count`. */
  function Stamped(rule: Rule, c: Connector, count: u16): Connector
  {
    if Eligible(rule, c) then c.(priority := count) else c
  }

  /**
   * `trail[k]` is the 16-bit counter when a round reaches record `k` of `s`:
   * it starts at `first` and moves on by one past each record the round numbers.
   */
  predicate CounterTrail(s: seq<Connector>, rule: Rule, first: u16, trail: seq<u16>)
  {
    |trail| == |s| + 1 && trail[0] == first &&
    forall k :: 0 <= k < |s| ==> trail[k + 1] == if Eligible(rule, s[k]) then Succ16(trail[k]) else trail[k]
  }

  /** Along a counter trail, the counter at record `k` is the start plus the records numbered before it, mod 2^16. */
  lemma {:induction false} TrailCounts(s: seq<Connector>, rule: Rule, next: int, trail: seq<u16>, k: nat)
    requires CounterTrail(s, rule, Wrap16(next), trail) && k <= |s|
    ensures trail[k] == Wrap16(next + CountEligible(s[..k], rule))
    decreases k
  {
    if k > 0 {
      TrailCounts(s, rule, next, trail, k - 1);
      CountEligibleStep(s, rule, k - 1);
      WrapSucc(next + CountEligible(s[..k - 1], rule));
    }
  }

  /**
   * Stamping every record with the counter its trail gives it is exactly a
   * numbering round, and the trail ends at the round's next counter value.
   */
  lemma StampedIsNumbered(s: seq<Connector>, after: seq<Connector>, rule: Rule, next: int, trail: seq<u16>)
    requires CounterTrail(s, rule, Wrap16(next), trail)
    requires |after| == |s| && forall k :: 0 <= k < |s| ==> after[k] == Stamped(rule, s[k], trail[k])
    ensures after == Numbered(s, rule, next).0
    ensures trail[|s|] == Wrap16(Numbered(s, rule, next).1)
  {
    forall k | 0 <= k < |s| ensures after[k] == Numbered(s, rule, next).0[k] {
      TrailCounts(s, rule, next, trail, k);
      NumberedAt(s, rule, next, k);
    }
    TrailCounts(s, rule, next, trail, |s|);
    assert s[..|s|] == s;
  }

  /** Numbering one more record of a table: the last step of `Numbered` on a prefix. */
  lemma NumberedStep(s: seq<Connector>, rule: Rule, next: int, j: nat)
    requires j < |s|
    ensures var f := Numbered(s[..j], rule, next);
      Numbered(s[..j + 1], rule, next) ==
        if Eligible(rule, s[j]) then (f.0 + [s[j].(priority := Wrap16(f.1))], f.1 + 1)
        else (f.0 + [s[j]], f.1)
  {
    assert s[..j + 1][..j] == s[..j];
  }

  /** A numbering round touches priorities only. */
  lemma NumberedKeepsFields(cons: seq<Connector>, rule: Rule, next: int)
    ensures SameButPriority(Numbered(cons, rule, next).0, cons)
  {
    forall j | 0 <= j < |cons| {
      NumberedAt(cons, rule, next, j);
    }
  }

  /**
   * A sense round: the first record, in array order, with the round's sense
   * takes the next counter value, whatever its priority was.
   */
  function SenseAssigned(cons: seq<Connector>, sense: u8, next: int): (seq<Connector>, int)
  {
    match FirstWithSense(cons, sense)
    case None => (cons, next)
    case Some(j) => (cons[j := cons[j].(priority := Wrap16(next))], next + 1)
  }

  /** One round of the pass. */
  function Round(cons: seq<Connector>, rule: Rule, next: int): (seq<Connector>, int)
  {
    if rule.BySense? then SenseAssigned(cons, rule.sense, next) else Numbered(cons, rule, next)
  }

  /** The table and the counter after the first `k` rounds of a pass. */
  function Rounds(cons: seq<Connector>, senses: seq<u8>, k: nat): (r: (seq<Connector>, int))
    requires k <= RoundCount(senses)
    ensures |r.0| == |cons|
  {
    if k == 0 then (cons, 1)
    else
      var prev := Rounds(cons, senses, k - 1);
      Round(prev.0, RuleAt(senses, k - 1), prev.1)
  }

  /** After any number of rounds only priorities differ from the table the pass started with. */
  lemma {:induction false} RoundsKeepFields(cons: seq<Connector>, senses: seq<u8>, k: nat)
    requires k <= RoundCount(senses)
    ensures SameButPriority(Rounds(cons, senses, k).0, cons)
  {
    if k > 0 {
      RoundsKeepFields(cons, senses, k - 1);
      var prev := Rounds(cons, senses, k - 1);
      var rule := RuleAt(senses, k - 1);
      assert Rounds(cons, senses, k) == Round(prev.0, rule, prev.1);
      if !rule.BySense? {
        NumberedKeepsFields(prev.0, rule, prev.1);
      }
    }
  }

  /** The table after `reprioritiseConnectors(senses, ...)`. */
  function Reprioritised(cons: seq<Connector>, senses: seq<u8>): seq<Connector>
  {
    Rounds(cons, senses, RoundCount(senses)).0
  }

  /**
   * The counter stays far from wrapping: the sense list and the table are
   * short enough that `uint16_t` never overflows (in the driver both are
   * counted in `uint8_t`).
   */
  predicate WithinCounter(cons: seq<Connector>, senses: seq<u8>)
  {
    |senses| + |cons| < 0xFFFF
  }

  // ---- Counting lemmas ----

  lemma CountEligibleStep(s: seq<Connector>, rule: Rule, j: nat)
    requires j < |s|
    ensures CountEligible(s[..j + 1], rule) == CountEligible(s[..j], rule) + (if Eligible(rule, s[j]) then 1 else 0)
  {
    assert s[..j + 1][..j] == s[..j];
  }

  lemma {:induction false} CountEligiblePrefixMono(s: seq<Connector>, rule: Rule, a: nat, b: nat)
    requires a <= b <= |s|
    ensures CountEligible(s[..a], rule) <= CountEligible(s[..b], rule)
    decreases b - a
  {
    if a < b {
      CountEligibleStep(s, rule, a);
      CountEligiblePrefixMono(s, rule, a + 1, b);
    }
  }

  lemma {:induction false} EligibleBelowZeros(s: seq<Connector>, rule: Rule)
    ensures CountEligible(s, rule) <= Zeros(s)
    decreases |s|
  {
    if s != [] {
      EligibleBelowZeros(s[..|s| - 1], rule);
    }
  }

  /** Setting one record to a non-zero priority never adds a zero. */
  lemma {:induction false} ZerosAfterSet(s: seq<Connector>, j: nat, c: Connector)
    requires j < |s| && c.priority != 0
    ensures Zeros(s[j := c]) <= Zeros(s)
    decreases |s|
  {
    var n := |s|;
    if j == n - 1 {
      assert s[j := c][..n - 1] == s[..n - 1];
    } else {
      assert s[j := c][..n - 1] == s[..n - 1][j := c];
      ZerosAfterSet(s[..n - 1], j, c);
    }
  }

  /** A table with no zeros has every priority set. */
  lemma {:induction false} NoZerosAllSet(s: seq<Connector>)
    requires Zeros(s) == 0
    ensures forall j :: 0 <= j < |s| ==> s[j].priority != 0
    decreases |s|
  {
    if s != [] {
      NoZerosAllSet(s[..|s| - 1]);
      assert forall j :: 0 <= j < |s| - 1 ==> s[j] == s[..|s| - 1][j];
    }
  }

  /** A numbering round turns exactly the records it numbers from zero to non-zero. */
  lemma {:induction false} NumberedZeros(cons: seq<Connector>, rule: Rule, next: int)
    requires !rule.BySense? && 1 <= next && next + Zeros(cons) <= 0x1_0000
    ensures Zeros(Numbered(cons, rule, next).0) == Zeros(cons) - CountEligible(cons, rule)
    decreases |cons|
  {
    EligibleBelowZeros(cons, rule);
    if cons != [] {
      var n := |cons|;
      var front := Numbered(cons[..n - 1], rule, next);
      NumberedZeros(cons[..n - 1], rule, next);
      EligibleBelowZeros(cons[..n - 1], rule);
      var r := Numbered(cons, rule, next);
      assert r.0[..n - 1] == front.0;
    }
  }

  // ---- Whole-pass lemmas ----

  /** The counter and the zeros left after `k` rounds stay within the list and table sizes. */
  lemma {:induction false} RoundsBound(cons: seq<Connector>, senses: seq<u8>, k: nat)
    requires k <= RoundCount(senses) && WithinCounter(cons, senses)
    ensures 1 <= Rounds(cons, senses, k).1
    ensures Rounds(cons, senses, k).1 + Zeros(Rounds(cons, senses, k).0) <= 1 + (if k < |senses| then k else |senses|) + |cons|
  {
    if k > 0 {
      RoundsBound(cons, senses, k - 1);
      var prev := Rounds(cons, senses, k - 1);
      var rule := RuleAt(senses, k - 1);
      if rule.BySense? {
        match FirstWithSense(prev.0, rule.sense)
        case None =>
        case Some(j) =>
          ZerosAfterSet(prev.0, j, prev.0[j].(priority := Wrap16(prev.1)));
      } else {
        NumberedZeros(prev.0, rule, prev.1);
      }
    } else {
      assert Zeros(cons) <= |cons|;
    }
  }

  /** Every connector ends with a non-zero priority. */
  lemma ReprioritisedAllSet(cons: seq<Connector>, senses: seq<u8>)
    requires WithinCounter(cons, senses)
    ensures forall j :: 0 <= j < |cons| ==> Reprioritised(cons, senses)[j].priority != 0
  {
    var k := RoundCount(senses) - 1;
    RoundsBound(cons, senses, k);
    var prev := Rounds(cons, senses, k);
    NumberedZeros(prev.0, Remaining, prev.1);
    NoZerosAllSet(Reprioritised(cons, senses));
  }

  /** A round leaves alone a record that already has a priority, unless it is a sense round that reaches it. */
  lemma RoundKeeps(cons: seq<Connector>, rule: Rule, next: int, j: nat)
    requires j < |cons| && cons[j].priority != 0
    requires rule.BySense? ==> FirstWithSense(cons, rule.sense) != Some(j)
    ensures Round(cons, rule, next).0[j] == cons[j]
  {
    if !rule.BySense? {
      NumberedAt(cons, rule, next, j);
    }
  }

  /**
   * A record that already had a priority and that no sense-list entry
   * reaches keeps it through every round.
   */
  lemma {:induction false} RoundsKeepUnmatched(cons: seq<Connector>, senses: seq<u8>, k: nat, j: nat)
    requires k <= RoundCount(senses) && j < |cons| && cons[j].priority != 0
    requires forall i :: 0 <= i < |senses| ==> FirstWithSense(cons, senses[i]) != Some(j)
    ensures Rounds(cons, senses, k).0[j] == cons[j]
  {
    if k > 0 {
      RoundsKeepUnmatched(cons, senses, k - 1, j);
      if k - 1 < |senses| {
        assert FirstWithSense(cons, senses[k - 1]) != Some(j);
      }
      RoundsKeepUnmatchedStep(cons, senses, k, j);
    }
  }

  /** One round of the lemma above. */
  lemma RoundsKeepUnmatchedStep(cons: seq<Connector>, senses: seq<u8>, k: nat, j: nat)
    requires 0 < k <= RoundCount(senses) && j < |cons| && cons[j].priority != 0
    requires Rounds(cons, senses, k - 1).0[j] == cons[j]
    requires k - 1 < |senses| ==> FirstWithSense(cons, senses[k - 1]) != Some(j)
    ensures Rounds(cons, senses, k).0[j] == cons[j]
  {
    var prev := Rounds(cons, senses, k - 1);
    var rule := RuleAt(senses, k - 1);
    assert Rounds(cons, senses, k) == Round(prev.0, rule, prev.1);
    if rule.BySense? {
      assert FirstWithSense(prev.0, rule.sense) != Some(j) by {
        assert rule.sense == senses[k - 1];
        RoundsKeepFields(cons, senses, k - 1);
        FirstWithSenseReadsOnlySenses(prev.0, cons, rule.sense);
      }
    }
    RoundKeeps(prev.0, rule, prev.1, j);
  }

  /** The whole-pass form of the lemma above. */
  lemma ReprioritisedKeepsUnmatched(cons: seq<Connector>, senses: seq<u8>, j: nat)
    requires j < |cons| && cons[j].priority != 0
    requires forall i :: 0 <= i < |senses| ==> FirstWithSense(cons, senses[i]) != Some(j)
    ensures Reprioritised(cons, senses)[j] == cons[j]
  {
    RoundsKeepUnmatched(cons, senses, RoundCount(senses), j);
  }

  /** Every priority lies below `next` and the non-zero ones are pairwise distinct. */
  predicate DistinctBelow(s: seq<Connector>, next: int)
  {
    (forall j :: 0 <= j < |s| ==> s[j].priority as int < next) &&
    (forall a, b :: 0 <= a < b < |s| && s[a].priority != 0 ==> s[a].priority != s[b].priority)
  }

  /** The value a numbering round gives record `j`, and where it lies. */
  lemma NumberedValue(cons: seq<Connector>, rule: Rule, next: int, j: nat)
    requires !rule.BySense? && j < |cons| && Eligible(rule, cons[j])
    requires 1 <= next && next + CountEligible(cons, rule) <= 0x1_0000
    ensures Numbered(cons, rule, next).0[j].priority as int == next + CountEligible(cons[..j], rule)
    ensures next <= next + CountEligible(cons[..j], rule) < Numbered(cons, rule, next).1
  {
    NumberedAt(cons, rule, next, j);
    CountEligibleStep(cons, rule, j);
    CountEligiblePrefixMono(cons, rule, j + 1, |cons|);
    assert cons[..|cons|] == cons;
  }

  lemma NumberedDistinct(cons: seq<Connector>, rule: Rule, next: int)
    requires !rule.BySense? && DistinctBelow(cons, next)
    requires 1 <= next && next + CountEligible(cons, rule) <= 0x1_0000
    ensures DistinctBelow(Numbered(cons, rule, next).0, Numbered(cons, rule, next).1)
  {
    var r := Numbered(cons, rule, next);
    forall j | 0 <= j < |cons|
      ensures r.0[j].priority as int < r.1
      ensures Eligible(rule, cons[j]) ==> next <= r.0[j].priority as int
      ensures !Eligible(rule, cons[j]) ==> r.0[j] == cons[j]
    {
      NumberedAt(cons, rule, next, j);
      if Eligible(rule, cons[j]) {
        NumberedValue(cons, rule, next, j);
      }
    }
    forall a, b | 0 <= a < b < |cons| && r.0[a].priority != 0
      ensures r.0[a].priority != r.0[b].priority
    {
      if Eligible(rule, cons[a]) && Eligible(rule, cons[b]) {
        NumberedValue(cons, rule, next, a);
        NumberedValue(cons, rule, next, b);
        CountEligibleStep(cons, rule, a);
        CountEligiblePrefixMono(cons, rule, a + 1, b);
      }
    }
  }

  lemma SenseAssignedDistinct(cons: seq<Connector>, sense: u8, next: int)
    requires DistinctBelow(cons, next) && 1 <= next < 0xFFFF
    ensures DistinctBelow(SenseAssigned(cons, sense, next).0, SenseAssigned(cons, sense, next).1)
  {
    match FirstWithSense(cons, sense)
    case None =>
    case Some(i) =>
      var r := cons[i := cons[i].(priority := Wrap16(next))];
      assert r[i].priority as int == next;
      forall a, b | 0 <= a < b < |r| && r[a].priority != 0
        ensures r[a].priority != r[b].priority
      {
        if a != i && b != i {
          assert r[a] == cons[a] && r[b] == cons[b];
        }
      }
  }

  lemma {:induction false} RoundsDistinct(cons: seq<Connector>, senses: seq<u8>, k: nat)
    requires k <= RoundCount(senses) && WithinCounter(cons, senses)
    requires forall j :: 0 <= j < |cons| ==> cons[j].priority == 0
    ensures DistinctBelow(Rounds(cons, senses, k).0, Rounds(cons, senses, k).1)
  {
    if k > 0 {
      RoundsDistinct(cons, senses, k - 1);
      RoundsBound(cons, senses, k - 1);
      var prev := Rounds(cons, senses, k - 1);
      var rule := RuleAt(senses, k - 1);
      assert Rounds(cons, senses, k) == Round(prev.0, rule, prev.1);
      if rule.BySense? {
        SenseAssignedDistinct(prev.0, rule.sense, prev.1);
      } else {
        EligibleBelowZeros(prev.0, rule);
        NumberedDistinct(prev.0, rule, prev.1);
      }
    }
  }

  /** Starting from a table with every priority 0, the pass gives pairwise distinct non-zero priorities. */
  lemma ReprioritisedDistinct(cons: seq<Connector>, senses: seq<u8>, a: nat, b: nat)
    requires WithinCounter(cons, senses) && a < b < |cons|
    requires forall j :: 0 <= j < |cons| ==> cons[j].priority == 0
    ensures Reprioritised(cons, senses)[a].priority != Reprioritised(cons, senses)[b].priority
  {
    RoundsDistinct(cons, senses, RoundCount(senses));
    ReprioritisedAllSet(cons, senses);
  }

  // ---- The sense rounds, record by record ----

  /** How many of the first `k` sense-list entries reach some record. */
  function Hits(cons: seq<Connector>, senses: seq<u8>, k: nat): (h: nat)
    requires k <= |senses|
    ensures h <= k
  {
    if k == 0 then 0
    else Hits(cons, senses, k - 1) + (if FirstWithSense(cons, senses[k - 1]).Some? then 1 else 0)
  }

  /** The last of the first `k` sense-list entries that reaches record `j`. */
  function LastHit(cons: seq<Connector>, senses: seq<u8>, k: nat, j: nat): (r: Option<nat>)
    requires k <= |senses|
    ensures r.Some? ==> r.value < k && FirstWithSense(cons, senses[r.value]) == Some(j)
  {
    if k == 0 then None
    else if FirstWithSense(cons, senses[k - 1]) == Some(j) then Some(k - 1)
    else LastHit(cons, senses, k - 1, j)
  }

  /** No entry after the last hit reaches record `j`, and with no hit none does. */
  lemma {:induction false} LastHitIsLast(cons: seq<Connector>, senses: seq<u8>, k: nat, j: nat)
    requires k <= |senses|
    ensures var r := LastHit(cons, senses, k, j);
      (r.Some? ==> forall i :: r.value < i < k ==> FirstWithSense(cons, senses[i]) != Some(j)) &&
      (r.None? ==> forall i :: 0 <= i < k ==> FirstWithSense(cons, senses[i]) != Some(j))
  {
    if k > 0 && FirstWithSense(cons, senses[k - 1]) != Some(j) {
      LastHitIsLast(cons, senses, k - 1, j);
    }
  }

  /** Both counts above read nothing but the sense ids. */
  lemma {:induction false} HitsReadOnlySenses(a: seq<Connector>, b: seq<Connector>, senses: seq<u8>, k: nat, j: nat)
    requires k <= |senses| && SameButPriority(a, b)
    ensures Hits(a, senses, k) == Hits(b, senses, k)
    ensures LastHit(a, senses, k, j) == LastHit(b, senses, k, j)
  {
    if k > 0 {
      HitsReadOnlySenses(a, b, senses, k - 1, j);
      FirstWithSenseReadsOnlySenses(a, b, senses[k - 1]);
    }
  }

  /**
   * The priority record `j` holds after the first `k` sense rounds: the
   * value of the last entry that reached it, or its old priority when none did.
   */
  function SensePriority(cons: seq<Connector>, senses: seq<u8>, k: nat, j: nat): u16
    requires k <= |senses| && j < |cons|
  {
    match LastHit(cons, senses, k, j)
    case None => cons[j].priority
    case Some(i) => Wrap16(1 + Hits(cons, senses, i))
  }

  /**
   * After the first `k` sense rounds record `j` holds `SensePriority`: a
   * later entry overwrites an earlier one, and an already set priority is
   * overwritten too.
   */
  lemma {:induction false} SenseRoundsAt(cons: seq<Connector>, senses: seq<u8>, k: nat, j: nat)
    requires k <= |senses| && j < |cons|
    ensures Rounds(cons, senses, k).0[j].priority == SensePriority(cons, senses, k, j)
  {
    if k > 0 {
      SenseRoundsAt(cons, senses, k - 1, j);
      var prev := Rounds(cons, senses, k - 1);
      var sense := senses[k - 1];
      assert Rounds(cons, senses, k) == SenseAssigned(prev.0, sense, prev.1) by {
        assert RuleAt(senses, k - 1) == BySense(sense);
      }
      assert FirstWithSense(prev.0, sense) == FirstWithSense(cons, sense) by {
        RoundsKeepFields(cons, senses, k - 1);
        FirstWithSenseReadsOnlySenses(prev.0, cons, sense);
      }
      match FirstWithSense(cons, sense)
      case None =>
        assert LastHit(cons, senses, k, j) == LastHit(cons, senses, k - 1, j);
      case Some(m) =>
        if m == j {
          SenseRoundsCounter(cons, senses, k - 1);
          assert LastHit(cons, senses, k, j) == Some(k - 1);
          assert Rounds(cons, senses, k).0[j].priority == Wrap16(prev.1);
        } else {
          assert LastHit(cons, senses, k, j) == LastHit(cons, senses, k - 1, j);
          assert Rounds(cons, senses, k).0[j] == prev.0[j];
        }
    }
  }

  /** After the first `k` sense rounds the counter is one past the number of entries that reached a record. */
  lemma {:induction false} SenseRoundsCounter(cons: seq<Connector>, senses: seq<u8>, k: nat)
    requires k <= |senses|
    ensures Rounds(cons, senses, k).1 == 1 + Hits(cons, senses, k)
  {
    if k > 0 {
      SenseRoundsCounter(cons, senses, k - 1);
      var prev := Rounds(cons, senses, k - 1);
      var sense := senses[k - 1];
      assert RuleAt(senses, k - 1) == BySense(sense);
      assert Rounds(cons, senses, k) == SenseAssigned(prev.0, sense, prev.1);
      assert FirstWithSense(prev.0, sense) == FirstWithSense(cons, sense) by {
        RoundsKeepFields(cons, senses, k - 1);
        FirstWithSenseReadsOnlySenses(prev.0, cons, sense);
      }
    }
  }

  /** Once the sense rounds are over, a non-zero priority is final. */
  lemma {:induction false} LaterRoundsKeepSet(cons: seq<Connector>, senses: seq<u8>, k: nat, j: nat)
    requires |senses| <= k <= RoundCount(senses) && j < |cons|
    requires Rounds(cons, senses, |senses|).0[j].priority != 0
    ensures Rounds(cons, senses, k).0[j].priority == Rounds(cons, senses, |senses|).0[j].priority
  {
    if k > |senses| {
      LaterRoundsKeepSet(cons, senses, k - 1, j);
      var prev := Rounds(cons, senses, k - 1);
      NumberedAt(prev.0, RuleAt(senses, k - 1), prev.1, j);
    }
  }

  /** On a table without zeros the type rounds and the last round change nothing. */
  lemma {:induction false} LaterRoundsIdleWithoutZeros(cons: seq<Connector>, senses: seq<u8>, k: nat)
    requires |senses| <= k <= RoundCount(senses)
    requires forall j :: 0 <= j < |cons| ==> Rounds(cons, senses, |senses|).0[j].priority != 0
    ensures Rounds(cons, senses, k).0 == Rounds(cons, senses, |senses|).0
  {
    if k > |senses| {
      LaterRoundsIdleWithoutZeros(cons, senses, k - 1);
      LaterRoundStep(cons, senses, k);
      var prev := Rounds(cons, senses, k - 1);
      NumberedIdleWithoutZeros(prev.0, RuleAt(senses, k - 1), prev.1);
    }
  }

  /** Running the pass again on its own output, with the same sense list, changes nothing. */
  lemma ReprioritisedIdempotent(cons: seq<Connector>, senses: seq<u8>)
    requires WithinCounter(cons, senses)
    ensures Reprioritised(Reprioritised(cons, senses), senses) == Reprioritised(cons, senses)
  {
    var phi := Reprioritised(cons, senses);
    var n := |senses|;
    ReprioritisedAllSet(cons, senses);
    RoundsKeepFields(cons, senses, RoundCount(senses));
    RoundsKeepFields(phi, senses, n);
    var again := Rounds(phi, senses, n).0;
    forall j | 0 <= j < |phi|
      ensures again[j] == phi[j]
    {
      SenseRoundsAt(phi, senses, n, j);
      SenseRoundsAt(cons, senses, n, j);
      HitsReadOnlySenses(phi, cons, senses, n, j);
      match LastHit(cons, senses, n, j)
      case None =>
      case Some(i) =>
        HitsReadOnlySenses(phi, cons, senses, i, j);
        LaterRoundsKeepSet(cons, senses, RoundCount(senses), j);
    }
    assert again == phi;
    LaterRoundsIdleWithoutZeros(phi, senses, RoundCount(senses));
  }

  /**
   * A worked case: senses [0x02, 0x08] over records with senses 0x08, 0x02,
   * 0x01 (type codes outside the type order, all at priority 0) give
   * priorities 2, 1 and 3.
   */
  lemma SenseListExample()
    ensures var r := Reprioritised([Connector(0, 0x08, 0, 0), Connector(0, 0x02, 0, 0), Connector(0, 0x01, 0, 0)], [0x02, 0x08]);
      r[0].priority == 2 && r[1].priority == 1 && r[2].priority == 3
  {
    var cons := [Connector(0, 0x08, 0, 0), Connector(0, 0x02, 0, 0), Connector(0, 0x01, 0, 0)];
    var senses: seq<u8> := [0x02, 0x08];
    var after2 := [Connector(0, 0x08, 0, 2), Connector(0, 0x02, 0, 1), Connector(0, 0x01, 0, 0)];
    ExampleSenseRounds();
    LaterRoundsUntouchedKinds(cons, senses, 7);
    assert Rounds(cons, senses, 8) == Numbered(after2, Remaining, 3);
    NoneEligible(after2[..2], Remaining);
    NumberedAt(after2, Remaining, 3, 0);
    NumberedAt(after2, Remaining, 3, 1);
    NumberedAt(after2, Remaining, 3, 2);
  }

  lemma ExampleSenseRounds()
    ensures Rounds([Connector(0, 0x08, 0, 0), Connector(0, 0x02, 0, 0), Connector(0, 0x01, 0, 0)], [0x02, 0x08], 2)
         == ([Connector(0, 0x08, 0, 2), Connector(0, 0x02, 0, 1), Connector(0, 0x01, 0, 0)], 3)
  {
    var cons := [Connector(0, 0x08, 0, 0), Connector(0, 0x02, 0, 0), Connector(0, 0x01, 0, 0)];
    var senses: seq<u8> := [0x02, 0x08];
    var after1 := [Connector(0, 0x08, 0, 0), Connector(0, 0x02, 0, 1), Connector(0, 0x01, 0, 0)];
    var after2 := [Connector(0, 0x08, 0, 2), Connector(0, 0x02, 0, 1), Connector(0, 0x01, 0, 0)];
    assert FirstWithSense(cons[1..], 0x02) == Some(0);
    assert after1 == cons[1 := cons[1].(priority := Wrap16(1))];
    assert Rounds(cons, senses, 1) == (after1, 2);
    assert after2 == after1[0 := after1[0].(priority := Wrap16(2))];
  }

  /** Type rounds over records whose type codes are not in the type order change nothing. */
  lemma {:induction false} LaterRoundsUntouchedKinds(cons: seq<Connector>, senses: seq<u8>, k: nat)
    requires |senses| <= k <= |senses| + |TypeOrder|
    requires forall j :: 0 <= j < |cons| ==> !InTypeOrder(cons[j].kind)
    ensures Rounds(cons, senses, k) == Rounds(cons, senses, |senses|)
  {
    if k > |senses| {
      LaterRoundsUntouchedKinds(cons, senses, k - 1);
      LaterRoundStep(cons, senses, k);
      var prev := Rounds(cons, senses, k - 1);
      var rule := RuleAt(senses, k - 1);
      assert rule.ByType? && InTypeOrder(rule.kind);
      assert forall j :: 0 <= j < |prev.0| ==> !Eligible(rule, prev.0[j]) by {
        RoundsKeepFields(cons, senses, k - 1);
        forall j | 0 <= j < |prev.0| ensures !Eligible(rule, prev.0[j]) {
          assert prev.0[j].kind == cons[j].kind;
        }
      }
      NumberedIdle(prev.0, rule, prev.1);
    }
  }

  /** A round that finds no eligible record changes nothing. */
  lemma {:induction false} NumberedIdle(cons: seq<Connector>, rule: Rule, next: int)
    requires forall j :: 0 <= j < |cons| ==> !Eligible(rule, cons[j])
    ensures Numbered(cons, rule, next) == (cons, next)
    decreases |cons|
  {
    if cons != [] {
      var front := cons[..|cons| - 1];
      forall j | 0 <= j < |front| ensures !Eligible(rule, front[j]) {
        assert front[j] == cons[j];
      }
      NumberedIdle(front, rule, next);
      assert front + [cons[|cons| - 1]] == cons;
    }
  }

  /** A round after the sense rounds is a numbering round. */
  lemma LaterRoundStep(cons: seq<Connector>, senses: seq<u8>, k: nat)
    requires |senses| < k <= RoundCount(senses)
    ensures !RuleAt(senses, k - 1).BySense?
    ensures var prev := Rounds(cons, senses, k - 1);
      Rounds(cons, senses, k) == Numbered(prev.0, RuleAt(senses, k - 1), prev.1)
  {
  }

  /** A type round or the last round over a table without zeros changes nothing. */
  lemma NumberedIdleWithoutZeros(cons: seq<Connector>, rule: Rule, next: int)
    requires !rule.BySense? && forall j :: 0 <= j < |cons| ==> cons[j].priority != 0
    ensures Numbered(cons, rule, next) == (cons, next)
  {
    NumberedIdle(cons, rule, next);
  }

  lemma {:induction false} NoneEligible(s: seq<Connector>, rule: Rule)
    requires forall j :: 0 <= j < |s| ==> !Eligible(rule, s[j])
    ensures CountEligible(s, rule) == 0
    decreases |s|
  {
    if s != [] {
      NoneEligible(s[..|s| - 1], rule);
    }
  }

  // ---- The outer loop guard as written ----

  /**
   * The outer loop of the source counts rounds in a `uint8_t` and compares
   * it, widened to `int`, with `senseNum + typeNum + 1`.
   */
  predicate OuterGuardAsWritten(i: u8, senseNum: u8)
  {
    (i as int) < senseNum as int + |TypeOrder| + 1
  }

  /** The `uint8_t` increment of the round index. */
  function Increment8(i: u8): u8
  {
    ((i as int + 1) % 0x100) as u8
  }

  /**
   * With 250 or more sense-list entries the guard as written holds for every
   * value the 8-bit index can take, and so again after the index's increment:
   * the outer loop never exits.
   */
  lemma AsWrittenOuterLoopNeverExits(senseNum: u8, i: u8)
    requires senseNum >= 250
    ensures OuterGuardAsWritten(i, senseNum)
    ensures OuterGuardAsWritten(Increment8(i), senseNum)
  {
  }

  // ---- The pass in place ----

  /** `priCount++` on the 16-bit counter: 0xFFFF wraps to 0. */
  function Succ16(c: u16): u16
  {
    if c == 0xFFFF then 0 else c + 1
  }

  /** Incrementing the wrapped counter wraps the incremented count. */
  lemma WrapSucc(n: int)
    ensures Succ16(Wrap16(n)) == Wrap16(n + 1)
  {
    var q := n / 0x1_0000;
    assert n == q * 0x1_0000 + Wrap16(n) as int;
    assert n + 1 == q * 0x1_0000 + (Wrap16(n) as int + 1);
  }

  /** A sense round on the first `sz` records, in place; gives the next counter value. */
  method AssignBySense(connectors: array<Connector>, sz: u8, sense: u8, priCount: u16, ghost next: int) returns (count: u16)
    requires sz as int <= connectors.Length && priCount == Wrap16(next)
    modifies connectors
    ensures connectors[..sz] == SenseAssigned(old(connectors[..sz]), sense, next).0
    ensures count == Wrap16(SenseAssigned(old(connectors[..sz]), sense, next).1)
    ensures forall k :: sz as int <= k < connectors.Length ==> connectors[k] == old(connectors[k])
  {
    ghost var start := connectors[..sz];
    FirstWithSenseIsFirst(start, sense);
    count := priCount;
    var j: u8 := 0;
    while j < sz
      invariant j <= sz
      invariant forall k :: 0 <= k < j as int ==> start[k].sense != sense
      invariant connectors[..] == old(connectors[..])
    {
      if connectors[j].sense == sense {
        assert FirstWithSense(start, sense) == Some(j as nat);
        connectors[j] := connectors[j].(priority := count);
        WrapSucc(next);
        count := Succ16(count);
        assert connectors[..sz] == start[j as int := start[j].(priority := Wrap16(next))];
        return;
      }
      j := j + 1;
    }
  }

  /**
   * A type round or the last round on the first `sz` records, in place: each
   * eligible record, in array order, takes the 16-bit counter, which then
   * moves on by one. The ghost `trail` records the counter as the loop
   * reaches each record; the index never wraps, so it is an ordinary integer.
   */
  method AssignInOrder(connectors: array<Connector>, sz: u8, rule: Rule, priCount: u16) returns (count: u16, ghost trail: seq<u16>)
    requires sz as int <= connectors.Length
    modifies connectors
    ensures CounterTrail(old(connectors[..sz]), rule, priCount, trail) && count == trail[sz]
    ensures forall k :: 0 <= k < sz as int ==> connectors[k] == Stamped(rule, old(connectors[k]), trail[k])
    ensures forall k :: sz as int <= k < connectors.Length ==> connectors[k] == old(connectors[k])
  {
    ghost var start := connectors[..sz];
    count := priCount;
    trail := [priCount];
    var j: nat := 0;
    while j < sz as int
      invariant j <= sz as int
      invariant |trail| == j + 1 && trail[0] == priCount && trail[j] == count
      invariant forall k :: 0 <= k < j ==> trail[k + 1] == if Eligible(rule, start[k]) then Succ16(trail[k]) else trail[k]
      invariant forall k :: 0 <= k < j ==> connectors[k] == Stamped(rule, start[k], trail[k])
      invariant forall k :: j <= k < connectors.Length ==> connectors[k] == old(connectors[k])
    {
      assert start[j] == connectors[j];
      if Eligible(rule, connectors[j]) {
        connectors[j] := connectors[j].(priority := count);
        count := Succ16(count);
      }
      trail := trail + [count];
      j := j + 1;
    }
  }

  /** One round on the first `sz` records, in place: the body of the source's `reorder` over the table. */
  method AssignRound(connectors: array<Connector>, sz: u8, rule: Rule, priCount: u16, ghost next: int) returns (count: u16)
    requires sz as int <= connectors.Length && priCount == Wrap16(next)
    modifies connectors
    ensures connectors[..sz] == Round(old(connectors[..sz]), rule, next).0
    ensures count == Wrap16(Round(old(connectors[..sz]), rule, next).1)
    ensures forall k :: sz as int <= k < connectors.Length ==> connectors[k] == old(connectors[k])
  {
    if rule.BySense? {
      count := AssignBySense(connectors, sz, rule.sense, priCount, next);
    } else {
      ghost var start := connectors[..sz];
      ghost var trail;
      count, trail := AssignInOrder(connectors, sz, rule, priCount);
      StampedIsNumbered(start, connectors[..sz], rule, next, trail);
    }
  }

  /**
   * `reprioritiseConnectors`: runs every round of the pass over the first
   * `sz` records with the first `senseNum` bytes of the sense list. The
   * round index is a mathematical integer, so the pass also ends for 250 or
   * more sense-list entries, where the 8-bit index of the source never does.
   */
  method ReprioritiseConnectors(senseList: seq<u8>, senseNum: u8, connectors: array<Connector>, sz: u8)
    requires senseNum as int <= |senseList| && sz as int <= connectors.Length
    modifies connectors
    ensures connectors[..sz] == Reprioritised(old(connectors[..sz]), senseList[..senseNum])
    ensures forall k :: sz as int <= k < connectors.Length ==> connectors[k] == old(connectors[k])
  {
    var senses := senseList[..senseNum];
    ghost var start := connectors[..sz];
    var priCount: u16 := 1;
    var i: nat := 0;
    while i < senseNum as int + |TypeOrder| + 1
      invariant i <= RoundCount(senses)
      invariant connectors[..sz] == Rounds(start, senses, i).0
      invariant priCount == Wrap16(Rounds(start, senses, i).1)
      invariant forall k :: sz as int <= k < connectors.Length ==> connectors[k] == old(connectors[k])
    {
      ghost var prev := Rounds(start, senses, i);
      priCount := AssignRound(connectors, sz, RuleAt(senses, i), priCount, prev.1);
      assert Rounds(start, senses, i + 1) == Round(prev.0, RuleAt(senses, i), prev.1);
      i := i + 1;
    }
  }
}
