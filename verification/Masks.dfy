/**
 Voter masks. A uint64 bitset is the natural number with those binary digits; node `id`
 owns digit `id - 1`. The bitwise operators are defined digit by digit, and every mask
 operation is related to the set of node ids it stands for.
 */
module Masks {

  type Mask = nat

  // ---------------------------------------------------------------- operators

  function Pow2(k: nat): (p: nat)
    ensures p > 0
  {
    if k == 0 then 1 else 2 * Pow2(k - 1)
  }

  function And(a: Mask, b: Mask): (c: Mask)
    ensures c <= a && c <= b
  {
    if a == 0 || b == 0 then 0 else (if a % 2 == 1 && b % 2 == 1 then 1 else 0) + 2 * And(a / 2, b / 2)
  }

  function Or(a: Mask, b: Mask): Mask {
    if a == 0 then b
    else if b == 0 then a
    else (if a % 2 == 1 || b % 2 == 1 then 1 else 0) + 2 * Or(a / 2, b / 2)
  }

  /** `uint64(1) << (id - 1)`; the source panics outside 1..64. */
  function NodeBit(id: nat): (m: Mask)
    requires id > 0
    ensures m > 0
  {
    Pow2(id - 1)
  }

  // ---------------------------------------------------------------- meaning

  /** The ids whose digits are set, digit 0 standing for id `first`. */
  function IdsFrom(m: Mask, first: nat): (s: set<nat>)
    ensures forall i :: i in s ==> first <= i
    decreases m
  {
    if m == 0 then {} else (if m % 2 == 1 then {first} else {}) + IdsFrom(m / 2, first + 1)
  }

  function Ids(m: Mask): (s: set<nat>)
    ensures forall i :: i in s ==> 0 < i
  {
    IdsFrom(m, 1)
  }

  lemma {:induction false} IdsFromEmpty(m: Mask, first: nat)
    ensures IdsFrom(m, first) == {} <==> m == 0
    decreases m
  {
    if m != 0 { IdsFromEmpty(m / 2, first + 1); }
  }

  lemma {:induction false} AndMeansIntersection(a: Mask, b: Mask, first: nat)
    ensures IdsFrom(And(a, b), first) == IdsFrom(a, first) * IdsFrom(b, first)
    decreases a
  {
    if a != 0 && b != 0 {
      AndMeansIntersection(a / 2, b / 2, first + 1);
      var c := And(a, b);
      assert c / 2 == And(a / 2, b / 2) && (c % 2 == 1 <==> a % 2 == 1 && b % 2 == 1) by { AndDigits(a, b); }
      assert IdsFrom(c, first) == (if c % 2 == 1 then {first} else {}) + IdsFrom(c / 2, first + 1);
    }
  }

  lemma AndDigits(a: Mask, b: Mask)
    requires a != 0 && b != 0
    ensures And(a, b) / 2 == And(a / 2, b / 2)
    ensures And(a, b) % 2 == 1 <==> a % 2 == 1 && b % 2 == 1
  {
    assert (a % 2) * (b % 2) == if a % 2 == 1 && b % 2 == 1 then 1 else 0;
  }

  lemma {:induction false} OrMeansUnion(a: Mask, b: Mask, first: nat)
    ensures IdsFrom(Or(a, b), first) == IdsFrom(a, first) + IdsFrom(b, first)
    decreases a
  {
    if a != 0 && b != 0 {
      OrMeansUnion(a / 2, b / 2, first + 1);
      var c := Or(a, b);
      assert c / 2 == Or(a / 2, b / 2) && (c % 2 == 1 <==> a % 2 == 1 || b % 2 == 1);
      assert IdsFrom(c, first) == (if c % 2 == 1 then {first} else {}) + IdsFrom(c / 2, first + 1);
    }
  }

  lemma {:induction false} Pow2MeansSingleton(k: nat, first: nat)
    ensures IdsFrom(Pow2(k), first) == {first + k}
    decreases k
  {
    if k == 0 {
      assert IdsFrom(1, first) == {first} + IdsFrom(0, first + 1);
    } else {
      var p := Pow2(k);
      Pow2MeansSingleton(k - 1, first + 1);
      assert p / 2 == Pow2(k - 1) && p % 2 == 0;
    }
  }

  /** Recording a vote or an acknowledgement adds exactly the sender. */
  lemma RecordingAddsSender(m: Mask, id: nat)
    requires id > 0
    ensures Ids(NodeBit(id)) == {id}
    ensures Ids(Or(m, NodeBit(id))) == Ids(m) + {id}
  {
    Pow2MeansSingleton(id - 1, 1);
    OrMeansUnion(m, NodeBit(id), 1);
  }

  /** The bit test `mask & nodeBit(id) != 0` is membership. */
  lemma TestingIsMembership(m: Mask, id: nat)
    requires id > 0
    ensures And(m, NodeBit(id)) != 0 <==> id in Ids(m)
  {
    Pow2MeansSingleton(id - 1, 1);
    AndMeansIntersection(m, NodeBit(id), 1);
    IdsFromEmpty(And(m, NodeBit(id)), 1);
  }

  // ---------------------------------------------------------------- counting

  lemma {:induction false} AndSelf(a: Mask)
    ensures And(a, a) == a
    decreases a
  {
    if a != 0 { AndSelf(a / 2); }
  }

  /** Clearing the lowest set digit removes exactly one id. */
  lemma {:induction false} ClearingLowestRemovesOne(m: Mask, first: nat)
    requires m != 0
    ensures And(m, m - 1) < m
    ensures |IdsFrom(And(m, m - 1), first)| == |IdsFrom(m, first)| - 1
    decreases m
  {
    hide And, IdsFrom;
    var c, half := And(m, m - 1), m / 2;
    LowestDigit(m);
    IdsDigit(m, first);
    IdsDigit(c, first);
    if m % 2 == 0 { ClearingLowestRemovesOne(half, first + 1); }
  }

  /** How clearing the lowest set digit acts on the last digit and on the rest. */
  lemma LowestDigit(m: Mask)
    requires m != 0
    ensures var c := And(m, m - 1);
            c % 2 == 0 && c / 2 == if m % 2 == 1 then m / 2 else And(m / 2, m / 2 - 1)
  {
    if m == 1 {
      assert And(1, 0) == 0;
    } else {
      AndDigits(m, m - 1);
      AndSelf(m / 2);
      assert (m - 1) / 2 == if m % 2 == 1 then m / 2 else m / 2 - 1;
    }
  }

  lemma IdsDigit(m: Mask, first: nat)
    ensures |IdsFrom(m, first)| == m % 2 + |IdsFrom(m / 2, first + 1)|
  {
    if m != 0 && m % 2 == 1 {
      assert first !in IdsFrom(m / 2, first + 1);
      assert IdsFrom(m, first) == {first} + IdsFrom(m / 2, first + 1);
    } else if m != 0 {
      assert IdsFrom(m, first) == {} + IdsFrom(m / 2, first + 1);
    }
  }

  /** The bit-clearing loop counts the members of the set. */
  method BitsSet(mask: Mask) returns (count: nat)
    ensures count == |Ids(mask)|
  {
    var m := mask;
    count := 0;
    while m != 0
      invariant count + |Ids(m)| == |Ids(mask)|
      decreases m
    {
      ClearingLowestRemovesOne(m, 1);
      m := And(m, m - 1);
      count := count + 1;
    }
  }

  // ---------------------------------------------------------------- quorums

  /** A strict majority of a non-empty voter set is among the acknowledged ids. */
  predicate Majority(voters: set<nat>, acked: set<nat>) {
    voters != {} && |voters * acked| >= |voters| / 2 + 1
  }

  /** An index is committed under (old, new) with a majority of both; an empty `new` asks nothing. */
  predicate JointQuorum(oldVoters: Mask, newVoters: Mask, acked: set<nat>) {
    Majority(Ids(oldVoters), acked) && (newVoters == 0 || Majority(Ids(newVoters), acked))
  }

  method MajorityMask(voters: Mask, acked: Mask) returns (r: bool)
    ensures r <==> Majority(Ids(voters), Ids(acked))
  {
    IdsFromEmpty(voters, 1);
    AndMeansIntersection(voters, acked, 1);
    if voters == 0 { return false; }
    var have := BitsSet(And(voters, acked));
    var all := BitsSet(voters);
    r := have >= all / 2 + 1;
  }

  /** Occurrences of acknowledged ids in a voter list, repeats counted. */
  function AckedCount(voters: seq<nat>, acked: set<nat>): nat {
    if voters == [] then 0
    else AckedCount(voters[..|voters| - 1], acked) + (if voters[|voters| - 1] in acked then 1 else 0)
  }

  /** The list-based majority of raft/membership.go. */
  method ListMajority(voters: seq<nat>, acked: set<nat>) returns (r: bool)
    ensures r <==> voters != [] && AckedCount(voters, acked) >= |voters| / 2 + 1
  {
    if |voters| == 0 { return false; }
    var count := 0;
    for i := 0 to |voters|
      invariant count == AckedCount(voters[..i], acked)
    {
      assert voters[..i + 1][..i] == voters[..i];
      if voters[i] in acked { count := count + 1; }
    }
    assert voters[..|voters|] == voters;
    r := count >= |voters| / 2 + 1;
  }

  predicate Distinct(ids: seq<nat>) {
    forall i, j :: 0 <= i < j < |ids| ==> ids[i] != ids[j]
  }

  function Elements(ids: seq<nat>): set<nat> {
    set id | id in ids
  }

  /** A mask is determined by the ids it holds. */
  lemma {:induction false} IdsDetermineMask(a: Mask, b: Mask, first: nat)
    requires IdsFrom(a, first) == IdsFrom(b, first)
    ensures a == b
    decreases a + b
  {
    if a != 0 || b != 0 {
      LowDigit(a, first);
      LowDigit(b, first);
      IdsDetermineMask(a / 2, b / 2, first + 1);
    }
  }

  /** The last digit is membership of the first id; the rest of the digits hold the rest of the ids. */
  lemma LowDigit(m: Mask, first: nat)
    ensures m % 2 == 1 <==> first in IdsFrom(m, first)
    ensures IdsFrom(m / 2, first + 1) == IdsFrom(m, first) - {first}
  {
    assert first !in IdsFrom(m / 2, first + 1);
  }

  lemma {:induction false} MaskExists(ids: seq<nat>) returns (m: Mask)
    requires forall id :: id in ids ==> 0 < id
    ensures Ids(m) == Elements(ids)
  {
    m := 0;
    if ids != [] {
      var n := |ids| - 1;
      assert ids == ids[..n] + [ids[n]] && ids[n] in ids;
      assert forall id :: id in ids[..n] ==> id in ids;
      var before := MaskExists(ids[..n]);
      RecordingAddsSender(before, ids[n]);
      m := Or(before, NodeBit(ids[n]));
    }
  }

  /** voterMask: the mask of a list of ids, rejecting an empty or repeating list. */
  method VoterMask(ids: seq<nat>) returns (mask: Mask, ok: bool)
    requires forall id :: id in ids ==> 0 < id
    ensures ok <==> ids != [] && Distinct(ids)
    ensures ok ==> Ids(mask) == Elements(ids)
  {
    if |ids| == 0 { return 0, false; }
    mask := 0;
    for i := 0 to |ids|
      invariant Distinct(ids[..i])
      invariant Ids(mask) == Elements(ids[..i])
    {
      assert ids[i] in ids;
      var bit := NodeBit(ids[i]);
      TestingIsMembership(mask, ids[i]);
      if And(mask, bit) != 0 { return 0, false; }
      RecordingAddsSender(mask, ids[i]);
      mask := Or(mask, bit);
      assert ids[..i + 1] == ids[..i] + [ids[i]];
    }
    assert ids[..|ids|] == ids;
    ok := true;
  }

  lemma {:induction false} DistinctCount(voters: seq<nat>, acked: set<nat>)
    requires Distinct(voters)
    ensures AckedCount(voters, acked) == |Elements(voters) * acked|
    ensures |Elements(voters)| == |voters|
  {
    if voters != [] {
      var n := |voters| - 1;
      var rest, v := voters[..n], voters[n];
      DistinctCount(rest, acked);
      assert voters == rest + [v];
      assert Elements(voters) == Elements(rest) + {v};
      assert v !in Elements(rest);
      CountOneMore(Elements(rest), v, acked);
    } else {
      assert Elements(voters) == {};
    }
  }

  lemma CountOneMore(s: set<nat>, v: nat, acked: set<nat>)
    requires v !in s
    ensures |(s + {v}) * acked| == |s * acked| + (if v in acked then 1 else 0)
  {
    if v in acked {
      assert (s + {v}) * acked == (s * acked) + {v};
    } else {
      assert (s + {v}) * acked == s * acked;
    }
  }

  /** For distinct ids the list majority and the mask majority are the same predicate. */
  lemma ListAndMaskMajorityAgree(voters: seq<nat>, mask: Mask, acked: set<nat>)
    requires Distinct(voters) && Ids(mask) == Elements(voters)
    ensures (voters != [] && AckedCount(voters, acked) >= |voters| / 2 + 1) <==> Majority(Ids(mask), acked)
  {
    DistinctCount(voters, acked);
    assert voters != [] ==> voters[0] in Elements(voters);
  }

  /** A repeated id breaks the agreement: the list form counts it twice. */
  lemma RepeatedIdsBreakTheAgreement(mask: Mask)
    requires Ids(mask) == {1, 2}
    ensures Ids(mask) == Elements([1, 2, 2])
    ensures AckedCount([1, 2, 2], {2}) >= |[1, 2, 2]| / 2 + 1
    ensures !Majority(Ids(mask), {2})
  {
    var voters := [1, 2, 2];
    assert voters[..2] == [1, 2] && voters[..2][..1] == [1] && [1][..0] == [];
    assert AckedCount([1], {2}) == 0;
    assert AckedCount([1, 2], {2}) == 1;
    var s: set<nat> := {1, 2};
    assert s * {2} == {2};
    assert |s| == 2;
    assert s == Elements(voters);
  }

  /** Two majorities of one set share a member of it. */
  lemma MajoritiesIntersect(voters: set<nat>, a: set<nat>, b: set<nat>) returns (id: nat)
    requires Majority(voters, a) && Majority(voters, b)
    ensures id in voters && id in a && id in b
  {
    var x, y := voters * a, voters * b;
    if x * y == {} {
      assert |x + y| == |x| + |y|;
      Subset(x + y, voters);
      assert false;
    }
    id :| id in x * y;
  }

  lemma {:induction false} Subset(a: set<nat>, b: set<nat>)
    requires a <= b
    ensures |a| <= |b|
  {
    if a != {} {
      var x :| x in a;
      Subset(a - {x}, b - {x});
    }
  }

  lemma MajorityGrows(voters: set<nat>, a: set<nat>, b: set<nat>)
    requires Majority(voters, a) && a <= b
    ensures Majority(voters, b)
  {
    Subset(voters * a, voters * b);
  }

  /** The three configurations a membership change passes through. */
  datatype Phase = OldOnly | Joint | NewOnly

  predicate QuorumOf(phase: Phase, oldVoters: Mask, newVoters: Mask, acked: set<nat>) {
    match phase
    case OldOnly => JointQuorum(oldVoters, 0, acked)
    case Joint => JointQuorum(oldVoters, newVoters, acked)
    case NewOnly => JointQuorum(newVoters, 0, acked)
  }

  predicate Adjacent(p: Phase, q: Phase) {
    p == q || p == Joint || q == Joint
  }

  /** Quorums of the same or of adjacent configurations share an id. */
  lemma AdjacentQuorumsIntersect(p: Phase, q: Phase, oldVoters: Mask, newVoters: Mask, a: set<nat>, b: set<nat>)
    returns (id: nat)
    requires Adjacent(p, q) && newVoters != 0
    requires QuorumOf(p, oldVoters, newVoters, a) && QuorumOf(q, oldVoters, newVoters, b)
    ensures id in a && id in b
  {
    if p == NewOnly || q == NewOnly {
      id := MajoritiesIntersect(Ids(newVoters), a, b);
    } else {
      id := MajoritiesIntersect(Ids(oldVoters), a, b);
    }
  }

  /** Skipping the joint phase is unsafe: disjoint old and new quorums exist. */
  lemma OldAndNewQuorumsMayMiss()
    ensures exists a, b: set<nat> :: QuorumOf(OldOnly, NodeBit(1), NodeBit(2), a)
              && QuorumOf(NewOnly, NodeBit(1), NodeBit(2), b) && a * b == {}
  {
    RecordingAddsSender(0, 1);
    RecordingAddsSender(0, 2);
    var a: set<nat>, b: set<nat> := {1}, {2};
    assert a * a == a && b * b == b;
    assert QuorumOf(OldOnly, NodeBit(1), NodeBit(2), a) && QuorumOf(NewOnly, NodeBit(1), NodeBit(2), b);
    assert a * b == {};
  }
}
