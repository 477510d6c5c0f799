/** tools/bench/host_study.py: the attempt plan and its pairing rules. */
module StudyPlan {
  import opened Wrappers

  datatype Arm = Baseline | Candidate

  /** A SHA-256 digest, read as a number. */
  type Digest = nat

  /** One attempt; the two digests are those of its predeclared inputs. */
  datatype Attempt = Attempt(
    id: string, rate: nat, pair: nat, arm: Arm, timeout: nat, scenario: Digest, calibration: Digest)

  datatype Role = Role(rate: nat, pair: nat, arm: Arm)

  datatype Error = EmptyPlan | DuplicateId | BadRate | BadTimeout | RoleNotPaired | OutOfSequence

  function RoleOf(a: Attempt): Role { Role(a.rate, a.pair, a.arm) }

  /** How often a role occurs in the plan. */
  function Occurrences(plan: seq<Attempt>, k: Role): nat {
    if plan == [] then 0
    else Occurrences(plan[..|plan| - 1], k) + if RoleOf(plan[|plan| - 1]) == k then 1 else 0
  }

  /** The attempts of one rate, in acquisition order. */
  function OfRate(plan: seq<Attempt>, rate: nat): seq<Attempt> {
    if plan == [] then []
    else OfRate(plan[..|plan| - 1], rate) + if plan[|plan| - 1].rate == rate then [plan[|plan| - 1]] else []
  }

  /** Attempts come in adjacent pairs numbered 0, 1, 2, ..., each holding both arms. */
  predicate Paired(s: seq<Attempt>) {
    && |s| % 2 == 0
    && (forall i :: 0 <= i < |s| ==> s[i].pair == i / 2)
    && (forall i :: 0 <= i < |s| - 1 && i % 2 == 0 ==> s[i].arm != s[i + 1].arm)
  }

  ghost predicate DistinctIds(plan: seq<Attempt>) {
    forall i, j :: 0 <= i < j < |plan| ==> plan[i].id != plan[j].id
  }

  predicate Usable(a: Attempt) { a.rate > 0 && a.timeout > 0 }

  /** What an accepted plan is, without mentioning roles or counters. */
  ghost predicate WellPaired(plan: seq<Attempt>) {
    && plan != [] && DistinctIds(plan)
    && (forall i :: 0 <= i < |plan| ==> Usable(plan[i]))
    && RatesPaired(plan)
  }

  ghost predicate RatesPaired(plan: seq<Attempt>) {
    forall rate :: Paired(OfRate(plan, rate))
  }

  // ---- the role check ----

  ghost predicate RolesOnce(plan: seq<Attempt>) {
    forall k :: Occurrences(plan, k) <= 1
  }

  ghost predicate RolesClosed(plan: seq<Attempt>) {
    forall k, arm :: Occurrences(plan, k) > 0 ==> Occurrences(plan, k.(arm := arm)) > 0
  }

  /** The pair numbers that one arm of one rate uses. */
  ghost function PairsOf(plan: seq<Attempt>, rate: nat, arm: Arm): set<nat> {
    if plan == [] then {}
    else
      var a := plan[|plan| - 1];
      PairsOf(plan[..|plan| - 1], rate, arm) + if a.rate == rate && a.arm == arm then {a.pair} else {}
  }

  lemma {:induction false} PairsOfMember(plan: seq<Attempt>, rate: nat, arm: Arm, p: nat)
    ensures p in PairsOf(plan, rate, arm) <==> Occurrences(plan, Role(rate, p, arm)) > 0
  {
    if plan != [] { PairsOfMember(plan[..|plan| - 1], rate, arm, p); }
  }

  /** With no role repeated, the attempts of a rate are counted by the pair numbers of both arms. */
  lemma {:induction false} CountByArm(plan: seq<Attempt>, rate: nat)
    requires RolesOnce(plan)
    ensures |OfRate(plan, rate)| == |PairsOf(plan, rate, Baseline)| + |PairsOf(plan, rate, Candidate)|
  {
    if plan != [] {
      var init, a := plan[..|plan| - 1], plan[|plan| - 1];
      forall k ensures Occurrences(init, k) <= 1 { assert Occurrences(plan, k) <= 1; }
      CountByArm(init, rate);
      PairsOfMember(init, rate, a.arm, a.pair);
      assert Occurrences(plan, RoleOf(a)) <= 1;
    }
  }

  /** The role check makes every rate's attempts even in number, so taking two at a time cannot fail. */
  lemma EvenPerRate(plan: seq<Attempt>, rate: nat)
    requires RolesOnce(plan) && RolesClosed(plan)
    ensures |OfRate(plan, rate)| % 2 == 0
  {
    CountByArm(plan, rate);
    var left, right := PairsOf(plan, rate, Baseline), PairsOf(plan, rate, Candidate);
    forall p ensures p in left <==> p in right {
      PairsOfMember(plan, rate, Baseline, p);
      PairsOfMember(plan, rate, Candidate, p);
      assert Role(rate, p, Candidate) == Role(rate, p, Baseline).(arm := Candidate);
      assert Role(rate, p, Baseline) == Role(rate, p, Candidate).(arm := Baseline);
    }
    assert left == right;
  }

  // ---- pairing in sequence implies the role check ----

  lemma {:induction false} OccurrencesOfRate(plan: seq<Attempt>, k: Role)
    ensures Occurrences(plan, k) == Occurrences(OfRate(plan, k.rate), k)
  {
    if plan != [] {
      var init, a := plan[..|plan| - 1], plan[|plan| - 1];
      OccurrencesOfRate(init, k);
      if a.rate == k.rate {
        var s := OfRate(init, k.rate);
        assert (s + [a])[..|s|] == s;
      } else {
        assert OfRate(plan, k.rate) == OfRate(init, k.rate) + [] == OfRate(init, k.rate);
      }
    }
  }

  lemma {:induction false} OfRateHasRate(plan: seq<Attempt>, rate: nat)
    ensures forall i :: 0 <= i < |OfRate(plan, rate)| ==> OfRate(plan, rate)[i].rate == rate
  {
    if plan != [] { OfRateHasRate(plan[..|plan| - 1], rate); }
  }

  /** A paired sequence holds both arms of each of its pair numbers, once. */
  lemma {:induction false} PairedOccurrences(s: seq<Attempt>, k: Role)
    requires Paired(s) && forall i :: 0 <= i < |s| ==> s[i].rate == k.rate
    ensures Occurrences(s, k) == if k.pair < |s| / 2 then 1 else 0
  {
    if s != [] {
      var n := |s|;
      var t := s[..n - 2];
      forall i | 0 <= i < |t| ensures t[i].pair == i / 2 { assert s[i].pair == i / 2; }
      forall i | 0 <= i < |t| - 1 && i % 2 == 0 ensures t[i].arm != t[i + 1].arm { assert s[i].arm != s[i + 1].arm; }
      PairedOccurrences(t, k);
      assert s[n - 2].pair == n / 2 - 1 && s[n - 1].pair == n / 2 - 1 && s[n - 2].arm != s[n - 1].arm;
      assert s[..n - 1][..n - 2] == t;
      assert Occurrences(s[..n - 1], k) == Occurrences(t, k) + if RoleOf(s[n - 2]) == k then 1 else 0;
    }
  }

  lemma PlanOccurrences(plan: seq<Attempt>, k: Role)
    requires Paired(OfRate(plan, k.rate))
    ensures Occurrences(plan, k) == if k.pair < |OfRate(plan, k.rate)| / 2 then 1 else 0
  {
    OccurrencesOfRate(plan, k);
    OfRateHasRate(plan, k.rate);
    PairedOccurrences(OfRate(plan, k.rate), k);
  }

  /** Plans in acquisition order pass the role check: it only guards the pairwise reading. */
  lemma PairedMeansRoles(plan: seq<Attempt>)
    requires RatesPaired(plan)
    ensures RolesOnce(plan) && RolesClosed(plan)
  {
    forall k ensures Occurrences(plan, k) <= 1 { PlanOccurrences(plan, k); }
    forall k, arm | Occurrences(plan, k) > 0 ensures Occurrences(plan, k.(arm := arm)) > 0 {
      PlanOccurrences(plan, k);
      PlanOccurrences(plan, k.(arm := arm));
    }
  }

  // ---- parse_plan ----

  /**
   * parse_plan, after the field checks. Accepts exactly the plans that list, for each rate in
   * acquisition order, pairs 0, 1, 2, ... each holding both arms once.
   */
  method ParsePlan(plan: seq<Attempt>) returns (r: Option<Error>)
    ensures r.None? <==> WellPaired(plan)
  {
    if plan == [] { return Some(EmptyPlan); }
    r := CheckAttempts(plan);
    if r.Some? { return; }
    var ok := CheckRoles(plan);
    if !ok {
      if RatesPaired(plan) { PairedMeansRoles(plan); }
      return Some(RoleNotPaired);
    }
    ok := CheckRates(plan);
    r := if ok then None else Some(OutOfSequence);
  }

  /** The counter over (rate, pair, arm) and its two conditions. */
  method CheckRoles(plan: seq<Attempt>) returns (ok: bool)
    ensures ok <==> RolesOnce(plan) && RolesClosed(plan)
  {
    var roles: map<Role, nat> := map[];
    var i := 0;
    while i < |plan|
      invariant 0 <= i <= |plan|
      invariant forall k :: k in roles <==> Occurrences(plan[..i], k) > 0
      invariant forall k :: k in roles ==> roles[k] == Occurrences(plan[..i], k)
    {
      var k := RoleOf(plan[i]);
      assert plan[..i + 1][..i] == plan[..i];
      roles := roles[k := (if k in roles then roles[k] else 0) + 1];
      i := i + 1;
    }
    assert plan[..|plan|] == plan;
    CounterChecks(plan, roles);
    ok := (forall k :: k in roles ==> roles[k] == 1)
      && (forall k :: k in roles ==> k.(arm := Baseline) in roles && k.(arm := Candidate) in roles);
  }

  lemma CounterChecks(plan: seq<Attempt>, roles: map<Role, nat>)
    requires forall k :: k in roles <==> Occurrences(plan, k) > 0
    requires forall k :: k in roles ==> roles[k] == Occurrences(plan, k)
    ensures (forall k :: k in roles ==> roles[k] == 1) <==> RolesOnce(plan)
    ensures (forall k :: k in roles ==> k.(arm := Baseline) in roles && k.(arm := Candidate) in roles)
        <==> RolesClosed(plan)
  {
    hide Occurrences;
    if RolesClosed(plan) {
      forall k | k in roles ensures k.(arm := Baseline) in roles && k.(arm := Candidate) in roles {
        assert Occurrences(plan, k) > 0;
        assert Occurrences(plan, k.(arm := Baseline)) > 0 && Occurrences(plan, k.(arm := Candidate)) > 0;
      }
    }
    if forall k :: k in roles ==> k.(arm := Baseline) in roles && k.(arm := Candidate) in roles {
      forall k, arm | Occurrences(plan, k) > 0 ensures Occurrences(plan, k.(arm := arm)) > 0 {
        assert k in roles && k.(arm := Baseline) in roles && k.(arm := Candidate) in roles;
        assert arm == Baseline || arm == Candidate;
      }
    }
  }

  method CheckRates(plan: seq<Attempt>) returns (ok: bool)
    requires RolesOnce(plan) && RolesClosed(plan)
    ensures ok <==> RatesPaired(plan)
  {
    var rates := set a | a in plan :: a.rate;
    assert forall a :: a in plan ==> a.rate in rates;
    while rates != {}
      invariant forall a :: a in plan && a.rate !in rates ==> Paired(OfRate(plan, a.rate))
    {
      var rate :| rate in rates;
      EvenPerRate(plan, rate);
      ok := CheckPairs(OfRate(plan, rate));
      if !ok { return; }
      rates := rates - {rate};
    }
    forall rate ensures Paired(OfRate(plan, rate)) {
      AbsentRate(plan, rate);
      if OfRate(plan, rate) != [] {
        var a :| a in plan && a.rate == rate;
        assert Paired(OfRate(plan, a.rate));
      }
    }
    ok := true;
  }

  lemma {:induction false} AbsentRate(plan: seq<Attempt>, rate: nat)
    ensures OfRate(plan, rate) != [] ==> exists a :: a in plan && a.rate == rate
  {
    if plan != [] {
      var init, a := plan[..|plan| - 1], plan[|plan| - 1];
      AbsentRate(init, rate);
      assert a in plan;
      assert forall b :: b in init ==> b in plan;
    }
  }

  method CheckAttempts(plan: seq<Attempt>) returns (r: Option<Error>)
    ensures r.None? <==> DistinctIds(plan) && forall i :: 0 <= i < |plan| ==> Usable(plan[i])
  {
    var ids: set<string> := {};
    var i := 0;
    while i < |plan|
      invariant 0 <= i <= |plan| && DistinctIds(plan[..i])
      invariant forall j :: 0 <= j < i ==> Usable(plan[j])
      invariant forall id :: id in ids <==> exists j :: 0 <= j < i && plan[j].id == id
    {
      if plan[i].id in ids { return Some(DuplicateId); }
      ids := ids + {plan[i].id};
      if plan[i].rate == 0 { return Some(BadRate); }
      if plan[i].timeout == 0 { return Some(BadTimeout); }
      i := i + 1;
    }
    assert plan[..|plan|] == plan;
    r := None;
  }

  /** The inner loop; the even length is what makes each two-element reading total. */
  method CheckPairs(ordered: seq<Attempt>) returns (ok: bool)
    requires |ordered| % 2 == 0
    ensures ok <==> Paired(ordered)
  {
    var index := 0;
    while index < |ordered|
      invariant 0 <= index <= |ordered| && index % 2 == 0
      invariant Paired(ordered[..index])
    {
      var first, second := ordered[index], ordered[index + 1];
      if first.pair != index / 2 || second.pair != index / 2 || first.arm == second.arm {
        NotPaired(ordered, index);
        return false;
      }
      PairedGrows(ordered, index);
      index := index + 2;
    }
    assert ordered[..index] == ordered;
    ok := true;
  }

  lemma NotPaired(s: seq<Attempt>, n: nat)
    requires n % 2 == 0 && n + 1 < |s|
    requires s[n].pair != n / 2 || s[n + 1].pair != n / 2 || s[n].arm == s[n + 1].arm
    ensures !Paired(s)
  {}

  lemma PairedGrows(s: seq<Attempt>, n: nat)
    requires n % 2 == 0 && n + 1 < |s| && Paired(s[..n])
    requires s[n].pair == n / 2 && s[n + 1].pair == n / 2 && s[n].arm != s[n + 1].arm
    ensures Paired(s[..n + 2])
  {}
}
