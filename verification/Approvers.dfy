/** Who approves a request: the nearest suitable leader up the department chain, or else a holder of a role. */
module Approvers {
  import opened Basics

  datatype Dept = Dept(leader: Option<Id>, parent: Option<Id>)

  /** Departments, active users, and the holders of the fallback role and of the administrator role, oldest first. */
  datatype Directory = Directory(depts: map<Id, Dept>, active: set<Id>, fallback: seq<Id>, admins: seq<Id>)

  const MAX_HOPS := 32

  /** The department so many levels above, if the chain reaches that far. */
  function Above(dir: Directory, dept: Option<Id>, hops: nat): (above: Option<Id>)
    ensures above.Some? ==> above.value in dir.depts
    decreases hops
  {
    if dept.None? || dept.value !in dir.depts then None
    else if hops == 0 then dept
    else Above(dir, dir.depts[dept.value].parent, hops - 1)
  }

  /** The department's leader may approve: somebody active, and not the applicant. */
  predicate Leads(dir: Directory, dept: Option<Id>, applicant: Id, u: Id) {
    && dept.Some? && dept.value in dir.depts && dir.depts[dept.value].leader == Some(u)
    && u != applicant && u in dir.active
  }

  predicate HasLeader(dir: Directory, dept: Option<Id>, applicant: Id) {
    dept.Some? && dept.value in dir.depts && dir.depts[dept.value].leader.Some? &&
    Leads(dir, dept, applicant, dir.depts[dept.value].leader.value)
  }

  predicate Suits(dir: Directory, applicant: Id, u: Id) {
    u in dir.active && u != applicant
  }

  /** The oldest suitable holder. */
  ghost predicate IsFirst(dir: Directory, holders: seq<Id>, applicant: Id, u: Id) {
    exists i :: 0 <= i < |holders| && holders[i] == u && Suits(dir, applicant, u)
                && forall j :: 0 <= j < i ==> !Suits(dir, applicant, holders[j])
  }

  ghost predicate NoneSuits(dir: Directory, holders: seq<Id>, applicant: Id) {
    forall i :: 0 <= i < |holders| ==> !Suits(dir, applicant, holders[i])
  }

  /** Nobody suitable leads any of the first so many departments of the chain. */
  ghost predicate NoLeaderBelow(dir: Directory, dept: Option<Id>, applicant: Id, hops: nat) {
    forall k: nat :: k < hops ==> !HasLeader(dir, Above(dir, dept, k), applicant)
  }

  lemma {:induction false} AboveThenParent(dir: Directory, dept: Option<Id>, hops: nat)
    ensures var d := Above(dir, dept, hops);
            Above(dir, dept, hops + 1) ==
              if d.Some? then (var p := dir.depts[d.value].parent; if p.Some? && p.value in dir.depts then p else None) else None
    decreases hops
  {
    if dept.Some? && dept.value in dir.depts && hops > 0 {
      AboveThenParent(dir, dir.depts[dept.value].parent, hops - 1);
    }
  }

  // Where the oldest suitable holder stands.
  function FirstSuitable(dir: Directory, holders: seq<Id>, applicant: Id): (at: Option<nat>)
    ensures at.Some? ==> at.value < |holders| && Suits(dir, applicant, holders[at.value])
    ensures forall j :: 0 <= j < (if at.Some? then at.value else |holders|) ==> !Suits(dir, applicant, holders[j])
  {
    if holders == [] then None
    else
      var last := |holders| - 1;
      var older := FirstSuitable(dir, holders[..last], applicant);
      if older.Some? then older
      else if Suits(dir, applicant, holders[last]) then Some(last)
      else None
  }

  function FirstHolder(dir: Directory, holders: seq<Id>, applicant: Id): (u: Option<Id>)
    ensures u.Some? ==> IsFirst(dir, holders, applicant, u.value)
    ensures u.None? ==> NoneSuits(dir, holders, applicant)
  {
    var at := FirstSuitable(dir, holders, applicant);
    if at.Some? then Some(holders[at.value]) else None
  }

  /** Never the applicant; the leader of the nearest department of the chain, within 32 levels, that has a suitable
      one; failing that the oldest suitable holder of the fallback role, then of the administrator role; and nobody
      only when there is none of these. Chains that run in a circle end too. */
  method ResolveLevel1(dir: Directory, applicant: Id, dept: Option<Id>) returns (u: Option<Id>)
    ensures u.Some? ==> u.value != applicant && u.value in dir.active
    ensures !NoLeaderBelow(dir, dept, applicant, MAX_HOPS) ==>
      u.Some? && exists k: nat ::
        k < MAX_HOPS && Leads(dir, Above(dir, dept, k), applicant, u.value) && NoLeaderBelow(dir, dept, applicant, k)
    ensures NoLeaderBelow(dir, dept, applicant, MAX_HOPS) && !NoneSuits(dir, dir.fallback, applicant) ==>
      u.Some? && IsFirst(dir, dir.fallback, applicant, u.value)
    ensures NoLeaderBelow(dir, dept, applicant, MAX_HOPS) && NoneSuits(dir, dir.fallback, applicant) ==>
      if NoneSuits(dir, dir.admins, applicant) then u.None? else u.Some? && IsFirst(dir, dir.admins, applicant, u.value)
  {
    var at, hops := dept, 0;
    while at.Some? && hops < MAX_HOPS
      invariant 0 <= hops <= MAX_HOPS
      invariant NoLeaderBelow(dir, dept, applicant, hops)
      invariant Above(dir, dept, hops) == if at.Some? && at.value in dir.depts then at else None
      decreases MAX_HOPS - hops
    {
      if at.value !in dir.depts {
        break;
      }
      var d := dir.depts[at.value];
      if d.leader.Some? && d.leader.value != applicant && d.leader.value in dir.active {
        assert Leads(dir, Above(dir, dept, hops), applicant, d.leader.value);
        assert HasLeader(dir, Above(dir, dept, hops), applicant);
        return d.leader;
      }
      AboveThenParent(dir, dept, hops);
      at, hops := d.parent, hops + 1;
    }
    ChainEnds(dir, dept, applicant, hops);
    u := FirstHolder(dir, dir.fallback, applicant);
    if u.None? {
      u := FirstHolder(dir, dir.admins, applicant);
    }
  }

  // Where the chain has ended, or 32 levels have been looked at, nothing further counts.
  lemma ChainEnds(dir: Directory, dept: Option<Id>, applicant: Id, hops: nat)
    requires NoLeaderBelow(dir, dept, applicant, hops) && (hops >= MAX_HOPS || Above(dir, dept, hops).None?)
    ensures NoLeaderBelow(dir, dept, applicant, MAX_HOPS)
  {
    if hops < MAX_HOPS {
      forall k: nat | hops <= k < MAX_HOPS ensures Above(dir, dept, k).None? {
        StaysEnded(dir, dept, hops, k);
      }
    }
  }

  lemma {:induction false} StaysEnded(dir: Directory, dept: Option<Id>, hops: nat, k: nat)
    requires hops <= k && Above(dir, dept, hops).None?
    ensures Above(dir, dept, k).None?
    decreases k
  {
    if hops < k {
      StaysEnded(dir, dept, hops, k - 1);
      AboveThenParent(dir, dept, k - 1);
    }
  }
}
