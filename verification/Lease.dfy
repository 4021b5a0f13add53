/** Atomic ownership of robot leaves, resources and safety domains (remote_robot/lease.py). */
module Lease {

  datatype Kind = Leaf | Resource | SafetyDomain

  datatype Target = Target(kind: Kind, key: string)

  datatype Request = Request(leaves: set<string>, resources: set<string>, domains: set<string>) {
    function Targets(): set<Target> {
      (set k | k in leaves :: Target(Leaf, k)) +
      (set k | k in resources :: Target(Resource, k)) +
      (set k | k in domains :: Target(SafetyDomain, k))
    }

    predicate Canonical() {
      forall k :: k in leaves + resources + domains ==> CanonicalKey(k)
    }
  }

  datatype Grant = Grant(request: Request, acquiredAtNs: int)

  datatype AcquireOutcome =
    | Granted(grant: Grant)
    | InvalidKey
    | RequestMismatch
    | Conflict(held: map<Target, string>)

  datatype ReleaseOutcome = Released | NotHeld | BadRunId

  datatype Leases = Leases(owners: map<Target, string>, grants: map<string, Grant>)

  const EMPTY := Leases(map[], map[])

  // ---------- keys ----------

  predicate Whitespace(c: char) {
    var n := c as int;
    0x09 <= n <= 0x0d || 0x1c <= n <= 0x20 || n == 0x85 || n == 0xa0 || n == 0x1680 || 0x2000 <= n <= 0x200a ||
    n == 0x2028 || n == 0x2029 || n == 0x202f || n == 0x205f || n == 0x3000
  }

  /** Non-empty, at most 512 characters, unchanged by stripping, no control characters. */
  predicate CanonicalKey(k: string) {
    1 <= |k| <= 512 && !Whitespace(k[0]) && !Whitespace(k[|k| - 1]) && forall i :: 0 <= i < |k| ==> 32 <= k[i] as int
  }

  // ---------- one call ----------

  /** The owner map is exactly the disjoint union of the live grants' targets. */
  ghost predicate Exact(s: Leases) {
    (forall t :: t in s.owners ==> s.owners[t] in s.grants && t in s.grants[s.owners[t]].request.Targets()) &&
    (forall r, t :: r in s.grants && t in s.grants[r].request.Targets() ==> t in s.owners && s.owners[t] == r)
  }

  function HeldByOthers(s: Leases, run: string, request: Request): map<Target, string> {
    map t | t in request.Targets() && t in s.owners && s.owners[t] != run :: s.owners[t]
  }

  function Acquire(s: Leases, run: string, request: Request, nowNs: int): AcquireOutcome {
    if !CanonicalKey(run) || !request.Canonical() then InvalidKey
    else if run in s.grants then
      if s.grants[run].request == request then Granted(s.grants[run]) else RequestMismatch
    else
      var held := HeldByOthers(s, run, request);
      if held != map[] then Conflict(held) else Granted(Grant(request, nowNs))
  }

  function Claim(owners: map<Target, string>, targets: set<Target>, run: string): map<Target, string> {
    owners + map t | t in targets :: run
  }

  function OwnedByOthers(owners: map<Target, string>, run: string): map<Target, string> {
    map t | t in owners && owners[t] != run :: owners[t]
  }

  function AcquireStep(s: Leases, run: string, request: Request, nowNs: int): Leases {
    var outcome := Acquire(s, run, request, nowNs);
    if outcome.Granted? && run !in s.grants
    then Leases(Claim(s.owners, request.Targets(), run), s.grants[run := outcome.grant])
    else s
  }

  function ReleaseStep(s: Leases, run: string): Leases {
    if CanonicalKey(run) && run in s.grants
    then Leases(map t | t in s.owners && !(t in s.grants[run].request.Targets() && s.owners[t] == run) :: s.owners[t],
                s.grants - {run})
    else s
  }

  /** What the other grants alone amount to. */
  function Without(s: Leases, run: string): Leases {
    Leases(OwnedByOthers(s.owners, run), s.grants - {run})
  }

  // ---------- sequences of calls ----------

  datatype Call = DoAcquire(run: string, request: Request, nowNs: int) | DoRelease(run: string)

  function Apply(s: Leases, c: Call): Leases {
    match c
    case DoAcquire(run, request, nowNs) => AcquireStep(s, run, request, nowNs)
    case DoRelease(run) => ReleaseStep(s, run)
  }

  function ApplyAll(s: Leases, calls: seq<Call>): Leases
    decreases |calls|
  {
    if calls == [] then s else ApplyAll(Apply(s, calls[0]), calls[1..])
  }

  lemma AcquireKeeps(s: Leases, run: string, request: Request, nowNs: int)
    requires Exact(s)
    ensures Exact(AcquireStep(s, run, request, nowNs))
  {
    hide Request.Targets;
    var outcome := Acquire(s, run, request, nowNs);
    if outcome.Granted? && run !in s.grants {
      var held := HeldByOthers(s, run, request);
      forall t | t in request.Targets()
        ensures t !in s.owners
      {
        assert t !in held;
      }
    }
  }

  lemma ReleaseKeeps(s: Leases, run: string)
    requires Exact(s)
    ensures Exact(ReleaseStep(s, run))
  {
    hide Request.Targets;
  }

  /** After any sequence of acquire and release calls. */
  lemma {:induction false} AlwaysExact(s: Leases, calls: seq<Call>)
    requires Exact(s)
    ensures Exact(ApplyAll(s, calls))
    decreases |calls|
  {
    hide Request.Targets;
    if calls != [] {
      match calls[0] {
        case DoAcquire(run, request, nowNs) => AcquireKeeps(s, run, request, nowNs);
        case DoRelease(run) => ReleaseKeeps(s, run);
      }
      AlwaysExact(Apply(s, calls[0]), calls[1..]);
    }
  }

  /** No target is ever owned by two runs, whatever calls were made. */
  lemma GrantsAreDisjoint(calls: seq<Call>, a: string, b: string)
    requires a in ApplyAll(EMPTY, calls).grants && b in ApplyAll(EMPTY, calls).grants && a != b
    ensures ApplyAll(EMPTY, calls).grants[a].request.Targets() !! ApplyAll(EMPTY, calls).grants[b].request.Targets()
  {
    hide Request.Targets;
    AlwaysExact(EMPTY, calls);
    var s := ApplyAll(EMPTY, calls);
    assert forall t :: t in s.grants[a].request.Targets() ==> s.owners[t] == a;
  }

  /** The grants determine the owner map. */
  lemma OwnersAreDetermined(s: Leases, s': Leases)
    requires Exact(s) && Exact(s') && s.grants == s'.grants
    ensures s.owners == s'.owners
  {
    hide Request.Targets;
    assert s.owners.Keys == s'.owners.Keys;
  }

  /** A release removes precisely its own targets: what is left is what the other
      grants alone amount to, and each of those is untouched. */
  lemma ReleaseIsPrecise(s: Leases, run: string)
    requires Exact(s) && CanonicalKey(run)
    ensures ReleaseStep(s, run) == Without(s, run) && Exact(Without(s, run))
    ensures run in s.grants ==> s.owners.Keys - ReleaseStep(s, run).owners.Keys == s.grants[run].request.Targets()
  {
    hide Request.Targets;
    var after := ReleaseStep(s, run);
    assert after.owners == Without(s, run).owners;
    ReleaseKeeps(s, run);
    if run in s.grants {
      var own := s.grants[run].request.Targets();
      assert forall t :: t in own ==> t in s.owners && s.owners[t] == run && t !in after.owners;
      assert forall t :: t in s.owners && t !in own ==> t in after.owners;
      assert s.owners.Keys - after.owners.Keys == own;
    } else {
      assert after.grants == s.grants - {run};
    }
  }

  /** A refused acquire changes nothing; it is refused with a conflict exactly when a
      requested target belongs to somebody else, and names every such target. */
  lemma RefusedAcquireIsHarmless(s: Leases, run: string, request: Request, nowNs: int)
    requires Exact(s) && CanonicalKey(run) && request.Canonical()
    ensures !Acquire(s, run, request, nowNs).Granted? ==> AcquireStep(s, run, request, nowNs) == s
    ensures Acquire(s, run, request, nowNs).Conflict?
       <==> run !in s.grants && exists r :: r in s.grants && !(s.grants[r].request.Targets() !! request.Targets())
    ensures Acquire(s, run, request, nowNs).Conflict? ==>
              Acquire(s, run, request, nowNs).held.Keys == request.Targets() * s.owners.Keys
  {
    hide Request.Targets;
    var held := HeldByOthers(s, run, request);
    if run !in s.grants {
      assert held.Keys == request.Targets() * s.owners.Keys;
      if held != map[] {
        var t :| t in held;
        assert t in s.grants[s.owners[t]].request.Targets();
      }
      if r :| r in s.grants && !(s.grants[r].request.Targets() !! request.Targets()) {
        var t :| t in s.grants[r].request.Targets() && t in request.Targets();
        assert t in held.Keys;
      }
    }
  }

  /** What a call to acquire returns, in terms of the live grants alone: the same request
      again gets its original grant, another request of the same run is a mismatch, and a
      new run gets a new grant exactly when no live grant shares a target; every reported
      conflict names a live grant that does hold the target. */
  lemma AcquireExactly(s: Leases, run: string, request: Request, nowNs: int)
    requires Exact(s)
    ensures Acquire(s, run, request, nowNs).InvalidKey? <==> !CanonicalKey(run) || !request.Canonical()
    ensures CanonicalKey(run) && request.Canonical() && run in s.grants ==>
              AcquireStep(s, run, request, nowNs) == s &&
              Acquire(s, run, request, nowNs) ==
              if s.grants[run].request == request then Granted(s.grants[run]) else RequestMismatch
    ensures CanonicalKey(run) && request.Canonical() && run !in s.grants ==>
              (Acquire(s, run, request, nowNs) == Granted(Grant(request, nowNs)) <==>
                 forall r :: r in s.grants ==> s.grants[r].request.Targets() !! request.Targets()) &&
              (Acquire(s, run, request, nowNs).Granted? ==>
                 AcquireStep(s, run, request, nowNs).grants == s.grants[run := Grant(request, nowNs)])
    ensures Acquire(s, run, request, nowNs).Conflict? ==>
              forall t :: t in Acquire(s, run, request, nowNs).held ==>
                var r := Acquire(s, run, request, nowNs).held[t]; r in s.grants && t in s.grants[r].request.Targets()
  {
    hide Request.Targets, Request.Canonical, CanonicalKey;
    if CanonicalKey(run) && request.Canonical() { RefusedAcquireIsHarmless(s, run, request, nowNs); }
  }

  /** A grant lasts, with its request and its time, until its own run is released. */
  lemma {:induction false} GrantLasts(s: Leases, run: string, calls: seq<Call>)
    requires run in s.grants && forall i :: 0 <= i < |calls| ==> calls[i] != DoRelease(run)
    ensures run in ApplyAll(s, calls).grants && ApplyAll(s, calls).grants[run] == s.grants[run]
    decreases |calls|
  {
    hide Acquire, Claim, CanonicalKey;
    if calls != [] { GrantLasts(Apply(s, calls[0]), run, calls[1..]); }
  }

  /** Acquiring and releasing at once is a no-op. */
  lemma AcquireThenRelease(s: Leases, run: string, request: Request, nowNs: int)
    requires Exact(s) && run !in s.grants && Acquire(s, run, request, nowNs).Granted?
    ensures ReleaseStep(AcquireStep(s, run, request, nowNs), run) == s
  {
    hide Request.Targets;
    var mid := AcquireStep(s, run, request, nowNs);
    AcquireKeeps(s, run, request, nowNs);
    ReleaseIsPrecise(mid, run);
    assert Without(mid, run).grants == s.grants;
    OwnersAreDetermined(Without(mid, run), s);
  }

  /** A call of another run that `run`'s lease does not stand in the way of. */
  ghost predicate Independent(s: Leases, run: string, c: Call) {
    c.run != run &&
    (c.DoAcquire? ==> forall t :: t in c.request.Targets() && t in s.owners ==> s.owners[t] != run)
  }

  ghost predicate AllIndependent(s: Leases, run: string, calls: seq<Call>)
    decreases |calls|
  {
    calls != [] ==> Independent(s, run, calls[0]) && AllIndependent(Apply(s, calls[0]), run, calls[1..])
  }

  lemma WithoutCommutes(s: Leases, run: string, c: Call)
    requires Exact(s) && Independent(s, run, c)
    ensures Without(Apply(s, c), run) == Apply(Without(s, run), c)
  {
    hide Request.Targets, Exact;
    match c
    case DoAcquire(other, request, nowNs) => WithoutAcquire(s, run, other, request, nowNs);
    case DoRelease(other) => WithoutRelease(s, run, other);
  }

  lemma WithoutAcquire(s: Leases, run: string, other: string, request: Request, nowNs: int)
    requires other != run
    requires forall t :: t in request.Targets() && t in s.owners ==> s.owners[t] != run
    ensures Without(AcquireStep(s, other, request, nowNs), run) == AcquireStep(Without(s, run), other, request, nowNs)
  {
    hide Request.Targets, CanonicalKey, Request.Canonical, Claim, HeldByOthers, OwnedByOthers;
    SameConflicts(s, run, other, request);
    ClaimCommutes(s.owners, request.Targets(), other, run);
    var grant := Grant(request, nowNs);
    assert s.grants[other := grant] - {run} == (s.grants - {run})[other := grant];
  }

  lemma SameConflicts(s: Leases, run: string, other: string, request: Request)
    requires forall t :: t in request.Targets() && t in s.owners ==> s.owners[t] != run
    ensures HeldByOthers(Without(s, run), other, request) == HeldByOthers(s, other, request)
  {
    hide Request.Targets;
  }

  lemma ClaimCommutes(owners: map<Target, string>, targets: set<Target>, other: string, run: string)
    requires other != run
    ensures OwnedByOthers(Claim(owners, targets, other), run) == Claim(OwnedByOthers(owners, run), targets, other)
  {
  }

  lemma WithoutRelease(s: Leases, run: string, other: string)
    requires Exact(s) && other != run
    ensures Without(ReleaseStep(s, other), run) == ReleaseStep(Without(s, run), other)
  {
    hide Request.Targets, Exact, CanonicalKey;
    var l, r := Without(ReleaseStep(s, other), run), ReleaseStep(Without(s, run), other);
    assert l.owners == r.owners;
    assert l.grants == r.grants;
  }

  lemma {:induction false} WithoutCommutesAll(s: Leases, run: string, calls: seq<Call>)
    requires Exact(s) && AllIndependent(s, run, calls)
    ensures Without(ApplyAll(s, calls), run) == ApplyAll(Without(s, run), calls)
    decreases |calls|
  {
    hide Request.Targets;
    if calls != [] {
      WithoutCommutes(s, run, calls[0]);
      AlwaysExact(s, calls[..1]);
      assert ApplyAll(s, calls[..1]) == Apply(s, calls[0]);
      WithoutCommutesAll(Apply(s, calls[0]), run, calls[1..]);
    }
  }

  /** A run leaves no trace: acquire, then anything other runs do that its lease does
      not block, then release, ends as if the run had never been there. */
  lemma LeavesNoTrace(s: Leases, run: string, request: Request, nowNs: int, calls: seq<Call>)
    requires Exact(s) && run !in s.grants && Acquire(s, run, request, nowNs).Granted?
    requires AllIndependent(AcquireStep(s, run, request, nowNs), run, calls)
    ensures ReleaseStep(ApplyAll(AcquireStep(s, run, request, nowNs), calls), run) == ApplyAll(s, calls)
  {
    hide Request.Targets;
    var mid := AcquireStep(s, run, request, nowNs);
    AcquireKeeps(s, run, request, nowNs);
    AcquireThenRelease(s, run, request, nowNs);
    ReleaseIsPrecise(mid, run);
    WithoutCommutesAll(mid, run, calls);
    AlwaysExact(mid, calls);
    ReleaseIsPrecise(ApplyAll(mid, calls), run);
  }

  // ---------- the manager object ----------

  class LeaseManager {
    var owners: map<Target, string>
    var grants: map<string, Grant>

    ghost function View(): Leases
      reads this
    {
      Leases(owners, grants)
    }

    constructor ()
      ensures View() == EMPTY && Exact(View())
    {
      owners, grants := map[], map[];
    }

    method CollectConflicts(run: string, request: Request) returns (held: map<Target, string>)
      ensures held == HeldByOthers(View(), run, request)
    {
      hide Request.Targets;
      held := map[];
      var remaining := request.Targets();
      while remaining != {}
        invariant remaining <= request.Targets()
        invariant held == map t | t in request.Targets() - remaining && t in owners && owners[t] != run :: owners[t]
        decreases remaining
      {
        var t :| t in remaining;
        if t in owners && owners[t] != run { held := held[t := owners[t]]; }
        remaining := remaining - {t};
      }
    }

    method ClaimTargets(targets: set<Target>, run: string)
      modifies this`owners
      ensures owners == Claim(old(owners), targets, run)
    {
      var remaining := targets;
      while remaining != {}
        invariant remaining <= targets
        invariant owners == Claim(old(owners), targets - remaining, run)
        decreases remaining
      {
        var t :| t in remaining;
        owners := owners[t := run];
        remaining := remaining - {t};
      }
      assert targets - remaining == targets;
    }

    method AcquireLease(run: string, request: Request, nowNs: int) returns (outcome: AcquireOutcome)
      requires Exact(View())
      modifies this
      ensures Exact(View())
      ensures outcome == Acquire(old(View()), run, request, nowNs)
      ensures View() == AcquireStep(old(View()), run, request, nowNs)
    {
      hide Request.Targets, Exact, HeldByOthers, Claim;
      AcquireKeeps(View(), run, request, nowNs);
      if !CanonicalKey(run) || !request.Canonical() { return InvalidKey; }
      if run in grants {
        if grants[run].request == request { return Granted(grants[run]); }
        return RequestMismatch;
      }
      var held := CollectConflicts(run, request);
      if held != map[] { return Conflict(held); }
      var grant := Grant(request, nowNs);
      ClaimTargets(request.Targets(), run);
      grants := grants[run := grant];
      return Granted(grant);
    }

    method ReleaseLease(run: string) returns (outcome: ReleaseOutcome)
      requires Exact(View())
      modifies this
      ensures Exact(View())
      ensures outcome == if !CanonicalKey(run) then BadRunId else if run in old(grants) then Released else NotHeld
      ensures View() == ReleaseStep(old(View()), run)
    {
      hide Request.Targets, Exact, HeldByOthers;
      ReleaseKeeps(View(), run);
      if !CanonicalKey(run) { return BadRunId; }
      if run !in grants { return NotHeld; }
      var grant := grants[run];
      grants := grants - {run};
      var remaining := grant.request.Targets();
      while remaining != {}
        invariant remaining <= grant.request.Targets() && grants == old(grants) - {run}
        invariant owners == map t | t in old(owners) &&
                  !(t in grant.request.Targets() - remaining && old(owners)[t] == run) :: old(owners)[t]
        decreases remaining
      {
        var t :| t in remaining;
        if t in owners && owners[t] == run { owners := owners - {t}; }
        remaining := remaining - {t};
      }
      assert grant.request.Targets() - remaining == grant.request.Targets();
      return Released;
    }
  }

  // ---------- keys in Python's terms ----------

  function StripLeft(k: string): string {
    if k != "" && Whitespace(k[0]) then StripLeft(k[1..]) else k
  }

  function StripRight(k: string): string
    decreases |k|
  {
    if k != "" && Whitespace(k[|k| - 1]) then StripRight(k[..|k| - 1]) else k
  }

  /** What `str.strip` leaves. */
  function Strip(k: string): string {
    StripRight(StripLeft(k))
  }

  lemma {:induction false} StripLeftShortens(k: string)
    ensures StripLeft(k) == k || |StripLeft(k)| < |k|
    ensures StripLeft(k) == k <==> k == "" || !Whitespace(k[0])
    decreases |k|
  {
    if k != "" && Whitespace(k[0]) { StripLeftShortens(k[1..]); }
  }

  lemma {:induction false} StripRightShortens(k: string)
    ensures StripRight(k) == k || |StripRight(k)| < |k|
    ensures StripRight(k) == k <==> k == "" || !Whitespace(k[|k| - 1])
    decreases |k|
  {
    if k != "" && Whitespace(k[|k| - 1]) { StripRightShortens(k[..|k| - 1]); }
  }

  /** A key is canonical exactly when it is not empty, stripping leaves it as it is, and it
      has at most 512 characters, none of them a control character. */
  lemma CanonicalExactly(k: string)
    ensures CanonicalKey(k) <==>
              k != "" && Strip(k) == k && |k| <= 512 && forall i :: 0 <= i < |k| ==> 32 <= k[i] as int
  {
    StripLeftShortens(k);
    StripRightShortens(StripLeft(k));
  }
}
