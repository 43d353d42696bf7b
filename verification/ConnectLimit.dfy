/**
 The per-uid limit. The check that a uid is below 600 and the commit that counts the new
 connect are two locked sections, so connects that passed the check and are not committed
 yet are not seen by other checks.
 */
module ConnectLimit {
  import opened Sessions
  import opened ConnectTables
  import opened ConnectNet

  /** The attempts of a uid that are past the check and not committed. */
  function InFlight(w: World, owner: Owner, a: DeviceId, uid: int): set<nat> {
    set id | id in w.attempts && Home(owner, w.attempts[id].connect) == a && owner(w.attempts[id].connect).uid == uid
  }

  function Committed(w: World, a: DeviceId, uid: int): set<Remote> {
    OwnedByUid(ConnectsAt(w, a), uid)
  }

  /** At most k attempts of the uid are in flight in every state of the run. */
  ghost predicate AtMostInFlight(w: World, owner: Owner, steps: seq<Step>, a: DeviceId, uid: int, k: nat)
    requires Executable(w, owner, steps)
    decreases |steps|
  {
    && |InFlight(w, owner, a, uid)| <= k
    && (steps != [] ==> AtMostInFlight(Apply(w, owner, steps[0]), owner, steps[1..], a, uid, k))
  }

  lemma SubsetSize<T>(s: set<T>, t: set<T>)
    requires s <= t
    ensures |s| <= |t|
  {
    assert t == s + (t - s);
  }

  /** A section that only removes connects, or sessions of one caller's connects, does not
      give a uid more connects. */
  lemma CutOwns(w: World, owner: Owner, a: DeviceId, one: DeviceId, other: DeviceId, uid: int)
    requires WellFormed(w, owner) && a in w.nodes && one in w.nodes && other in w.nodes && one != other
    ensures Committed(Cutting(w, one, other), a, uid) <= Committed(w, a, uid)
  {
    NodeFacts(w, owner, a);
    DeviceLeftKeeps(w.nodes[a].source.connects, one);
    DeviceLeftKeeps(w.nodes[a].source.connects, other);
  }

  lemma ShrinkOwns(w: World, owner: Owner, a: DeviceId, c: Remote, uid: int)
    requires Home(owner, c) in w.nodes
    ensures Committed(Closing(w, owner, c), a, uid) <= Committed(w, a, uid)
    ensures Committed(Dying(w, owner, c), a, uid) <= Committed(w, a, uid)
  {
  }

  lemma CommitCommitted(w: World, owner: Owner, a: DeviceId, id: nat, uid: int)
    requires WellFormed(w, owner) && id in w.attempts
    ensures Committed(Committing(w, owner, id), a, uid) <=
      Committed(w, a, uid) + if id in InFlight(w, owner, a, uid) then {w.attempts[id].connect} else {}
  {
    var at := w.attempts[id];
    var home := Home(owner, at.connect);
    NodeFacts(w, owner, home);
    MappedOwners(w.nodes[home].source, at.connect, at.device, at.element, owner(at.connect), uid);
  }

  lemma CommitInFlight(w: World, owner: Owner, a: DeviceId, id: nat, uid: int)
    requires id in w.attempts && Home(owner, w.attempts[id].connect) in w.nodes
    ensures InFlight(Committing(w, owner, id), owner, a, uid) == InFlight(w, owner, a, uid) - {id}
  {
  }

  /** A commit turns at most one attempt in flight into one committed connect. */
  lemma CommitOwns(w: World, owner: Owner, a: DeviceId, id: nat, uid: int)
    requires WellFormed(w, owner) && id in w.attempts
    ensures var w' := Committing(w, owner, id);
      |Committed(w', a, uid)| + |InFlight(w', owner, a, uid)| <= |Committed(w, a, uid)| + |InFlight(w, owner, a, uid)|
  {
    var w' := Committing(w, owner, id);
    CommitCommitted(w, owner, a, id, uid);
    CommitInFlight(w, owner, a, id, uid);
    if id in InFlight(w, owner, a, uid) {
      SubsetSize(Committed(w', a, uid), Committed(w, a, uid) + {w.attempts[id].connect});
    } else {
      SubsetSize(Committed(w', a, uid), Committed(w, a, uid));
    }
  }

  lemma OthersOwnNoMore(w: World, owner: Owner, step: Step, a: DeviceId, uid: int)
    requires WellFormed(w, owner) && Enabled(w, owner, step) && a in w.nodes
    requires !step.BeginConnect? && !step.CommitConnect?
    ensures var w' := Apply(w, owner, step);
      Committed(w', a, uid) <= Committed(w, a, uid) && InFlight(w', owner, a, uid) <= InFlight(w, owner, a, uid)
  {
    if step.CloseConnect? || step.ProcessDies? {
      ShrinkOwns(w, owner, a, step.connect, uid);
    } else if step.LinkLost? {
      CutOwns(w, owner, a, step.one, step.other, uid);
    }
  }

  lemma StepWithinLimit(w: World, owner: Owner, step: Step, a: DeviceId, uid: int, k: nat)
    requires WellFormed(w, owner) && Enabled(w, owner, step) && a in w.nodes
    requires |Committed(w, a, uid)| + |InFlight(w, owner, a, uid)| <= MAX_DISTRIBUTED_CONNECT_NUM - 1 + k
    requires |InFlight(Apply(w, owner, step), owner, a, uid)| <= k
    ensures var w' := Apply(w, owner, step);
      |Committed(w', a, uid)| + |InFlight(w', owner, a, uid)| <= MAX_DISTRIBUTED_CONNECT_NUM - 1 + k
  {
    var w' := Apply(w, owner, step);
    if step.BeginConnect? {
      assert Committed(w', a, uid) == Committed(w, a, uid);
      if Home(owner, step.connect) != a || owner(step.connect).uid != uid {
        assert InFlight(w', owner, a, uid) == InFlight(w, owner, a, uid);
      } else {
        NodeFacts(w, owner, a);
        assert Tracked(w.nodes[a].source.tracking, uid) == |OwnedByUid(w.nodes[a].source.connects, uid)|;
      }
    } else if step.CommitConnect? {
      CommitOwns(w, owner, a, step.id, uid);
    } else {
      OthersOwnNoMore(w, owner, step, a, uid);
      SubsetSize(Committed(w', a, uid), Committed(w, a, uid));
      SubsetSize(InFlight(w', owner, a, uid), InFlight(w, owner, a, uid));
    }
  }

  lemma {:induction false} RunWithinLimit(w: World, owner: Owner, steps: seq<Step>, a: DeviceId, uid: int, k: nat)
    requires WellFormed(w, owner) && Executable(w, owner, steps) && a in w.nodes
    requires |Committed(w, a, uid)| + |InFlight(w, owner, a, uid)| <= MAX_DISTRIBUTED_CONNECT_NUM - 1 + k
    requires AtMostInFlight(w, owner, steps, a, uid, k)
    ensures var w' := After(w, owner, steps);
      |Committed(w', a, uid)| + |InFlight(w', owner, a, uid)| <= MAX_DISTRIBUTED_CONNECT_NUM - 1 + k
    decreases |steps|
  {
    if steps != [] {
      StepWithinLimit(w, owner, steps[0], a, uid, k);
      StepKeepsWellFormed(w, owner, steps[0]);
      RunWithinLimit(Apply(w, owner, steps[0]), owner, steps[1..], a, uid, k);
    }
  }

  /** Interleaved bound: in any run from the start with at most k connects of a uid in
      flight at a time, committed and in-flight connects together stay within 599 + k. */
  lemma InterleavedBound(w: World, owner: Owner, steps: seq<Step>, a: DeviceId, uid: int, k: nat)
    requires Fresh(w) && Executable(w, owner, steps) && a in w.nodes
    requires AtMostInFlight(w, owner, steps, a, uid, k)
    ensures var w' := After(w, owner, steps);
      && |Committed(w', a, uid)| + |InFlight(w', owner, a, uid)| <= MAX_DISTRIBUTED_CONNECT_NUM - 1 + k
      && (k == 1 ==> |Committed(w', a, uid)| <= MAX_DISTRIBUTED_CONNECT_NUM)
  {
    FreshIsWellFormed(w, owner);
    assert Committed(w, a, uid) == {} && InFlight(w, owner, a, uid) == {};
    RunWithinLimit(w, owner, steps, a, uid, k);
  }

  // ------------------------------------------------------- the bound is reached

  function Numbers(lo: nat, hi: nat): (r: set<nat>)
    ensures forall j :: j in r <==> lo <= j < hi
  {
    if lo >= hi then {} else Numbers(lo, hi - 1) + {hi - 1}
  }

  function Objects(n: nat): set<Remote> {
    set j | 0 <= j < n :: Object(j)
  }

  lemma {:induction false} NumbersSize(lo: nat, hi: nat)
    requires lo <= hi
    ensures |Numbers(lo, hi)| == hi - lo
    decreases hi - lo
  {
    if lo < hi {
      NumbersSize(lo, hi - 1);
    }
  }

  lemma {:induction false} ObjectsSize(n: nat)
    ensures |Objects(n)| == n
  {
    if n > 0 {
      assert Objects(n) == Objects(n - 1) + {Object(n - 1)};
      assert Object(n - 1) !in Objects(n - 1);
      ObjectsSize(n - 1);
    }
  }

  ghost predicate OneProcess(owner: Owner, uid: nat) {
    forall c :: owner(c) == CallerInfo(uid, 1, 1, "A")
  }

  /** One attempt for each object from n to hi, not accepted yet. */
  predicate Waiting(attempts: map<nat, Attempt>, e: ElementName, n: nat, hi: nat) {
    && attempts.Keys == Numbers(n, hi)
    && forall j :: j in attempts ==> attempts[j] == Attempt(Object(j), "B", e, Asked, 3)
  }

  lemma WaitingGrows(attempts: map<nat, Attempt>, e: ElementName, n: nat, hi: nat)
    requires Waiting(attempts, e, n, hi) && n <= hi
    ensures hi !in attempts && Waiting(attempts[hi := Attempt(Object(hi), "B", e, Asked, 3)], e, n, hi + 1)
  {
  }

  lemma WaitingShrinks(attempts: map<nat, Attempt>, e: ElementName, n: nat, hi: nat)
    requires Waiting(attempts, e, n, hi) && n < hi
    ensures n in attempts && Waiting(attempts - {n}, e, n + 1, hi)
  {
  }

  /** Devices A and B; the connects below n are committed and those from n to hi wait. */
  ghost predicate Stage(w: World, e: ElementName, n: nat, hi: nat) {
    && n <= hi && "A" in w.nodes && "B" in w.nodes
    && ConnectsAt(w, "A").Keys == Objects(n) && Waiting(w.attempts, e, n, hi)
  }

  lemma StageCounts(w: World, owner: Owner, uid: nat, n: nat, hi: nat)
    requires OneProcess(owner, uid) && "A" in w.nodes && WellFormed(w, owner) && n <= hi
    requires ConnectsAt(w, "A").Keys == Objects(n) && w.attempts.Keys == Numbers(n, hi)
    ensures |Committed(w, "A", uid)| == n && |InFlight(w, owner, "A", uid)| == hi - n
    ensures Tracked(w.nodes["A"].source.tracking, uid) == n
  {
    NodeFacts(w, owner, "A");
    assert Committed(w, "A", uid) == Objects(n);
    assert InFlight(w, owner, "A", uid) == Numbers(n, hi);
    ObjectsSize(n);
    NumbersSize(n, hi);
  }

  lemma TwoDevices()
    ensures "A" != "B"
  {
    assert "A"[0] != "B"[0];
  }

  lemma BeginStage(w: World, owner: Owner, uid: nat, e: ElementName, n: nat, hi: nat)
    requires OneProcess(owner, uid) && Stage(w, e, n, hi)
    requires Tracked(w.nodes["A"].source.tracking, uid) < MAX_DISTRIBUTED_CONNECT_NUM
    ensures Enabled(w, owner, BeginConnect(hi, Object(hi), "B", e))
  {
    TwoDevices();
    WaitingGrows(w.attempts, e, n, hi);
  }

  lemma BegunStage(w: World, e: ElementName, n: nat, hi: nat)
    requires Stage(w, e, n, hi)
    ensures Stage(w.(attempts := w.attempts[hi := Attempt(Object(hi), "B", e, Asked, 3)]), e, n, hi + 1)
  {
    WaitingGrows(w.attempts, e, n, hi);
  }

  /** The remote device is at work on the lowest waiting connect. */
  ghost predicate MidStage(w: World, e: ElementName, n: nat, hi: nat, phase: Phase) {
    && "A" in w.nodes && "B" in w.nodes && ConnectsAt(w, "A").Keys == Objects(n)
    && n < hi && n in w.attempts && w.attempts[n] == Attempt(Object(n), "B", e, phase, 3)
    && w.attempts.Keys == Numbers(n, hi) && Waiting(w.attempts - {n}, e, n + 1, hi)
  }

  lemma SearchStage(w: World, e: ElementName, n: nat, hi: nat) returns (known: bool)
    requires Stage(w, e, n, hi) && n < hi
    ensures n in w.attempts && w.attempts[n] == Attempt(Object(n), "B", e, Asked, 3)
    ensures MidStage(Searching(w, n), e, n, hi, Searched(known))
  {
    WaitingShrinks(w.attempts, e, n, hi);
    known := Object(n) in ServedAt(w, "B");
    var w1 := Searching(w, n);
    assert w1.attempts - {n} == w.attempts - {n};
  }

  lemma AcceptStage(w: World, owner: Owner, e: ElementName, n: nat, hi: nat, known: bool)
    requires MidStage(w, e, n, hi, Searched(known))
    ensures MidStage(Accepting(w, owner, n, Null), e, n, hi, Answered)
  {
    var w1 := Accepting(w, owner, n, Null);
    assert w1.attempts - {n} == w.attempts - {n};
    assert ConnectsAt(w1, "A") == ConnectsAt(w, "A");
  }

  lemma CommitStage(w: World, owner: Owner, uid: nat, e: ElementName, n: nat, hi: nat)
    requires OneProcess(owner, uid) && MidStage(w, e, n, hi, Answered)
    ensures Home(owner, Object(n)) == "A" && Stage(Committing(w, owner, n), e, n + 1, hi)
  {
    var s := w.nodes["A"].source;
    assert Mapped(s, Object(n), "B", e, owner(Object(n))).connects.Keys == s.connects.Keys + {Object(n)};
    assert Objects(n + 1) == Objects(n) + {Object(n)};
  }

  ghost predicate Ready(w: World, owner: Owner, uid: nat, e: ElementName, n: nat, hi: nat) {
    OneProcess(owner, uid) && Stage(w, e, n, hi) && WellFormed(w, owner)
  }

  /** The steps lead to the bound and keep at most k attempts in flight. */
  ghost predicate Leads(w: World, owner: Owner, steps: seq<Step>, uid: nat, e: ElementName, k: nat) {
    && Executable(w, owner, steps) && AtMostInFlight(w, owner, steps, "A", uid, k)
    && Ready(After(w, owner, steps), owner, uid, e, 599 + k, 599 + k)
  }

  lemma LeadsNone(w: World, owner: Owner, uid: nat, e: ElementName, k: nat)
    requires Ready(w, owner, uid, e, 599 + k, 599 + k)
    ensures Leads(w, owner, [], uid, e, k)
  {
    StageCounts(w, owner, uid, 599 + k, 599 + k);
  }

  lemma LeadsCons(w: World, owner: Owner, step: Step, rest: seq<Step>, uid: nat, e: ElementName, k: nat)
    requires Enabled(w, owner, step) && Leads(Apply(w, owner, step), owner, rest, uid, e, k)
    requires |InFlight(w, owner, "A", uid)| <= k
    ensures Leads(w, owner, [step] + rest, uid, e, k)
  {
    RunCons(w, owner, step, rest);
    assert ([step] + rest)[1..] == rest;
  }

  function Begun(w: World, e: ElementName, hi: nat): World {
    w.(attempts := w.attempts[hi := Attempt(Object(hi), "B", e, Asked, 3)])
  }

  /** Starts one more connect. */
  lemma StartOne(w: World, owner: Owner, uid: nat, e: ElementName, n: nat, hi: nat)
    requires Ready(w, owner, uid, e, n, hi) && n < MAX_DISTRIBUTED_CONNECT_NUM
    ensures Ready(Begun(w, e, hi), owner, uid, e, n, hi + 1)
    ensures Enabled(w, owner, BeginConnect(hi, Object(hi), "B", e))
  {
    StageCounts(w, owner, uid, n, hi);
    BeginStage(w, owner, uid, e, n, hi);
    BegunStage(w, e, n, hi);
    StepKeepsWellFormed(w, owner, BeginConnect(hi, Object(hi), "B", e));
  }

  lemma StartThen(
    w: World, owner: Owner, uid: nat, e: ElementName, n: nat, hi: nat, k: nat, rest: seq<Step>)
    requires Ready(w, owner, uid, e, n, hi) && n < MAX_DISTRIBUTED_CONNECT_NUM && hi - n <= k
    requires Leads(Begun(w, e, hi), owner, rest, uid, e, k)
    ensures Leads(w, owner, [BeginConnect(hi, Object(hi), "B", e)] + rest, uid, e, k)
  {
    StartOne(w, owner, uid, e, n, hi);
    StageCounts(w, owner, uid, n, hi);
    LeadsCons(w, owner, BeginConnect(hi, Object(hi), "B", e), rest, uid, e, k);
  }

  ghost predicate Midway(w: World, owner: Owner, uid: nat, e: ElementName, n: nat, hi: nat, phase: Phase) {
    OneProcess(owner, uid) && MidStage(w, e, n, hi, phase) && WellFormed(w, owner)
  }

  /** The three sections that bring the lowest waiting connect to its end. */
  lemma SearchOne(w: World, owner: Owner, uid: nat, e: ElementName, n: nat, hi: nat) returns (known: bool)
    requires Ready(w, owner, uid, e, n, hi) && n < hi
    ensures n in w.attempts && Midway(Searching(w, n), owner, uid, e, n, hi, Searched(known))
    ensures Enabled(w, owner, SearchConnect(n)) && |InFlight(w, owner, "A", uid)| == hi - n
  {
    StageCounts(w, owner, uid, n, hi);
    known := SearchStage(w, e, n, hi);
    SearchKeeps(w, owner, n);
  }

  lemma AcceptOne(w: World, owner: Owner, uid: nat, e: ElementName, n: nat, hi: nat, known: bool)
    requires Midway(w, owner, uid, e, n, hi, Searched(known))
    ensures Midway(Accepting(w, owner, n, Null), owner, uid, e, n, hi, Answered)
    ensures |InFlight(w, owner, "A", uid)| == hi - n
  {
    StageCounts(w, owner, uid, n, hi);
    AcceptStage(w, owner, e, n, hi, known);
    AcceptKeeps(w, owner, n, Null);
  }

  lemma CommitOne(w: World, owner: Owner, uid: nat, e: ElementName, n: nat, hi: nat)
    requires Midway(w, owner, uid, e, n, hi, Answered)
    ensures Home(owner, Object(n)) == "A" && Ready(Committing(w, owner, n), owner, uid, e, n + 1, hi)
    ensures |InFlight(w, owner, "A", uid)| == hi - n
  {
    StageCounts(w, owner, uid, n, hi);
    CommitStage(w, owner, uid, e, n, hi);
    CommitKeeps(w, owner, n);
  }

  lemma {:induction false} ReachBound(w: World, owner: Owner, uid: nat, e: ElementName, n: nat, hi: nat, k: nat)
    returns (steps: seq<Step>)
    requires Ready(w, owner, uid, e, n, hi) && k >= 1
    requires n <= hi && if n < 599 then hi <= n + 1 else if n == 599 then hi <= 599 + k else hi == 599 + k
    ensures Leads(w, owner, steps, uid, e, k)
    decreases 2 * (599 + k) - n - hi, 1
  {
    if n == 599 + k {
      LeadsNone(w, owner, uid, e, k);
      steps := [];
    } else if (n < 599 && hi == n) || (n == 599 && hi < 599 + k) {
      steps := StartThenReach(w, owner, uid, e, n, hi, k);
    } else {
      steps := FinishThenReach(w, owner, uid, e, n, hi, k);
    }
  }

  lemma {:induction false} StartThenReach(w: World, owner: Owner, uid: nat, e: ElementName, n: nat, hi: nat, k: nat)
    returns (steps: seq<Step>)
    requires Ready(w, owner, uid, e, n, hi) && k >= 1
    requires n <= 599 && if n < 599 then hi == n else n <= hi < 599 + k
    ensures Leads(w, owner, steps, uid, e, k)
    decreases 2 * (599 + k) - n - hi, 0, 0
  {
    StartOne(w, owner, uid, e, n, hi);
    var rest := ReachBound(Begun(w, e, hi), owner, uid, e, n, hi + 1, k);
    StartThen(w, owner, uid, e, n, hi, k, rest);
    steps := [BeginConnect(hi, Object(hi), "B", e)] + rest;
  }

  lemma {:induction false} FinishThenReach(w: World, owner: Owner, uid: nat, e: ElementName, n: nat, hi: nat, k: nat)
    returns (steps: seq<Step>)
    requires Ready(w, owner, uid, e, n, hi) && k >= 1
    requires n < hi && if n < 599 then hi == n + 1 else hi == 599 + k
    ensures Leads(w, owner, steps, uid, e, k)
    decreases 2 * (599 + k) - n - hi, 0, 2
  {
    var known := SearchOne(w, owner, uid, e, n, hi);
    var rest := AcceptThenReach(Searching(w, n), owner, uid, e, n, hi, k, known);
    LeadsCons(w, owner, SearchConnect(n), rest, uid, e, k);
    steps := [SearchConnect(n)] + rest;
  }

  lemma {:induction false} AcceptThenReach(
    w: World, owner: Owner, uid: nat, e: ElementName, n: nat, hi: nat, k: nat, known: bool)
    returns (steps: seq<Step>)
    requires Midway(w, owner, uid, e, n, hi, Searched(known)) && k >= 1
    requires n < hi && if n < 599 then hi == n + 1 else hi == 599 + k
    ensures Leads(w, owner, steps, uid, e, k)
    decreases 2 * (599 + k) - n - hi, 0, 1
  {
    AcceptOne(w, owner, uid, e, n, hi, known);
    var rest := CommitThenReach(Accepting(w, owner, n, Null), owner, uid, e, n, hi, k);
    LeadsCons(w, owner, AcceptConnect(n, Null), rest, uid, e, k);
    steps := [AcceptConnect(n, Null)] + rest;
  }

  lemma {:induction false} CommitThenReach(w: World, owner: Owner, uid: nat, e: ElementName, n: nat, hi: nat, k: nat)
    returns (steps: seq<Step>)
    requires Midway(w, owner, uid, e, n, hi, Answered) && k >= 1
    requires n < hi && if n < 599 then hi == n + 1 else hi == 599 + k
    ensures Leads(w, owner, steps, uid, e, k)
    decreases 2 * (599 + k) - n - hi, 0, 0
  {
    CommitOne(w, owner, uid, e, n, hi);
    var rest := ReachBound(Committing(w, owner, n), owner, uid, e, n + 1, hi, k);
    LeadsCons(w, owner, CommitConnect(n), rest, uid, e, k);
    steps := [CommitConnect(n)] + rest;
  }

  /** The bound is tight: for every k there is a run with at most k connects in flight that
      commits 599 + k of them, so two concurrent calls already pass the limit of 600. */
  lemma BoundIsReached(w: World, owner: Owner, uid: nat, e: ElementName, k: nat)
    requires Fresh(w) && "A" in w.nodes && "B" in w.nodes && OneProcess(owner, uid) && k >= 1
    ensures exists steps ::
      && Executable(w, owner, steps) && AtMostInFlight(w, owner, steps, "A", uid, k)
      && |Committed(After(w, owner, steps), "A", uid)| == MAX_DISTRIBUTED_CONNECT_NUM - 1 + k
  {
    FreshIsWellFormed(w, owner);
    var steps := ReachBound(w, owner, uid, e, 0, 0, k);
    StageCounts(After(w, owner, steps), owner, uid, 599 + k, 599 + k);
  }
}
