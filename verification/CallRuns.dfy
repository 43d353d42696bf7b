/**
 The caller's side of calls under every interleaving of its locked sections.

 A call issues a token, stores it, asks the remote device, and then saves the session or
 erases the token. A release and a caller's death clear the session table first and the
 token table second; so does the sweep of a device that went offline. Sections of different
 operations mix freely.

 `issued` counts the tokens issued so far and `stamps` remembers which issue each stored
 token came from; the code keeps neither.
 */
module CallRuns {
  import opened Sessions
  import opened ConnectTables
  import opened CallTables

  datatype Op =
    | Calling(connect: Remote, device: DeviceId, stamp: nat, token: int, stored: bool)
    | Removing(connect: Remote)
    | Sweeping(device: DeviceId)

  datatype Calls = Calls(
    callers: SessionMap, calls: CallMap, token: int, issued: nat, stamps: map<Remote, nat>, ops: map<nat, Op>)

  datatype Step =
    | IssueToken(id: nat, connect: Remote, device: DeviceId)
    | StoreToken(id: nat)
    | CallSucceeds(id: nat, element: ElementName, caller: CallerInfo)
    | CallFails(id: nat)
    | EarlyFailure(connect: Remote)
    | ForgetSessions(id: nat, connect: Remote)
    | SweepSessions(id: nat, device: DeviceId)
    | FinishRemoval(id: nat)

  predicate Enabled(s: Calls, step: Step) {
    match step
    case IssueToken(id, c, _) => id !in s.ops && !c.Null?
    case StoreToken(id) => id in s.ops && s.ops[id].Calling? && !s.ops[id].stored
    case CallSucceeds(id, _, _) => id in s.ops && s.ops[id].Calling? && s.ops[id].stored
    case CallFails(id) => id in s.ops && s.ops[id].Calling? && s.ops[id].stored
    case EarlyFailure(c) => !c.Null?
    case ForgetSessions(id, c) => id !in s.ops && !c.Null?
    case SweepSessions(id, _) => id !in s.ops
    case FinishRemoval(id) => id in s.ops && !s.ops[id].Calling?
  }

  function Forget(s: Calls, gone: set<Remote>): Calls {
    s.(calls := s.calls - gone, stamps := s.stamps - gone)
  }

  function Apply(s: Calls, step: Step): Calls
    requires Enabled(s, step)
  {
    match step
    case IssueToken(id, c, d) =>
      var t := NextToken(s.token);
      s.(token := t, issued := s.issued + 1, ops := s.ops[id := Calling(c, d, s.issued + 1, t, false)])
    case StoreToken(id) =>
      var op := s.ops[id];
      s.(calls := s.calls[op.connect := CallInfo(op.token, op.device)], stamps := s.stamps[op.connect := op.stamp],
         ops := s.ops[id := op.(stored := true)])
    case CallSucceeds(id, e, caller) =>
      s.(callers := CallerSaved(s.callers, s.ops[id].connect, s.ops[id].device, e, caller), ops := s.ops - {id})
    case CallFails(id) => Forget(s, {s.ops[id].connect}).(ops := s.ops - {id})
    case EarlyFailure(c) => Forget(s, {c})
    case ForgetSessions(id, c) => s.(callers := s.callers - {c}, ops := s.ops[id := Removing(c)])
    case SweepSessions(id, d) => s.(callers := DeviceLeft(s.callers, d), ops := s.ops[id := Sweeping(d)])
    case FinishRemoval(id) =>
      var op := s.ops[id];
      Forget(s, if op.Removing? then {op.connect} else CallsTo(s.calls, op.device)).(ops := s.ops - {id})
  }

  ghost predicate Runs(s: Calls, steps: seq<Step>, s': Calls)
    decreases |steps|
  {
    if steps == [] then s == s' else Enabled(s, steps[0]) && Runs(Apply(s, steps[0]), steps[1..], s')
  }

  const START: Calls := Calls(map[], map[], 0, 0, map[], map[])

  // ------------------------------------------------------------ no stale token

  /** An operation that still has to do with the token of this connect to this device: the
      call that stored it, or a removal that will erase it. */
  predicate Concerns(op: Op, c: Remote, d: DeviceId) {
    match op
    case Calling(c', d', _, _, stored) => stored && c' == c && d' == d
    case Removing(c') => c' == c
    case Sweeping(d') => d' == d
  }

  ghost predicate Backed(s: Calls, c: Remote, d: DeviceId) {
    Reaches(SessionsOf(s.callers, c), d) || exists id :: id in s.ops && Concerns(s.ops[id], c, d)
  }

  /** Every stored token has a session behind it, or an operation under way. */
  ghost predicate NoStaleToken(s: Calls) {
    && MapOk(s.callers)
    && (forall id :: id in s.ops && s.ops[id].Calling? ==> !s.ops[id].connect.Null?)
    && forall c :: c in s.calls ==> !c.Null? && Backed(s, c, s.calls[c].remoteDeviceId)
  }

  /** The operations other than `id` stay as they were. */
  predicate OthersStay(s: Calls, s': Calls, id: nat) {
    forall x :: x in s.ops && x != id ==> x in s'.ops && s'.ops[x] == s.ops[x]
  }

  lemma StillBacked(s: Calls, s': Calls, id: nat, c: Remote, d: DeviceId)
    requires Backed(s, c, d) && OthersStay(s, s', id)
    requires id in s.ops && Concerns(s.ops[id], c, d) ==> Backed(s', c, d)
    requires Reaches(SessionsOf(s.callers, c), d) ==> Backed(s', c, d)
    ensures Backed(s', c, d)
  {
    if !Reaches(SessionsOf(s.callers, c), d) {
      var x :| x in s.ops && Concerns(s.ops[x], c, d);
      if x != id {
        assert x in s'.ops && Concerns(s'.ops[x], c, d);
      }
    }
  }

  lemma CallStepBacked(s: Calls, step: Step, c: Remote)
    requires NoStaleToken(s) && Enabled(s, step) && c in Apply(s, step).calls
    requires step.IssueToken? || step.StoreToken? || step.CallFails?
    ensures !c.Null? && Backed(Apply(s, step), c, Apply(s, step).calls[c].remoteDeviceId)
  {
    var s' := Apply(s, step);
    var d := s'.calls[c].remoteDeviceId;
    if step.StoreToken? && c == s.ops[step.id].connect {
      assert step.id in s'.ops && Concerns(s'.ops[step.id], c, d);
    } else {
      StillBacked(s, s', step.id, c, d);
    }
  }

  lemma SuccessBacked(s: Calls, step: Step, c: Remote)
    requires NoStaleToken(s) && Enabled(s, step) && step.CallSucceeds? && c in Apply(s, step).calls
    ensures !c.Null? && Backed(Apply(s, step), c, Apply(s, step).calls[c].remoteDeviceId)
  {
    var op := s.ops[step.id];
    CallerSavedKeeps(s.callers, op.connect, op.device, step.element, step.caller);
    StillBacked(s, Apply(s, step), step.id, c, s.calls[c].remoteDeviceId);
  }

  lemma FirstHalfBacked(s: Calls, step: Step, c: Remote)
    requires NoStaleToken(s) && Enabled(s, step) && c in Apply(s, step).calls
    requires step.ForgetSessions? || step.SweepSessions?
    ensures !c.Null? && Backed(Apply(s, step), c, Apply(s, step).calls[c].remoteDeviceId)
  {
    var s' := Apply(s, step);
    var d := s.calls[c].remoteDeviceId;
    if step.SweepSessions? {
      DeviceLeftKeeps(s.callers, step.device);
    }
    if Concerns(s'.ops[step.id], c, d) {
    } else {
      StillBacked(s, s', step.id, c, d);
    }
  }

  lemma SecondHalfBacked(s: Calls, step: Step, c: Remote)
    requires NoStaleToken(s) && Enabled(s, step) && c in Apply(s, step).calls
    requires step.EarlyFailure? || step.FinishRemoval?
    ensures !c.Null? && Backed(Apply(s, step), c, Apply(s, step).calls[c].remoteDeviceId)
  {
    if step.FinishRemoval? {
      StillBacked(s, Apply(s, step), step.id, c, s.calls[c].remoteDeviceId);
    }
  }

  lemma StepKeepsBacked(s: Calls, step: Step, c: Remote)
    requires NoStaleToken(s) && Enabled(s, step) && c in Apply(s, step).calls
    ensures !c.Null? && Backed(Apply(s, step), c, Apply(s, step).calls[c].remoteDeviceId)
  {
    match step
    case IssueToken(_, _, _) => CallStepBacked(s, step, c);
    case StoreToken(_) => CallStepBacked(s, step, c);
    case CallFails(_) => CallStepBacked(s, step, c);
    case CallSucceeds(_, _, _) => SuccessBacked(s, step, c);
    case ForgetSessions(_, _) => FirstHalfBacked(s, step, c);
    case SweepSessions(_, _) => FirstHalfBacked(s, step, c);
    case EarlyFailure(_) => SecondHalfBacked(s, step, c);
    case FinishRemoval(_) => SecondHalfBacked(s, step, c);
  }

  lemma StepKeepsNoStaleToken(s: Calls, step: Step)
    requires NoStaleToken(s) && Enabled(s, step)
    ensures NoStaleToken(Apply(s, step))
  {
    forall c | c in Apply(s, step).calls
      ensures !c.Null? && Backed(Apply(s, step), c, Apply(s, step).calls[c].remoteDeviceId)
    {
      StepKeepsBacked(s, step, c);
    }
    if step.CallSucceeds? {
      CallerSavedKeeps(s.callers, s.ops[step.id].connect, s.ops[step.id].device, step.element, step.caller);
    } else if step.SweepSessions? {
      DeviceLeftKeeps(s.callers, step.device);
    }
  }

  lemma {:induction false} RunKeepsNoStaleToken(s: Calls, steps: seq<Step>, s': Calls)
    requires NoStaleToken(s) && Runs(s, steps, s')
    ensures NoStaleToken(s')
    decreases |steps|
  {
    if steps != [] {
      StepKeepsNoStaleToken(s, steps[0]);
      RunKeepsNoStaleToken(Apply(s, steps[0]), steps[1..], s');
    }
  }

  /** No stale call token: whenever no operation that concerns it is under way, a stored token
      for device d belongs to a connect that has a session to d, after any interleaving of
      calls to several devices, failed calls, releases, deaths and offline sweeps. */
  lemma TokenHasSession(steps: seq<Step>, s: Calls, c: Remote)
    requires Runs(START, steps, s) && c in s.calls
    requires forall id :: id in s.ops ==> !Concerns(s.ops[id], c, s.calls[c].remoteDeviceId)
    ensures c in s.callers && Reaches(s.callers[c], s.calls[c].remoteDeviceId)
  {
    RunKeepsNoStaleToken(START, steps, s);
  }

  // -------------------------------------------------------- unambiguous look-up

  predicate Unstored(op: Op) {
    op.Calling? && !op.stored
  }

  /** No issue number is used twice, by stored tokens or by calls about to store one. */
  ghost predicate UsedOnce(stamps: map<Remote, nat>, ops: map<nat, Op>) {
    && (forall c, c' :: c in stamps && c' in stamps && c != c' ==> stamps[c] != stamps[c'])
    && (forall c, id :: c in stamps && id in ops && Unstored(ops[id]) ==> stamps[c] != ops[id].stamp)
    && (forall i, j :: i in ops && j in ops && Unstored(ops[i]) && Unstored(ops[j]) && i != j ==>
      ops[i].stamp != ops[j].stamp)
  }

  /** Tokens and issue numbers agree. */
  ghost predicate StampsOk(s: Calls) {
    && s.token == TokenOf(s.issued)
    && s.stamps.Keys == s.calls.Keys
    && (forall c :: c in s.stamps ==> 1 <= s.stamps[c] <= s.issued && s.calls[c].connectToken == TokenOf(s.stamps[c]))
    && (forall id :: id in s.ops && Unstored(s.ops[id]) ==>
      1 <= s.ops[id].stamp <= s.issued && s.ops[id].token == TokenOf(s.ops[id].stamp))
    && UsedOnce(s.stamps, s.ops)
  }

  lemma StoredOnce(stamps: map<Remote, nat>, ops: map<nat, Op>, id: nat)
    requires UsedOnce(stamps, ops) && id in ops && Unstored(ops[id])
    ensures UsedOnce(stamps[ops[id].connect := ops[id].stamp], ops[id := ops[id].(stored := true)])
  {
  }

  lemma IssuedOnce(stamps: map<Remote, nat>, ops: map<nat, Op>, id: nat, op: Op)
    requires UsedOnce(stamps, ops) && id !in ops && op.Calling?
    requires forall c :: c in stamps ==> stamps[c] < op.stamp
    requires forall i :: i in ops && Unstored(ops[i]) ==> ops[i].stamp < op.stamp
    ensures UsedOnce(stamps, ops[id := op])
  {
  }

  lemma IssueKeepsStamps(s: Calls, step: Step)
    requires StampsOk(s) && Enabled(s, step) && step.IssueToken?
    ensures StampsOk(Apply(s, step))
  {
    TokenStep(s.issued);
    IssuedOnce(s.stamps, s.ops, step.id, Apply(s, step).ops[step.id]);
  }

  lemma StoreKeepsStamps(s: Calls, step: Step)
    requires StampsOk(s) && Enabled(s, step) && step.StoreToken?
    ensures StampsOk(Apply(s, step))
  {
    StoredOnce(s.stamps, s.ops, step.id);
  }

  /** Forgetting tokens and ending or starting operations that store none keeps the stamps. */
  lemma OtherKeepsStamps(s: Calls, s': Calls)
    requires StampsOk(s) && s'.token == s.token && s'.issued == s.issued
    requires s'.stamps.Keys == s'.calls.Keys <= s.calls.Keys
    requires forall c :: c in s'.stamps ==> s'.stamps[c] == s.stamps[c] && s'.calls[c] == s.calls[c]
    requires forall id :: id in s'.ops && Unstored(s'.ops[id]) ==> id in s.ops && s'.ops[id] == s.ops[id]
    ensures StampsOk(s')
  {
  }

  lemma StepKeepsStamps(s: Calls, step: Step)
    requires StampsOk(s) && Enabled(s, step)
    ensures StampsOk(Apply(s, step))
  {
    if step.IssueToken? {
      IssueKeepsStamps(s, step);
    } else if step.StoreToken? {
      StoreKeepsStamps(s, step);
    } else {
      OtherKeepsStamps(s, Apply(s, step));
    }
  }

  lemma {:induction false} RunKeepsStamps(s: Calls, steps: seq<Step>, s': Calls)
    requires StampsOk(s) && Runs(s, steps, s')
    ensures StampsOk(s')
    decreases |steps|
  {
    if steps != [] {
      StepKeepsStamps(s, steps[0]);
      RunKeepsStamps(Apply(s, steps[0]), steps[1..], s');
    }
  }

  /** In every reachable state two stored tokens are equal just when they are the same entry
      or were issued a whole number of cycles apart. */
  lemma SameStoredToken(steps: seq<Step>, s: Calls, c: Remote, c': Remote)
    requires Runs(START, steps, s) && c in s.calls && c' in s.calls
    ensures s.stamps.Keys == s.calls.Keys && (s.stamps[c] == s.stamps[c'] <==> c == c')
    ensures s.calls[c].connectToken == s.calls[c'].connectToken <==>
      (s.stamps[c] - s.stamps[c']) % MAX_TOKEN_NUM == 0
  {
    RunKeepsStamps(START, steps, s);
    var m, n := s.stamps[c], s.stamps[c'];
    if m <= n {
      SameTokenIff(m, n);
      MultipleOfMax(n - m);
    } else {
      SameTokenIff(n, m);
    }
  }

  lemma MultipleOfMax(d: int)
    ensures d % MAX_TOKEN_NUM == 0 <==> (-d) % MAX_TOKEN_NUM == 0
  {
    var q := d / MAX_TOKEN_NUM;
    if d % MAX_TOKEN_NUM == 0 {
      assert -d == MAX_TOKEN_NUM * (-q);
    }
    var p := (-d) / MAX_TOKEN_NUM;
    if (-d) % MAX_TOKEN_NUM == 0 {
      assert d == MAX_TOKEN_NUM * (-p);
    }
  }

  /** Token look-up is unambiguous: if every stored token was issued fewer than 100000000
      issues away from that of c, the only entry with the token of c is c itself, so a walk
      in any order finds c. */
  lemma LookupFindsIssuer(steps: seq<Step>, s: Calls, c: Remote, found: Remote)
    requires Runs(START, steps, s) && c in s.calls && found in s.calls && c in s.stamps
    requires forall c' :: c' in s.calls && c' in s.stamps ==>
      -MAX_TOKEN_NUM < s.stamps[c'] - s.stamps[c] < MAX_TOKEN_NUM
    requires s.calls[found].connectToken == s.calls[c].connectToken
    ensures found == c
  {
    SameStoredToken(steps, s, found, c);
    var d := s.stamps[found] - s.stamps[c];
    if d != 0 {
      SmallMultiple(d);
    }
  }

  lemma SmallMultiple(d: int)
    requires -MAX_TOKEN_NUM < d < MAX_TOKEN_NUM && d % MAX_TOKEN_NUM == 0
    ensures d == 0
  {
  }
}
