/**
 What the caller's two tables hold, in every interleaving: a token stays until something removes
 it, and a session holds the elements of the calls that succeeded.
 */
module CallEntries {
  import opened Sessions
  import opened ConnectTables
  import opened CallTables
  import opened CallRuns

  predicate StepAt(states: seq<Calls>, steps: seq<Step>, i: nat)
    requires |states| == |steps| + 1 && i < |steps|
  {
    Enabled(states[i], steps[i]) && states[i + 1] == Apply(states[i], steps[i])
  }

  /** `states` are the states visited, the first one included. */
  predicate IsRun(states: seq<Calls>, steps: seq<Step>) {
    |states| == |steps| + 1 && forall i :: 0 <= i < |steps| ==> StepAt(states, steps, i)
  }

  // ------------------------------------------------------------------- tokens

  predicate Stores(s: Calls, step: Step, c: Remote) {
    step.StoreToken? && step.id in s.ops && s.ops[step.id].Calling? && s.ops[step.id].connect == c
  }

  /** The step removes the entry of the connect: its call fails, early or late, its removal
      finishes, or the sweep of the device in the entry finishes. */
  predicate Removes(s: Calls, step: Step, c: Remote)
    requires c in s.calls
  {
    || (step.CallFails? && step.id in s.ops && s.ops[step.id].Calling? && s.ops[step.id].connect == c)
    || (step.EarlyFailure? && step.connect == c)
    || (step.FinishRemoval? && step.id in s.ops && s.ops[step.id] == Removing(c))
    || (step.FinishRemoval? && step.id in s.ops && s.ops[step.id] == Sweeping(s.calls[c].remoteDeviceId))
  }

  /** One step: an entry goes exactly when the step removes it, changes only when a new token is
      stored for its connect, and comes only with a store. */
  lemma EntryStep(s: Calls, step: Step, c: Remote)
    requires Enabled(s, step)
    ensures var s' := Apply(s, step);
      && (c in s.calls ==> (c !in s'.calls <==> Removes(s, step, c)))
      && (c in s.calls && !Removes(s, step, c) && !Stores(s, step, c) ==> s'.calls[c] == s.calls[c])
      && (c !in s.calls ==> (c in s'.calls <==> Stores(s, step, c)))
      && (Stores(s, step, c) ==> s'.calls[c] == CallInfo(s.ops[step.id].token, s.ops[step.id].device))
  {
  }

  /** The token stored at step i is still there at n. */
  predicate StoredAt(states: seq<Calls>, steps: seq<Step>, i: nat, n: nat, c: Remote)
    requires |states| == |steps| + 1 && n <= |steps|
  {
    && i < n && Stores(states[i], steps[i], c)
    && forall k :: i < k < n ==>
      c in states[k].calls && !Stores(states[k], steps[k], c) && !Removes(states[k], steps[k], c)
  }

  lemma StoredLater(states: seq<Calls>, steps: seq<Step>, i: nat, n: nat, c: Remote)
    requires IsRun(states, steps) && 0 < n <= |steps| && i < n - 1
    ensures StoredAt(states, steps, i, n, c) <==>
      && StoredAt(states, steps, i, n - 1, c)
      && c in states[n - 1].calls && !Stores(states[n - 1], steps[n - 1], c) && !Removes(states[n - 1], steps[n - 1], c)
  {
  }

  /** Over every interleaving: a connect has an entry exactly when a token was stored for it and
      nothing has removed it since; and the entry is that of the latest store. */
  lemma {:induction false} EntryIff(states: seq<Calls>, steps: seq<Step>, n: nat, c: Remote)
    requires IsRun(states, steps) && states[0] == START && n <= |steps|
    ensures c in states[n].calls <==> exists i: nat :: StoredAt(states, steps, i, n, c)
    ensures forall i: nat :: StoredAt(states, steps, i, n, c) ==>
      c in states[n].calls &&
      states[n].calls[c] == CallInfo(states[i].ops[steps[i].id].token, states[i].ops[steps[i].id].device)
  {
    if n > 0 {
      EntryIff(states, steps, n - 1, c);
      assert StepAt(states, steps, n - 1);
      EntryStep(states[n - 1], steps[n - 1], c);
      forall i: nat | StoredAt(states, steps, i, n, c)
        ensures c in states[n].calls
        ensures states[n].calls[c] == CallInfo(states[i].ops[steps[i].id].token, states[i].ops[steps[i].id].device)
      {
        if i < n - 1 {
          StoredLater(states, steps, i, n, c);
        }
      }
      if c in states[n].calls {
        var i := LatestStore(states, steps, n, c);
      }
    }
  }

  lemma LatestStore(states: seq<Calls>, steps: seq<Step>, n: nat, c: Remote) returns (i: nat)
    requires IsRun(states, steps) && 0 < n <= |steps| && c in states[n].calls
    requires c in states[n - 1].calls ==> HasStore(states, steps, n - 1, c)
    ensures StoredAt(states, steps, i, n, c)
  {
    assert StepAt(states, steps, n - 1);
    EntryStep(states[n - 1], steps[n - 1], c);
    if Stores(states[n - 1], steps[n - 1], c) {
      i := n - 1;
    } else {
      i :| StoredAt(states, steps, i, n - 1, c);
      StoredLater(states, steps, i, n, c);
    }
  }

  ghost predicate HasStore(states: seq<Calls>, steps: seq<Step>, n: nat, c: Remote)
    requires |states| == |steps| + 1 && n <= |steps|
  {
    exists i: nat :: StoredAt(states, steps, i, n, c)
  }

  /** A call under way is for the connect and the device it was issued for, with the token that
      was next then. */
  lemma {:induction false} CallIssued(states: seq<Calls>, steps: seq<Step>, n: nat, id: nat) returns (h: nat)
    requires IsRun(states, steps) && states[0] == START && n <= |steps|
    requires id in states[n].ops && states[n].ops[id].Calling?
    ensures h < n && steps[h] == IssueToken(id, states[n].ops[id].connect, states[n].ops[id].device)
    ensures states[n].ops[id].token == NextToken(states[h].token)
  {
    assert StepAt(states, steps, n - 1);
    if steps[n - 1].IssueToken? && steps[n - 1].id == id {
      h := n - 1;
    } else {
      h := CallIssued(states, steps, n - 1, id);
    }
  }

  // ----------------------------------------------------------------- sessions

  datatype Request = Request(connect: Remote, device: DeviceId)

  /** The calls under way and the elements of one pair, kept from the steps alone. */
  datatype Ledger = Ledger(requests: map<nat, Request>, elements: seq<ElementName>)

  const EMPTY: Ledger := Ledger(map[], [])

  function Entry(l: Ledger, step: Step, c: Remote, d: DeviceId): Ledger {
    match step
    case IssueToken(id, c0, d0) => l.(requests := l.requests[id := Request(c0, d0)])
    case CallSucceeds(id, e, _) =>
      Ledger(l.requests - {id},
        if id in l.requests && l.requests[id] == Request(c, d) && e !in l.elements then l.elements + [e]
        else l.elements)
    case CallFails(id) => l.(requests := l.requests - {id})
    case ForgetSessions(_, c0) => if c0 == c then l.(elements := []) else l
    case SweepSessions(_, d0) => if d0 == d then l.(elements := []) else l
    case _ => l
  }

  function Kept(steps: seq<Step>, n: nat, c: Remote, d: DeviceId): Ledger
    requires n <= |steps|
  {
    if n == 0 then EMPTY else Entry(Kept(steps, n - 1, c, d), steps[n - 1], c, d)
  }

  ghost predicate RequestsMatch(ops: map<nat, Op>, requests: map<nat, Request>) {
    && (forall id :: id in requests <==> id in ops && ops[id].Calling?)
    && forall id :: id in requests ==> requests[id] == Request(ops[id].connect, ops[id].device)
  }

  ghost predicate ElementsMatch(callers: SessionMap, c: Remote, d: DeviceId, elements: seq<ElementName>) {
    && elements == ElementsTo(SessionsOf(callers, c), d)
    && (elements != [] <==> Reaches(SessionsOf(callers, c), d))
  }

  lemma RequestsStep(s: Calls, step: Step, l: Ledger, c: Remote, d: DeviceId)
    requires RequestsMatch(s.ops, l.requests) && Enabled(s, step)
    ensures RequestsMatch(Apply(s, step).ops, Entry(l, step, c, d).requests)
  {
  }

  lemma SavedMatches(
    callers: SessionMap, x: Remote, y: DeviceId, element: ElementName, caller: CallerInfo, c: Remote, d: DeviceId,
    elements: seq<ElementName>)
    requires MapOk(callers) && !x.Null? && ElementsMatch(callers, c, d, elements)
    ensures ElementsMatch(CallerSaved(callers, x, y, element, caller), c, d,
      if x == c && y == d && element !in elements then elements + [element] else elements)
  {
    if x == c {
      var list := SessionsOf(callers, c);
      ElementsAdded(list, caller.sourceDeviceId, y, element, caller, d);
      AddSessionKeeps(list, caller.sourceDeviceId, y, element, caller);
    }
  }

  lemma SweptMatches(callers: SessionMap, x: DeviceId, c: Remote, d: DeviceId, elements: seq<ElementName>)
    requires MapOk(callers) && ElementsMatch(callers, c, d, elements)
    ensures ElementsMatch(DeviceLeft(callers, x), c, d, if x == d then [] else elements)
  {
    DeviceLeftKeeps(callers, x);
    if c in callers {
      ElementsDropped(callers[c], x, d);
    }
  }

  lemma ElementsStep(s: Calls, step: Step, l: Ledger, c: Remote, d: DeviceId)
    requires NoStaleToken(s) && Enabled(s, step)
    requires RequestsMatch(s.ops, l.requests) && ElementsMatch(s.callers, c, d, l.elements)
    ensures ElementsMatch(Apply(s, step).callers, c, d, Entry(l, step, c, d).elements)
  {
    if step.CallSucceeds? {
      var op := s.ops[step.id];
      SavedMatches(s.callers, op.connect, op.device, step.element, step.caller, c, d, l.elements);
    } else if step.SweepSessions? {
      SweptMatches(s.callers, step.device, c, d, l.elements);
    }
  }

  /** Over every interleaving: the session of a connect to a device holds exactly the elements of
      the calls for that pair that succeeded since a removal of the connect or a sweep of the
      device last ended such a session, each once and in their order. */
  lemma {:induction false} CallerElements(states: seq<Calls>, steps: seq<Step>, n: nat, c: Remote, d: DeviceId)
    requires IsRun(states, steps) && states[0] == START && n <= |steps|
    ensures ElementsTo(SessionsOf(states[n].callers, c), d) == Kept(steps, n, c, d).elements
    ensures Reaches(SessionsOf(states[n].callers, c), d) <==> Kept(steps, n, c, d).elements != []
    ensures RequestsMatch(states[n].ops, Kept(steps, n, c, d).requests) && NoStaleToken(states[n])
  {
    if n > 0 {
      CallerElements(states, steps, n - 1, c, d);
      assert StepAt(states, steps, n - 1);
      var l := Kept(steps, n - 1, c, d);
      RequestsStep(states[n - 1], steps[n - 1], l, c, d);
      ElementsStep(states[n - 1], steps[n - 1], l, c, d);
      StepKeepsNoStaleToken(states[n - 1], steps[n - 1]);
    }
  }
}
