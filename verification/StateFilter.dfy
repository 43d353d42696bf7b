/**
 The filter between the state changes of abilities and the notifications to the caller's
 device: a counter per ability token decides which changes are passed on.
 */
module StateFilter {
  import opened Sessions

  const FOREGROUND: int := 2
  const BACKGROUND: int := 4
  const NOTIFY_COUNT: int := 2

  datatype Event = Event(token: Remote, state: int)

  // ------------------------------------------------- the counters, as they are kept

  predicate Relevant(e: Event) {
    e.state == FOREGROUND || e.state == BACKGROUND
  }

  function Raised(counters: map<Remote, int>, token: Remote): int {
    if token in counters then counters[token] + 1 else 1
  }

  predicate Passes(counters: map<Remote, int>, e: Event) {
    e.state == BACKGROUND || (e.state == FOREGROUND && Raised(counters, e.token) == NOTIFY_COUNT)
  }

  function Counted(counters: map<Remote, int>, e: Event): map<Remote, int> {
    if !Relevant(e) then counters
    else counters[e.token := if Passes(counters, e) then 0 else Raised(counters, e.token)]
  }

  function CountersAfter(events: seq<Event>): map<Remote, int> {
    if events == [] then map[] else Counted(CountersAfter(Front(events)), Last(events))
  }

  function Front(events: seq<Event>): seq<Event>
    requires events != []
  {
    events[..|events| - 1]
  }

  function Last(events: seq<Event>): Event
    requires events != []
  {
    events[|events| - 1]
  }

  /** The events passed on out of a whole history. */
  function Forwarded(events: seq<Event>): seq<Event> {
    if events == [] then []
    else if Passes(CountersAfter(Front(events)), Last(events)) then Forwarded(Front(events)) + [Last(events)]
    else Forwarded(Front(events))
  }

  // ------------------------------------------ what the history says, without counters

  /** The foreground events of a token, whose state is 2, since its last background event, whose
      state is 4. */
  function Foregrounds(events: seq<Event>, token: Remote): nat {
    if events == [] then 0
    else if Last(events) == Event(token, 4) then 0
    else Foregrounds(Front(events), token) + if Last(events) == Event(token, 2) then 1 else 0
  }

  /** A background event always goes through; a foreground event goes through when it has an
      even number among those of its token since the last background event of that token. */
  predicate Expected(before: seq<Event>, e: Event) {
    e.state == 4 || (e.state == 2 && (Foregrounds(before, e.token) + 1) % 2 == 0)
  }

  /** Between events a counter is 0 or 1: the parity of the foreground events. */
  lemma {:induction false} CounterIsParity(events: seq<Event>, token: Remote)
    ensures (if token in CountersAfter(events) then CountersAfter(events)[token] else 0) ==
      Foregrounds(events, token) % 2
  {
    if events != [] {
      CounterIsParity(Front(events), token);
    }
  }

  lemma PassesIffExpected(before: seq<Event>, e: Event)
    ensures Passes(CountersAfter(before), e) <==> Expected(before, e)
  {
    CounterIsParity(before, e.token);
  }

  function ExpectedOnly(events: seq<Event>): seq<Event> {
    if events == [] then []
    else if Expected(Front(events), Last(events)) then ExpectedOnly(Front(events)) + [Last(events)]
    else ExpectedOnly(Front(events))
  }

  /** What is passed on out of any history is what that history says, and in its order. */
  lemma {:induction false} ForwardedExactly(events: seq<Event>)
    ensures Forwarded(events) == ExpectedOnly(events)
  {
    if events != [] {
      ForwardedExactly(Front(events));
      PassesIffExpected(Front(events), Last(events));
    }
  }

  // --------------------------------------------------------- tokens do not interfere

  function About(events: seq<Event>, token: Remote): seq<Event> {
    if events == [] then []
    else if Last(events).token == token then About(Front(events), token) + [Last(events)]
    else About(Front(events), token)
  }

  lemma AboutSnoc(events: seq<Event>, e: Event, token: Remote)
    ensures About(events + [e], token) == About(events, token) + if e.token == token then [e] else []
  {
    assert Front(events + [e]) == events;
  }

  lemma ForegroundsSnoc(events: seq<Event>, e: Event, token: Remote)
    ensures Foregrounds(events + [e], token) ==
      if e == Event(token, BACKGROUND) then 0
      else Foregrounds(events, token) + if e == Event(token, FOREGROUND) then 1 else 0
  {
    assert Front(events + [e]) == events;
  }

  lemma ForwardedSnoc(events: seq<Event>, e: Event)
    ensures Forwarded(events + [e]) == Forwarded(events) + if Passes(CountersAfter(events), e) then [e] else []
  {
    assert Front(events + [e]) == events;
  }

  lemma {:induction false} SameForegrounds(events: seq<Event>, token: Remote)
    ensures Foregrounds(About(events, token), token) == Foregrounds(events, token)
  {
    if events != [] {
      SameForegrounds(Front(events), token);
      if Last(events).token == token {
        ForegroundsSnoc(About(Front(events), token), Last(events), token);
      }
    }
  }

  /** What is passed on about a token is what would be passed on if only its own events had
      happened. */
  lemma {:induction false} TokensIndependent(events: seq<Event>, token: Remote)
    ensures About(Forwarded(events), token) == Forwarded(About(events, token))
  {
    if events != [] {
      var before, e := Front(events), Last(events);
      TokensIndependent(before, token);
      if Passes(CountersAfter(before), e) {
        AboutSnoc(Forwarded(before), e, token);
      }
      if e.token == token {
        ForwardedSnoc(About(before, token), e);
        SameForegrounds(before, token);
        PassesIffExpected(before, e);
        PassesIffExpected(About(before, token), e);
      }
    }
  }

  // -------------------------------------------------------------- the code path

  class AppStateObserver {
    var connectAbilityMap: map<Remote, int>
    var notified: seq<Event>
    ghost var seen: seq<Event>

    ghost predicate Valid()
      reads this
    {
      connectAbilityMap == CountersAfter(seen) && notified == Forwarded(seen)
    }

    constructor ()
      ensures Valid() && seen == []
    {
      connectAbilityMap, notified, seen := map[], [], [];
    }

    method OnAbilityStateChanged(e: Event)
      requires Valid()
      modifies this
      ensures Valid() && seen == old(seen) + [e]
      ensures notified == old(notified) + if Expected(old(seen), e) then [e] else []
    {
      PassesIffExpected(seen, e);
      assert Front(seen + [e]) == seen;
      seen := seen + [e];
      if e.state != FOREGROUND && e.state != BACKGROUND {
        return;
      }
      if e.token !in connectAbilityMap {
        connectAbilityMap := connectAbilityMap[e.token := 1];
      } else {
        connectAbilityMap := connectAbilityMap[e.token := connectAbilityMap[e.token] + 1];
      }
      if connectAbilityMap[e.token] != NOTIFY_COUNT && e.state == FOREGROUND {
        return;
      }
      connectAbilityMap := connectAbilityMap[e.token := 0];
      notified := notified + [e];
    }
  }
}
