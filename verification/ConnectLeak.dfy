/**
 What happens to the leak counter of a device when one connect is used by two callers, and
 that the damage is for good: sections on connects with one caller each never repair it.
 */
module ConnectLeak {
  import opened Sessions
  import opened ConnectTables

  datatype Section =
    | Commit(connect: Remote, device: DeviceId, element: ElementName, caller: CallerInfo)
    | Close(connect: Remote)
    | CallerDies(caller: CallerInfo)
    | DeviceGone(device: DeviceId)

  function Next(s: Source, section: Section): Source {
    match section
    case Commit(c, device, element, caller) => Mapped(s, c, device, element, caller)
    case Close(c) => Disconnected(s, c)
    case CallerDies(caller) => CallerDied(s, caller)
    case DeviceGone(device) => Offline(s, device)
  }

  function After(s: Source, sections: seq<Section>): Source
    decreases |sections|
  {
    if sections == [] then s else After(Next(s, sections[0]), sections[1..])
  }

  /** The section gives no connect a second caller. */
  ghost predicate OneCallerEach(s: Source, section: Section) {
    section.Commit? ==>
      && section.caller.uid >= 0
      && (section.connect in s.connects ==> AllFrom(s.connects[section.connect], section.caller))
  }

  ghost predicate OneCallerRun(s: Source, sections: seq<Section>)
    decreases |sections|
  {
    sections == [] || (OneCallerEach(s, sections[0]) && OneCallerRun(Next(s, sections[0]), sections[1..]))
  }

  /** Every uid is counted `extra` times too often, and has a key just when it is counted. */
  ghost predicate OffBy(s: Source, extra: Counter) {
    forall uid ::
      && Tracked(s.tracking, uid) == |OwnedByUid(s.connects, uid)| + Tracked(extra, uid)
      && (uid in s.tracking <==> Tracked(s.tracking, uid) > 0)
  }

  ghost predicate SourceOk(s: Source) {
    MapOk(s.connects) && OneCaller(s.connects) && UidsValid(s.connects)
  }

  /** Being off by nothing is being exact. */
  lemma ExactIsOffByNothing(s: Source)
    ensures Exact(s) <==> OffBy(s, map[])
  {
    forall uid
      ensures OwnedByUid(s.connects, uid) != {} <==> |OwnedByUid(s.connects, uid)| > 0
    {
    }
  }

  lemma MappedOffBy(s: Source, c: Remote, device: DeviceId, element: ElementName, caller: CallerInfo, extra: Counter)
    requires MapOk(s.connects) && OffBy(s, extra)
    ensures OffBy(Mapped(s, c, device, element, caller), extra)
  {
    if !c.Null? {
      var s' := Mapped(s, c, device, element, caller);
      forall uid
        ensures Tracked(s'.tracking, uid) == |OwnedByUid(s'.connects, uid)| + Tracked(extra, uid)
        ensures uid in s'.tracking <==> Tracked(s'.tracking, uid) > 0
      {
        MappedOwners(s, c, device, element, caller, uid);
        assert c !in s.connects ==> c !in OwnedByUid(s.connects, uid);
      }
    }
  }

  lemma MappedSourceOk(s: Source, c: Remote, device: DeviceId, element: ElementName, caller: CallerInfo)
    requires SourceOk(s) && OneCallerEach(s, Commit(c, device, element, caller))
    ensures SourceOk(Mapped(s, c, device, element, caller))
  {
    AddSessionKeeps(SessionsOf(s.connects, c), caller.sourceDeviceId, device, element, caller);
  }

  lemma ShrunkOffByAt(s: Source, left: SessionMap, extra: Counter, uid: int)
    requires UidsValid(s.connects) && OffBy(s, extra) && left.Keys <= s.connects.Keys
    requires forall c :: c in left ==> FrontUid(left[c]) == FrontUid(s.connects[c])
    ensures var s' := Shrunk(s, left);
      && Tracked(s'.tracking, uid) == |OwnedByUid(left, uid)| + Tracked(extra, uid)
      && (uid in s'.tracking <==> Tracked(s'.tracking, uid) > 0)
  {
    var all, gone, kept := OwnedByUid(s.connects, uid), Gone(s.connects, left.Keys, uid), OwnedByUid(left, uid);
    assert all == kept + gone && kept * gone == {};
    assert |all| == |kept| + |gone|;
    if uid < 0 {
      assert all == {};
    }
  }

  lemma ShrunkOffBy(s: Source, left: SessionMap, extra: Counter)
    requires UidsValid(s.connects) && OffBy(s, extra) && left.Keys <= s.connects.Keys
    requires forall c :: c in left ==> FrontUid(left[c]) == FrontUid(s.connects[c])
    ensures OffBy(Shrunk(s, left), extra)
  {
    forall uid
      ensures var s' := Shrunk(s, left);
        && Tracked(s'.tracking, uid) == |OwnedByUid(left, uid)| + Tracked(extra, uid)
        && (uid in s'.tracking <==> Tracked(s'.tracking, uid) > 0)
    {
      ShrunkOffByAt(s, left, extra, uid);
    }
  }

  lemma SectionKeepsExcess(s: Source, section: Section, extra: Counter)
    requires SourceOk(s) && OffBy(s, extra) && OneCallerEach(s, section)
    ensures SourceOk(Next(s, section)) && OffBy(Next(s, section), extra)
  {
    match section
    case Commit(c, device, element, caller) =>
      MappedOffBy(s, c, device, element, caller, extra);
      MappedSourceOk(s, c, device, element, caller);
    case Close(c) => ShrunkOffBy(s, s.connects - {c}, extra);
    case CallerDies(caller) => ShrunkOffBy(s, s.connects - OwnedBy(s.connects, caller), extra);
    case DeviceGone(device) =>
      DeviceLeftKeeps(s.connects, device);
      ShrunkOffBy(s, DeviceLeft(s.connects, device), extra);
  }

  /** The excess of every uid stays the same through every run that gives no connect a second
      caller: none of its sections takes it away or adds to it. */
  lemma {:induction false} ExcessStays(s: Source, sections: seq<Section>, extra: Counter)
    requires SourceOk(s) && OffBy(s, extra) && OneCallerRun(s, sections)
    ensures OffBy(After(s, sections), extra)
    decreases |sections|
  {
    if sections != [] {
      SectionKeepsExcess(s, sections[0], extra);
      ExcessStays(Next(s, sections[0]), sections[1..], extra);
    }
  }

  // ------------------------------------------------------------- how it comes about

  const EMPTY: Source := Source(map[], map[])

  function First(e: ElementName): Section {
    Commit(Object(0), "B", e, CallerInfo(1, 7, 1, "A"))
  }

  function Second(e: ElementName): Section {
    Commit(Object(0), "C", e, CallerInfo(2, 8, 1, "A"))
  }

  /** One connect, opened by uid 1 towards B and used again by uid 2 towards C. */
  function TwoCallers(e: ElementName): (s: Source)
    ensures s.connects.Keys == {Object(0)} && s.tracking == map[1 := 1]
  {
    var first := Session("A", "B", [e], CallerInfo(1, 7, 1, "A"));
    var second := Session("A", "C", [e], CallerInfo(2, 8, 1, "A"));
    Source(map[Object(0) := [first, second]], map[1 := 1])
  }

  lemma OneCommit(e: ElementName)
    ensures Next(EMPTY, First(e)) ==
      Source(map[Object(0) := [Session("A", "B", [e], CallerInfo(1, 7, 1, "A"))]], map[1 := 1])
  {
    var none: seq<Session> := [];
    var caller := CallerInfo(1, 7, 1, "A");
    assert AddSession(none, "A", "B", e, caller) == [Session("A", "B", [e], caller)];
    assert EMPTY.connects == map[] && EMPTY.tracking == map[];
    assert SessionsOf(EMPTY.connects, Object(0)) == none;
  }

  lemma TwoCommits(e: ElementName)
    ensures Next(Next(EMPTY, First(e)), Second(e)) == TwoCallers(e)
  {
    OneCommit(e);
    var list := [Session("A", "B", [e], CallerInfo(1, 7, 1, "A"))];
    var second := Session("A", "C", [e], CallerInfo(2, 8, 1, "A"));
    assert "B"[0] != "C"[0];
    assert FirstTo(list, "C") == 1;
    assert list + [second] == TwoCallers(e).connects[Object(0)];
    var m: SessionMap := map[Object(0) := list];
    assert m[Object(0) := list + [second]] == TwoCallers(e).connects;
    assert AddSession(list, "A", "C", e, CallerInfo(2, 8, 1, "A")) == list + [second];
  }

  lemma TwoCallersOffline(e: ElementName)
    ensures var off := Offline(TwoCallers(e), "B");
      off.tracking == map[1 := 1] && off.connects.Keys == {Object(0)} && FrontUid(off.connects[Object(0)]) == 2
  {
    var s := TwoCallers(e);
    var list := s.connects[Object(0)];
    assert FirstTo(list, "B") == 0;
    assert DropTo(list, "B") == [list[1]];
    assert DeviceLeft(s.connects, "B").Keys == {Object(0)};
    SettledNothing(s.tracking, s.connects);
  }

  lemma TwoCallersClosed(e: ElementName)
    ensures Disconnected(Offline(TwoCallers(e), "B"), Object(0)) == Source(map[], map[1 := 1])
  {
    TwoCallersOffline(e);
    var off := Offline(TwoCallers(e), "B");
    SettledNothing(off.tracking, off.connects);
    SettledStep(off.tracking, off.connects, off.connects.Keys, Object(0));
    assert (off.connects - {Object(0)}).Keys == off.connects.Keys - {Object(0)};
    assert off.connects - {Object(0)} == map[];
  }

  lemma GoneThenClosed(s: Source, e: ElementName)
    requires s == TwoCallers(e)
    ensures Next(Next(s, DeviceGone("B")), Close(Object(0))) == Source(map[], map[1 := 1])
  {
    TwoCallersClosed(e);
  }

  lemma FourSections(s: Source, a: Section, b: Section, c: Section, d: Section)
    ensures After(s, [a, b, c, d]) == Next(Next(Next(Next(s, a), b), c), d)
  {
    assert [a, b, c, d][1..] == [b, c, d] && [b, c, d][1..] == [c, d] && [c, d][1..] == [d] && [d][1..] == [];
    var s1 := Next(s, a);
    var s2 := Next(s1, b);
    var s3 := Next(s2, c);
    assert After(s3, [d]) == After(Next(s3, d), []);
    assert After(s1, [b, c, d]) == After(s2, [c, d]) == After(s3, [d]);
  }

  /** From the start: two callers commit one connect, the first one's device goes offline, the
      connect is closed. Nothing is connected, and uid 1 keeps a count of one. */
  lemma LeakWithTwoCallers(e: ElementName)
    ensures After(EMPTY, [First(e), Second(e), DeviceGone("B"), Close(Object(0))]) == Source(map[], map[1 := 1])
  {
    TwoCommits(e);
    GoneThenClosed(TwoCallers(e), e);
    FourSections(EMPTY, First(e), Second(e), DeviceGone("B"), Close(Object(0)));
  }

  /** Through every later run with one caller per connect, uid 1 is counted once too often. */
  lemma LeakStays(later: seq<Section>)
    requires OneCallerRun(Source(map[], map[1 := 1]), later)
    ensures var s := After(Source(map[], map[1 := 1]), later);
      Tracked(s.tracking, 1) == |OwnedByUid(s.connects, 1)| + 1
  {
    var s: Source := Source(map[], map[1 := 1]);
    assert forall uid :: OwnedByUid(s.connects, uid) == {};
    ExcessStays(s, later, map[1 := 1]);
  }
}
