/** Runs from an empty node to where a failed persist loses something: a golden with one extent, a
    clone that shares it, and a mover that moves its slot. */
module FailureRuns {
  import opened Restart
  import opened Relocation
  import opened SlotTables
  import opened Records
  import opened Recovery
  import opened FailedPersists
  import opened Losses

  const GOLDEN: Volume := Volume(1, false)
  const CLONE: Volume := Volume(2, false)
  const OWN: Extent := Extent(GOLDEN, 0)
  const SHARED: Extent := Extent(CLONE, 0)

  /** Both map the slot. */
  function Both(s: Slot): map<Key, Slot> {
    map[Own(OWN) := s, Share(SHARED) := s]
  }

  /** The extent is stored in slot 0, shared, and made durable by mover 9; then mover 8 moves it to
      slot 1, and begins to persist that. */
  const Sharing: seq<Step> := [] + [Create(Own(OWN), 0, 11, 0)] + [Clone(Own(OWN), Share(SHARED))]
  const Storing: seq<Step> := Sharing + [PersistBegin(9, {})] + [Sync(9)] + [PersistEnd(9, Wrote({OWN, SHARED}, true))]
  const Moving: seq<Step> := Storing + [BeginMove(0, 1)] + [Publish(8, 0)] + [PersistBegin(8, {0})] + [Sync(8)]

  const Created: Pool := Empty(map[]).(mem := map[0 := Entry(OWN, 0, 1)], content := map[0 := 11],
    live := map[Own(OWN) := 0])
  const Shared: Pool := Created.(mem := map[0 := Entry(OWN, 0, 2)], live := Both(0), kin := map[CLONE := {GOLDEN}])
  const Begun1: Pool := Shared.(gen := 1, flights := Shared.flights[9 := Flight(1, Both(0), false)])
  const Flushed1: Pool := Begun1.(table := Begun1.mem, flights := Begun1.flights[9 := Flight(1, Both(0), true)])
  const Stored: Pool := Flushed1.(disk := Both(0), last := 1, flights := map[],
    saved := map[Own(OWN) := 11, Share(SHARED) := 11])

  const Two: Table := map[0 := Entry(OWN, 0, 2), 1 := Entry(OWN, 1, 2)]
  const Copying1: Pool := Stored.(mem := Two, content := map[0 := 11, 1 := 11], moving := map[0 := 1])
  const Owing1: Pool := Copying1.(moving := map[], live := Both(1), debt := map[0 := Owed(8)])
  const Begun2: Pool := Owing1.(gen := 2, debt := map[0 := Paying(8)],
    flights := Owing1.flights[8 := Flight(2, Both(1), false)])
  const Moved1: Pool := Begun2.(table := Two, flights := Begun2.flights[8 := Flight(2, Both(1), true)])
  const Begun3: Pool := Moved1.(gen := 3, flights := Moved1.flights[9 := Flight(3, Both(1), false)])
  const Overtaken: Pool := Begun3.(flights := Begun3.flights[9 := Flight(3, Both(1), true)])

  ghost predicate Reaches(h: seq<Step>, p: Pool) {
    Legal(Empty(map[]), h) && Run(Empty(map[]), h) == p && Formed(p)
  }

  ghost predicate Leads(p: Pool, a: Step, q: Pool) {
    Formed(p) && Enabled(p, a) && Clear(p, a) && Do(p, a) == q && Formed(q)
  }

  lemma Next(h: seq<Step>, p: Pool, a: Step, q: Pool)
    requires Reaches(h, p) && Leads(p, a, q)
    ensures Reaches(h + [a], q)
  {
    OneStep(Empty(map[]), h, a);
  }

  /** With no copy under way a flush writes all there is. */
  lemma FlushIs(p: Pool, who: Mover, q: Pool)
    requires Formed(p) && p.moving == map[] && who in p.flights
    requires q == p.(table := p.mem, flights := p.flights[who := p.flights[who].(synced := true)])
    ensures Leads(p, Sync(who), q)
  {
    assert Flushed(p) == p.mem;
  }

  lemma BeginIs(p: Pool, who: Mover, q: Pool)
    requires Formed(p) && who !in p.flights
    requires q == p.(gen := p.gen + 1, flights := p.flights[who := Flight(p.gen + 1, p.live, false)])
    ensures Leads(p, PersistBegin(who, {}), q)
  {
    assert Begun(p, who, {}).debt == p.debt;
  }

  lemma CreateLeads()
    ensures Leads(Empty(map[]), Create(Own(OWN), 0, 11, 0), Created)
  {
  }

  lemma CloneLeads()
    ensures Leads(Created, Clone(Own(OWN), Share(SHARED)), Shared)
  {
    assert {} + {} + {GOLDEN} == {GOLDEN};
    assert Cloned(Created, Own(OWN), Share(SHARED)).kin == map[CLONE := {GOLDEN}];
    assert Cloned(Created, Own(OWN), Share(SHARED)).mem == Shared.mem;
  }

  lemma WriteIs(p: Pool, who: Mover, part: set<Extent>, q: Pool)
    requires Formed(p) && who in p.flights && Ends(p.flights[who], p.last, Wrote(part, true)) && p.debt == map[]
    requires q == p.(disk := p.flights[who].records, last := p.flights[who].gen,
      saved := Read(p, p.flights[who].records),
                     flights := p.flights - {who})
    requires p.saved == map[]
    ensures Leads(p, PersistEnd(who, Wrote(part, true)), q)
  {
    AWholeWriteCovers(p, who, part);
    assert Merged(p.saved, Read(p, p.flights[who].records), part) == Read(p, p.flights[who].records);
    assert End(p, who, Wrote(part, true)).debt == map[];
  }

  lemma CopyIs(p: Pool, from: Slot, to: Slot, k: Key, q: Pool)
    requires Formed(p) && k in p.live && p.live[k] == from && from !in p.moving && Fresh(p, to) && Moves(p, from)
    requires q == p.(mem := p.mem[to := Entry(p.mem[from].of, GenOfCopy(p, from), p.mem[from].refs)],
                     content := p.content[to := p.content[from]], moving := p.moving[from := to])
    ensures Leads(p, BeginMove(from, to), q)
  {
  }

  lemma PublishIs(p: Pool, who: Mover, from: Slot, k: Key, q: Pool)
    requires Formed(p) && from in p.moving && from in p.mem && p.moving[from] in p.mem && k in p.live &&
      p.live[k] == from
    requires q == Published(p, who, from)
    ensures Leads(p, Publish(who, from), q)
  {
  }

  lemma PayIs(p: Pool, who: Mover, s: Slot, q: Pool)
    requires Formed(p) && who !in p.flights && p.debt == map[s := Owed(who)]
    requires q == p.(gen := p.gen + 1, flights := p.flights[who := Flight(p.gen + 1, p.live, false)],
                     debt := map[s := Paying(who)])
    ensures Leads(p, PersistBegin(who, {s}), q)
  {
    PaysOne(p, who, s);
    assert Held(p, p.live);
  }

  lemma PaysOne(p: Pool, who: Mover, s: Slot)
    requires p.debt == map[s := Owed(who)]
    ensures Begun(p, who, {s}).debt == map[s := Paying(who)]
  {
  }

  lemma StoredIsWritten()
    requires Formed(Flushed1)
    ensures Leads(Flushed1, PersistEnd(9, Wrote({OWN, SHARED}, true)), Stored)
  {
    var f := Flushed1.flights[9];
    assert f == Flight(1, Both(0), true) && Whole(f, {OWN, SHARED});
    assert Read(Flushed1, Both(0)) == Stored.saved;
    assert Flushed1.flights - {9} == map[];
    WriteIs(Flushed1, 9, {OWN, SHARED}, Stored);
  }

  lemma StoringLeads()
    ensures Reaches(Storing, Stored)
  {
    var p0 := Empty(map[]);
    assert Run(p0, []) == p0;
    CreateLeads();
    CloneLeads();
    Next([], p0, Create(Own(OWN), 0, 11, 0), Created);
    Next([] + [Create(Own(OWN), 0, 11, 0)], Created, Clone(Own(OWN), Share(SHARED)), Shared);
    BeginIs(Shared, 9, Begun1);
    FlushIs(Begun1, 9, Flushed1);
    StoredIsWritten();
    Next(Sharing, Shared, PersistBegin(9, {}), Begun1);
    Next(Sharing + [PersistBegin(9, {})], Begun1, Sync(9), Flushed1);
    Next(Sharing + [PersistBegin(9, {})] + [Sync(9)], Flushed1, PersistEnd(9, Wrote({OWN, SHARED}, true)), Stored);
  }

  lemma StoredIsMoved()
    requires Formed(Stored)
    ensures Leads(Stored, BeginMove(0, 1), Copying1)
  {
    assert GenOfCopy(Stored, 0) == 1;
    CopyIs(Stored, 0, 1, Own(OWN), Copying1);
  }

  lemma BothRewritten()
    ensures Rewrite(Both(0), 0, 1) == Both(1)
  {
  }

  lemma CopyRewritten()
    ensures Published(Copying1, 8, 0) == Owing1
  {
    BothRewritten();
    var q := Published(Copying1, 8, 0);
    assert q.moving == map[] && q.debt == map[0 := Owed(8)];
    assert q.mem == Two by {
      assert Two[1].(refs := Two[0].refs) == Two[1];
    }
  }

  lemma CopyIsPublished()
    requires Formed(Copying1)
    ensures Leads(Copying1, Publish(8, 0), Owing1)
  {
    CopyRewritten();
    PublishIs(Copying1, 8, 0, Own(OWN), Owing1);
  }

  const Unflushed: seq<Step> := Storing + [BeginMove(0, 1)] + [Publish(8, 0)] + [PersistBegin(8, {0})]

  lemma UnflushedLeads()
    ensures Reaches(Unflushed, Begun2)
  {
    StoringLeads();
    StoredIsMoved();
    CopyIsPublished();
    PayIs(Owing1, 8, 0, Begun2);
    Next(Storing, Stored, BeginMove(0, 1), Copying1);
    Next(Storing + [BeginMove(0, 1)], Copying1, Publish(8, 0), Owing1);
    Next(Storing + [BeginMove(0, 1)] + [Publish(8, 0)], Owing1, PersistBegin(8, {0}), Begun2);
  }

  lemma MovingLeads()
    ensures Reaches(Moving, Moved1)
  {
    UnflushedLeads();
    FlushIs(Begun2, 8, Moved1);
    Next(Unflushed, Begun2, Sync(8), Moved1);
  }

  lemma IsSound(h: seq<Step>, p: Pool)
    requires Reaches(h, p)
    ensures Inv(p)
  {
    EmptyIsSound(map[]);
    RunKeeps(Empty(map[]), h);
  }

  /** There every slab was flushed, and the persist may still fail: freeing what it was to pay for
      drops the clone's extent. */
  lemma SuchAFailureIsPossible(known: set<Volume>, sealed: set<Volume>)
    ensures Legal(Empty(map[]), Moving) && Run(Empty(map[]), Moving) == Moved1 && Formed(Moved1)
    ensures Enabled(Moved1, PersistEnd(8, Refused)) && !SafeUnchecked(Moved1, 8, Refused)
    ensures Drops(EndUnchecked(Moved1, 8, Refused), FreeingThenCrash(0, known, sealed), Share(SHARED))
  {
    MovingLeads();
    IsSound(Moving, Moved1);
    AnUncheckedFailureDropsAClone(Moved1, 8, Refused, 0, Share(SHARED), known, sealed);
  }

  const Overtaking: seq<Step> := Moving + [PersistBegin(9, {})] + [Sync(9)]

  lemma OvertakenLeads()
    ensures Reaches(Overtaking, Overtaken)
  {
    MovingLeads();
    BeginIs(Moved1, 9, Begun3);
    FlushIs(Begun3, 9, Overtaken);
    Next(Moving, Moved1, PersistBegin(9, {}), Begun3);
    Next(Moving + [PersistBegin(9, {})], Begun3, Sync(9), Overtaken);
  }

  /** And a second persist may begin there, and fail to write its copies before the first has its
      turn: the first, which has not failed, is then told that all is well, and the clone's extent
      is dropped. */
  lemma AFalseSuccessIsPossible(known: set<Volume>, sealed: set<Volume>)
    ensures Legal(Empty(map[]), Overtaking) && Run(Empty(map[]), Overtaking) == Overtaken && Formed(Overtaken)
    ensures Enabled(Overtaken, PersistEnd(9, Wrote({}, false))) && !Covers(Overtaken, 9, {})
    ensures Drops(End(Overtaken, 9, Wrote({}, false)), FalseSuccess(8, 0, known, sealed), Share(SHARED))
  {
    OvertakenLeads();
    IsSound(Overtaking, Overtaken);
    assert Overtaken.debt[0] == Paying(8) && Own(OWN) in Overtaken.flights[9].records;
    APartialFailureDropsAClone(Overtaken, 9, {}, false, 0, Share(SHARED), known, sealed);
  }

  lemma OneOnDisk()
    ensures Begun2.debt == map[0 := Paying(8)] && Begun2.flights.Keys == {8}
    ensures Begun2.table == map[0 := Entry(OWN, 0, 2)] && Begun2.mem == Two
  {
  }

  lemma NoneNewerOnDisk(p: Pool)
    requires p.table == map[0 := Entry(OWN, 0, 2)] && p.mem == Two
    ensures Has(p, 0) && !NewerOnDisk(p, 0)
  {
  }

  /** Before the slabs are flushed it may fail too: then the golden's extent, which has one leg, is
      not found at that generation again. */
  lemma AFailedFlushIsPossible(known: set<Volume>, sealed: set<Volume>)
    ensures Legal(Empty(map[]), Unflushed) && Run(Empty(map[]), Unflushed) == Begun2 && Formed(Begun2)
    ensures Enabled(Begun2, PersistEnd(8, Refused)) && !SafeUnchecked(Begun2, 8, Refused)
    ensures GoesBack(EndUnchecked(Begun2, 8, Refused), FreeingThenCrash(0, known, sealed), OWN, 0)
  {
    UnflushedLeads();
    IsSound(Unflushed, Begun2);
    OneOnDisk();
    NoneNewerOnDisk(Begun2);
    AnUncheckedFailureGoesBack(Begun2, 8, 0, known, sealed);
  }

  // ---------------------------------------------------------------- a mirror

  const MIRROR: Extent := Extent(Volume(3, true), 0)

  function TwoLegs(a: Slot, b: Slot): map<Key, Slot> {
    map[Leg(MIRROR, 0) := a, Leg(MIRROR, 1) := b]
  }

  /** Two legs in slots 0 and 1, made durable by mover 9; mover 8 moves the second to slot 2. */
  const MCreated: Pool := Empty(map[]).(mem := map[0 := Entry(MIRROR, 0, 1)], content := map[0 := 11],
    live := map[Leg(MIRROR, 0) := 0])
  const MBoth: Pool := MCreated.(mem := map[0 := Entry(MIRROR, 0, 1), 1 := Entry(MIRROR, 0, 1)],
    content := map[0 := 11, 1 := 11], live := TwoLegs(0, 1))
  const MBegun: Pool := MBoth.(gen := 1, flights := MBoth.flights[9 := Flight(1, TwoLegs(0, 1), false)])
  const MFlushed: Pool := MBegun.(table := MBegun.mem, flights := MBegun.flights[9 := Flight(1, TwoLegs(0, 1), true)])
  const MStored: Pool := MFlushed.(disk := TwoLegs(0, 1), last := 1, flights := map[],
    saved := map[Leg(MIRROR, 0) := 11, Leg(MIRROR, 1) := 11])
  const Three: Table := map[0 := Entry(MIRROR, 0, 1), 1 := Entry(MIRROR, 0, 1), 2 := Entry(MIRROR, 0, 1)]
  const MCopying: Pool := MStored.(mem := Three, content := map[0 := 11, 1 := 11, 2 := 11], moving := map[1 := 2])
  const MOwing: Pool := MCopying.(moving := map[], live := TwoLegs(0, 2), debt := map[1 := Owed(8)])
  const MPaying: Pool := MOwing.(gen := 2, debt := map[1 := Paying(8)],
    flights := MOwing.flights[8 := Flight(2, TwoLegs(0, 2), false)])
  const MMoved: Pool := MPaying.(table := Three, flights := MPaying.flights[8 := Flight(2, TwoLegs(0, 2), true)])

  const MStoring: seq<Step> := [] + [Create(Leg(MIRROR, 0), 0, 11, 0)] + [Create(Leg(MIRROR, 1), 1, 11, 0)] +
    [PersistBegin(9, {})] + [Sync(9)] + [PersistEnd(9, Wrote({MIRROR}, true))]
  const MMoving: seq<Step> := MStoring + [BeginMove(1, 2)] + [Publish(8, 1)] + [PersistBegin(8, {1})] + [Sync(8)]

  lemma FirstLegLeads()
    ensures Leads(Empty(map[]), Create(Leg(MIRROR, 0), 0, 11, 0), MCreated)
  {
  }

  lemma SecondLegLeads()
    ensures Leads(MCreated, Create(Leg(MIRROR, 1), 1, 11, 0), MBoth)
  {
  }

  lemma MirrorIsRead()
    requires Held(MFlushed, TwoLegs(0, 1))
    ensures Read(MFlushed, TwoLegs(0, 1)) == MStored.saved
  {
  }

  lemma MirrorIsWritten()
    requires Formed(MFlushed)
    ensures Leads(MFlushed, PersistEnd(9, Wrote({MIRROR}, true)), MStored)
  {
    var f := MFlushed.flights[9];
    assert f == Flight(1, TwoLegs(0, 1), true) && Whole(f, {MIRROR});
    MirrorIsRead();
    assert MFlushed.flights - {9} == map[];
    WriteIs(MFlushed, 9, {MIRROR}, MStored);
  }

  lemma MirrorStoringLeads()
    ensures Reaches(MStoring, MStored)
  {
    var p0 := Empty(map[]);
    assert Run(p0, []) == p0;
    var h := [] + [Create(Leg(MIRROR, 0), 0, 11, 0)] + [Create(Leg(MIRROR, 1), 1, 11, 0)];
    FirstLegLeads();
    SecondLegLeads();
    Next([], p0, Create(Leg(MIRROR, 0), 0, 11, 0), MCreated);
    Next([] + [Create(Leg(MIRROR, 0), 0, 11, 0)], MCreated, Create(Leg(MIRROR, 1), 1, 11, 0), MBoth);
    BeginIs(MBoth, 9, MBegun);
    FlushIs(MBegun, 9, MFlushed);
    MirrorIsWritten();
    Next(h, MBoth, PersistBegin(9, {}), MBegun);
    Next(h + [PersistBegin(9, {})], MBegun, Sync(9), MFlushed);
    Next(h + [PersistBegin(9, {})] + [Sync(9)], MFlushed, PersistEnd(9, Wrote({MIRROR}, true)), MStored);
  }

  lemma MirrorIsMoved()
    requires Formed(MStored)
    ensures Leads(MStored, BeginMove(1, 2), MCopying)
  {
    assert GenOfCopy(MStored, 1) == 0;
    CopyIs(MStored, 1, 2, Leg(MIRROR, 1), MCopying);
  }

  lemma LegsRewritten()
    ensures Rewrite(TwoLegs(0, 1), 1, 2) == TwoLegs(0, 2)
  {
  }

  lemma MirrorIsPublished()
    requires Formed(MCopying)
    ensures Leads(MCopying, Publish(8, 1), MOwing)
  {
    LegsRewritten();
    var q := Published(MCopying, 8, 1);
    assert q.moving == map[] && q.debt == map[1 := Owed(8)];
    assert q.mem == Three by {
      assert Three[2].(refs := Three[1].refs) == Three[2];
    }
    PublishIs(MCopying, 8, 1, Leg(MIRROR, 1), MOwing);
  }

  lemma MirrorMovingLeads()
    ensures Reaches(MMoving, MMoved)
  {
    MirrorStoringLeads();
    MirrorIsMoved();
    MirrorIsPublished();
    PayIs(MOwing, 8, 1, MPaying);
    FlushIs(MPaying, 8, MMoved);
    Next(MStoring, MStored, BeginMove(1, 2), MCopying);
    Next(MStoring + [BeginMove(1, 2)], MCopying, Publish(8, 1), MOwing);
    Next(MStoring + [BeginMove(1, 2)] + [Publish(8, 1)], MOwing, PersistBegin(8, {1}), MPaying);
    Next(MStoring + [BeginMove(1, 2)] + [Publish(8, 1)] + [PersistBegin(8, {1})], MPaying, Sync(8), MMoved);
  }

  lemma TheRecordStands()
    ensures RecordStands(Three - {1}, TwoLegs(0, 1), MIRROR)
  {
    var t, m := Three - {1}, TwoLegs(0, 1);
    assert m.Keys == {Leg(MIRROR, 0), Leg(MIRROR, 1)};
    assert RecordOf(m, MIRROR)[0] == 0;
    assert Owned(t, MIRROR) == {0, 2} && 0 in Top(t, MIRROR);
    RecordIsTakenIff(t, MIRROR, RecordOf(m, MIRROR));
  }

  lemma MirrorMoved()
    requires Formed(MMoved)
    ensures MMoved.debt == map[1 := Paying(8)] && MMoved.disk == TwoLegs(0, 1) && MMoved.table == Three
    ensures MMoved.flights.Keys == {8} && MayTake(End(MMoved, 8, Refused), OWN)
  {
    assert End(MMoved, 8, Refused).live == TwoLegs(0, 2) && End(MMoved, 8, Refused).disk == TwoLegs(0, 1);
  }

  /** A mirror's leg moves at the generation it had, so its new slot is not newer than its record: if
      the persist fails and the old slot is freed, the leg reads what is put there next. */
  lemma AMirrorCanBeMixedUp(known: set<Volume>, sealed: set<Volume>, data: Data)
    ensures Legal(Empty(map[]), MMoving) && Run(Empty(map[]), MMoving) == MMoved && Formed(MMoved)
    ensures Enabled(MMoved, PersistEnd(8, Refused)) && !SafeUnchecked(MMoved, 8, Refused)
    ensures ReadsAnothers(EndUnchecked(MMoved, 8, Refused), ReusingThenCrash(1, OWN, data, known, sealed),
      Leg(MIRROR, 1),
                          data)
  {
    MirrorMovingLeads();
    IsSound(MMoving, MMoved);
    TheRecordStands();
    MirrorMoved();
    AnUncheckedFailureMixesUpAMirror(MMoved, 8, Refused, 1, MIRROR, 1, OWN, data, known, sealed);
  }
}
