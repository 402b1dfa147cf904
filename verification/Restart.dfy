/** What a restart maps each extent to (src/volume/gem.rs:1141-1217, src/volume/mod.rs:4380-4625): the
    slot tables on disk are read, and each volume's record is reconciled with them. The record says
    which slots are the legs of an extent; a table wins only where it is provably newer. */
module Restart {
  import opened Sets

  /** Slots in the order of their slabs. */
  type Slot = nat

  /** A volume whose extents have one leg, or several. */
  datatype Volume = Volume(id: nat, mirrored: bool)
  datatype Extent = Extent(volume: Volume, index: nat)

  /** A slot's entry: whose it is, since which generation, and in how many maps. */
  datatype Entry = Entry(of: Extent, gen: nat, refs: nat)
  type Table = map<Slot, Entry>

  /** The volumes on record, those sealed, and each one's ancestors. */
  datatype World = World(known: set<Volume>, sealed: set<Volume>, kin: map<Volume, set<Volume>>)

  function Kin(kin: map<Volume, set<Volume>>, v: Volume): set<Volume> {
    if v in kin then kin[v] else {}
  }

  function Owned(t: Table, e: Extent): set<Slot> {
    set s | s in t && t[s].of == e
  }

  /** The slots of its highest generation. */
  function Top(t: Table, e: Extent): set<Slot> {
    set s | s in Owned(t, e) && forall u <- Owned(t, e) :: t[u].gen <= t[s].gen
  }

  lemma {:induction false} HighestExists(t: Table, ids: set<Slot>)
    requires ids != {} && ids <= t.Keys
    ensures exists s :: s in ids && forall u <- ids :: t[u].gen <= t[s].gen
    decreases |ids|
  {
    var x :| x in ids;
    if ids == {x} {
      assert forall u <- ids :: t[u].gen <= t[x].gen;
    } else {
      assert ids - {x} != {};
      HighestExists(t, ids - {x});
      var s :| s in ids - {x} && forall u <- ids - {x} :: t[u].gen <= t[s].gen;
      var m := if t[s].gen < t[x].gen then x else s;
      assert forall u <- ids :: u == x || u in ids - {x};
      assert m in ids && forall u <- ids :: t[u].gen <= t[m].gen;
    }
  }

  lemma TopExists(t: Table, e: Extent)
    requires Owned(t, e) != {}
    ensures Top(t, e) != {}
  {
    HighestExists(t, Owned(t, e));
    var s :| s in Owned(t, e) && forall u <- Owned(t, e) :: t[u].gen <= t[s].gen;
    assert s in Top(t, e);
  }

  ghost function Sorted(ids: set<Slot>): (r: seq<Slot>)
    ensures forall s :: s in r <==> s in ids
    decreases |ids|
  {
    if ids == {} then [] else
    var m := Least(ids);
    assert forall s <- ids :: s == m || s in ids - {m};
    [m] + Sorted(ids - {m})
  }

  // ---------------------------------------------------------------- the record against the tables

  /** No slot on disk is the extent's: the record's is a share of another volume's, or was given back
      since and perhaps taken again. */
  predicate Keeps(w: World, t: Table, e: Extent, s: Slot) {
    s in t &&
    var x := t[s];
    if x.of.volume == e.volume then false
    else if x.of.volume in Kin(w.kin, e.volume) then x.of.index == e.index
    else if e.volume in w.sealed && x.of.index == e.index && e.volume in Kin(w.kin, x.of.volume) then true
    else !(x.of.volume in w.known && x.refs <= 1)
  }

  /** The generation a table has for a slot; none is below every one. */
  function GenOf(t: Table, s: Slot): int {
    if s in t then t[s].gen else -1
  }

  /** Some slot on disk is: the record is live when a slot of the newest generation is one it names,
      and that generation is not newer than what it says. */
  ghost predicate RecordIsTaken(t: Table, e: Extent, rec: seq<Slot>)
    requires rec != [] && Top(t, e) != {}
  {
    var r := Least(Top(t, e));
    var named := r in rec;
    var live := named || rec[0] in Top(t, e);
    var newer := !named && r != rec[0] && GenOf(t, r) > GenOf(t, rec[0]);
    live && !newer
  }

  /** Where a restart finds the legs of an extent, the first to read first; nowhere when its mapping
      is dropped. */
  ghost function Located(w: World, t: Table, e: Extent, rec: seq<Slot>): seq<Slot> {
    if Owned(t, e) == {} then
      if rec != [] && Keeps(w, t, e, rec[0]) then rec else []
    else
      TopExists(t, e);
      if rec != [] && RecordIsTaken(t, e, rec) then rec else Sorted(Top(t, e))
  }

  /** The record is taken exactly when it names the first slot of the newest generation, or its own
      first leg is of that generation. */
  lemma RecordIsTakenIff(t: Table, e: Extent, rec: seq<Slot>)
    requires rec != [] && Top(t, e) != {}
    ensures RecordIsTaken(t, e, rec) <==> Least(Top(t, e)) in rec || rec[0] in Top(t, e)
  {
  }

  /** A record that is not taken may be again: once its first leg comes back to the slot it names, at a
      generation above the others. So a mirror's record counts even while a newer slot is on disk. */
  lemma ARecordIsTakenAgain(t: Table, e: Extent, rec: seq<Slot>, gen: nat, refs: nat)
    requires rec != [] && forall s <- Owned(t, e) :: t[s].gen < gen
    ensures
      var u := t[rec[0] := Entry(e, gen, refs)];
      Top(u, e) == {rec[0]} && RecordIsTaken(u, e, rec)
  {
    var u := t[rec[0] := Entry(e, gen, refs)];
    assert Owned(u, e) == Owned(t, e) + {rec[0]};
    assert forall s <- Owned(u, e) :: s == rec[0] || u[s] == t[s];
    assert rec[0] in Top(u, e);
    forall s <- Top(u, e)
      ensures s == rec[0]
    {
      assert rec[0] in Owned(u, e);
    }
  }

  /** No two slots of an extent are of one generation. */
  ghost predicate Distinct(t: Table, e: Extent) {
    forall s <- t, u <- t :: s != u && t[s].of == e && t[u].of == e ==> t[s].gen != t[u].gen
  }

  /** So an extent of one leg is found in its newest slot on disk, whatever the record says. */
  lemma TheNewestIsTaken(w: World, t: Table, e: Extent, rec: seq<Slot>, s: Slot)
    requires Distinct(t, e) && |rec| <= 1 && s in Top(t, e)
    ensures Located(w, t, e, rec) == [s]
  {
    forall u <- Top(t, e)
      ensures u == s
    {
      assert u in Owned(t, e) && s in Owned(t, e);
      assert t[u].gen <= t[s].gen && t[s].gen <= t[u].gen;
    }
    assert s in Owned(t, e) && Top(t, e) == {s} && Least(Top(t, e)) == s;
    assert Sorted({s}) == [s] by {
      assert {s} - {s} == {} && Sorted({}) == [];
    }
    if rec != [] && RecordIsTaken(t, e, rec) {
      RecordIsTakenIff(t, e, rec);
      assert rec == [rec[0]];
    }
  }

  /** A share is found where the record has it, while that slot is its ancestor's at the same place. */
  lemma AShareIsWhereTheRecordSays(w: World, t: Table, e: Extent, s: Slot)
    requires Owned(t, e) == {} && s in t && t[s].of.volume != e.volume
    requires t[s].of.volume in Kin(w.kin, e.volume) && t[s].of.index == e.index
    ensures Located(w, t, e, [s]) == [s]
  {
  }

  /** What is found is on a table, or is on record where the record is taken. */
  lemma LocatedIs(w: World, t: Table, e: Extent, rec: seq<Slot>)
    ensures Located(w, t, e, rec) == rec || forall s <- Located(w, t, e, rec) :: s in t && t[s].of == e
  {
    if Owned(t, e) != {} {
      TopExists(t, e);
      assert forall s <- Sorted(Top(t, e)) :: s in Owned(t, e);
    }
  }

  /** A mapping with no slot of its own extent on disk is dropped exactly when the slot on record has no
      entry, or one of the same volume, or an ancestor's of another place; or one of a volume on
      record that only one map has, and that is not this extent's in a clone of this sealed volume. */
  lemma AMappingIsDroppedIff(w: World, t: Table, e: Extent, rec: seq<Slot>)
    requires Owned(t, e) == {} && rec != []
    ensures Located(w, t, e, rec) != [] ==> Located(w, t, e, rec) == rec
    ensures Located(w, t, e, rec) == [] <==>
      rec[0] !in t ||
      var x := t[rec[0]];
      || x.of.volume == e.volume
      || (x.of.volume in Kin(w.kin, e.volume) && x.of.index != e.index)
      || (x.of.volume !in Kin(w.kin, e.volume) && x.of.volume in w.known && x.refs < 2 &&
            (e.volume !in w.sealed || x.of.index != e.index || e.volume !in Kin(w.kin, x.of.volume)))
  {
  }

  ghost predicate Ascends(r: seq<Slot>) {
    forall i, j :: 0 <= i < j < |r| ==> r[i] < r[j]
  }

  lemma LeastFirst(m: Slot, r: seq<Slot>)
    requires Ascends(r) && forall s <- r :: m < s
    ensures Ascends([m] + r)
  {
    assert forall i :: 0 <= i < |r| ==> r[i] in r;
  }

  /** Where the record is superseded the legs are the newest slots, in the order of their slabs. */
  lemma {:induction false} SortedAscends(ids: set<Slot>)
    ensures |Sorted(ids)| == |ids| && Ascends(Sorted(ids))
    decreases |ids|
  {
    if ids != {} {
      var m := Least(ids);
      SortedAscends(ids - {m});
      LeastFirst(m, Sorted(ids - {m}));
    }
  }

  lemma ASupersededRecordGivesWay(w: World, t: Table, e: Extent, rec: seq<Slot>)
    requires Owned(t, e) != {} && Top(t, e) != {} && (rec == [] || !RecordIsTaken(t, e, rec))
    ensures
      var legs := Located(w, t, e, rec);
      && (forall s :: s in legs <==> s in t && t[s].of == e && forall u <- t :: t[u].of == e ==> t[u].gen <= t[s].gen)
      && Ascends(legs)
  {
    SortedAscends(Top(t, e));
    forall s
      ensures s in Top(t, e) <==> s in t && t[s].of == e && forall u <- t :: t[u].of == e ==> t[u].gen <= t[s].gen
    {
      assert forall u :: u in Owned(t, e) <==> u in t && t[u].of == e;
    }
  }
}
