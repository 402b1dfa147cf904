/** A release erase cut anywhere (src/release_erase.rs:127-155, 238-393): everything a node holds
    for its cluster is deleted and laid again from the release's goldens, the engine's own state
    last, under a temporary name. The power may go after any step, any number of times; the next
    boot finishes or repeats the run. */
module ReleaseErase {
  import opened Options
  import opened Sets

  type Id = nat
  type Files = map<string, string>

  const STATE_VOLUME := "stormblock-state"
  const STATE_NEW := "stormblock-state.release-new"
  const NODE_STATE_VOLUME := "stormcos-state"
  const SYSTEM_DATA := "system-data"

  datatype Origin = Release | Node | Unmarked
  datatype Ticket = Ticket(pending: bool, declaration: Option<Files>)
  /** A volume: `ticket` and `files` are what is read from its file system. */
  datatype Vol = Vol(name: string, origin: Origin, sealed: bool, parent: Option<Id>, ticket: Option<Ticket>,
        files: Files)
  type Vols = map<Id, Vol>

  datatype Action = Keep | Relay(from: Id) | Erase

  /** What reaches the disk one at a time. A clone is the node's until it is marked. */
  datatype Act =
    | Save(id: Id, files: Files)
    | Delete(id: Id)
    | Clone(id: Id, name: string, from: Id)
    | Mark(id: Id)
    | Carry(id: Id, files: Files)
    | Rename(id: Id, name: string)

  // ---------------------------------------------------------------- the plan

  predicate KeptGolden(v: Vols, id: Id) {
    id in v && v[id].sealed && v[id].origin.Release?
  }

  function ActionOf(v: Vols, id: Id): Action
    requires id in v
  {
    var x := v[id];
    if x.name == SYSTEM_DATA then Keep
    else if x.name == STATE_NEW then Erase
    else if x.sealed && x.origin.Release? then Keep
    else if !x.sealed && x.origin.Release? then
      if x.parent.Some? && KeptGolden(v, x.parent.value) then Relay(x.parent.value) else Erase
    else Erase
  }

  /** What a relay is laid from is itself kept, unless it has the temporary name. */
  lemma RelaySourceIsKeptIff(v: Vols, id: Id)
    requires id in v && ActionOf(v, id).Relay?
    ensures ActionOf(v, id).from in v
    ensures ActionOf(v, ActionOf(v, id).from).Keep? <==> v[ActionOf(v, id).from].name != STATE_NEW
  {
    assert STATE_NEW != SYSTEM_DATA by {
      assert STATE_NEW[1] == 't' && SYSTEM_DATA[1] == 'y';
    }
  }

  /** How far a volume is from what it was first cloned from; a cycle or 1024 links stop it. */
  function Lineage(v: Vols, cur: Id, sofar: seq<Id>): (r: seq<Id>)
    requires |sofar| <= 1026
    ensures sofar <= r
    decreases 1026 - |sofar|
  {
    if cur !in v || v[cur].parent.None? || v[cur].parent.value in sofar || |sofar| > 1024 then sofar
    else Lineage(v, v[cur].parent.value, sofar + [v[cur].parent.value])
  }

  function Depth(v: Vols, id: Id): nat {
    |Lineage(v, id, [id])|
  }

  predicate Goes(v: Vols, id: Id) {
    id in v && v[id].name != STATE_VOLUME && !ActionOf(v, id).Keep?
  }

  /** Each volume that goes, once, deepest first; the state volume is not among them. */
  ghost predicate Ordered(v: Vols, order: seq<Id>) {
    && (forall id :: id in order <==> Goes(v, id))
    && (forall i, j :: 0 <= i < j < |order| ==> order[i] != order[j] && Depth(v, order[i]) >= Depth(v, order[j]))
  }

  /** No clone is its own ancestor, and chains fit the walk. */
  ghost predicate Rooted(v: Vols) {
    forall id <- v :: v[id].parent.Some? ==>
      var p := v[id].parent.value; id !in Lineage(v, p, [p]) && Depth(v, p) <= 1024
  }

  lemma {:induction false} LineageUnder(v: Vols, cur: Id, sofar: seq<Id>, id: Id)
    requires |sofar| <= 1024 && id !in Lineage(v, cur, sofar) && |Lineage(v, cur, sofar)| <= 1024
    ensures Lineage(v, cur, [id] + sofar) == [id] + Lineage(v, cur, sofar)
    decreases 1026 - |sofar|
  {
    if cur in v && v[cur].parent.Some? && v[cur].parent.value !in sofar {
      var p := v[cur].parent.value;
      assert p in sofar + [p];
      assert ([id] + sofar) + [p] == [id] + (sofar + [p]);
      LineageUnder(v, p, sofar + [p], id);
    }
  }

  lemma ChildIsDeeper(v: Vols, id: Id)
    requires Rooted(v) && id in v && v[id].parent.Some?
    ensures Lineage(v, id, [id]) == [id] + Lineage(v, v[id].parent.value, [v[id].parent.value])
  {
    var p := v[id].parent.value;
    assert p in Lineage(v, p, [p]);
    LineageUnder(v, p, [p], id);
    assert [id] + [p] == [id, p];
  }

  lemma {:induction false} DescendantIsDeeper(v: Vols, id: Id, of: Id)
    requires Rooted(v) && of in Lineage(v, id, [id]) && id != of
    ensures Depth(v, id) > Depth(v, of)
    decreases Depth(v, id)
  {
    ChildIsDeeper(v, id);
    var p := v[id].parent.value;
    if of != p {
      DescendantIsDeeper(v, p, of);
    }
  }

  /** No volume is deleted before a descendant that goes too. */
  lemma DescendantsGoFirst(v: Vols, order: seq<Id>, i: nat, j: nat)
    requires Rooted(v) && Ordered(v, order) && i < |order| && j < |order|
    requires order[j] in Lineage(v, order[i], [order[i]]) && order[i] != order[j]
    ensures i < j
  {
    DescendantIsDeeper(v, order[i], order[j]);
  }

  // ---------------------------------------------------------------- the run, act by act

  predicate Taken(v: Vols, id: Id, name: string) {
    exists o <- v :: o != id && v[o].name == name
  }

  function Do(v: Vols, a: Act): Vols {
    match a
    case Save(id, files) => if id in v && v[id].ticket.Some?
      then v[id := v[id].(ticket := Some(v[id].ticket.value.(declaration := Some(files))))] else v
    case Delete(id) => v - {id}
    case Clone(id, name, from) => if from in v && v[from].sealed
      then v[id := Vol(name, Node, false, Some(from), v[from].ticket, v[from].files)] else v
    case Mark(id) => if id in v then v[id := v[id].(origin := Release)] else v
    case Carry(id, files) => if id in v then v[id := v[id].(files := v[id].files + files)] else v
    // Refused when another volume has the name.
    case Rename(id, name) => if id in v && !Taken(v, id, name) then v[id := v[id].(name := name)] else v
  }

  ghost function Exec(v: Vols, acts: seq<Act>): Vols {
    if acts == [] then v else Do(Exec(v, acts[..|acts| - 1]), acts[|acts| - 1])
  }

  lemma {:induction false} ExecConcat(v: Vols, a: seq<Act>, b: seq<Act>)
    ensures Exec(v, a + b) == Exec(Exec(v, a), b)
  {
    if b == [] {
      assert a + b == a;
    } else {
      assert (a + b)[..|a + b| - 1] == a + b[..|b| - 1];
      ExecConcat(v, a, b[..|b| - 1]);
    }
  }

  /** What a boot meets: which operations succeed, the ids clones are given, and the order ties
      are deleted in. */
  datatype Luck = Luck(
    saves: bool, deletes: Id -> bool, lays: nat -> bool, carries: bool,
    laysState: bool, deletesState: bool, renames: bool, ids: nat -> Id)

  ghost predicate Fresh(v: Vols, l: Luck) {
    (forall k: nat :: l.ids(k) !in v) && forall j: nat, k: nat :: l.ids(j) == l.ids(k) ==> j == k
  }

  /** Everything succeeds. */
  function Lucky(ids: nat -> Id): Luck {
    Luck(true, _ => true, _ => true, true, true, true, true, ids)
  }

  ghost function WithName(v: Vols, name: string): set<Id> {
    set id | id in v && v[id].name == name
  }

  /** The volume with a name, the least of several. */
  ghost function Named(v: Vols, name: string): (r: Option<Id>)
    ensures r.Some? ==> r.value in v && v[r.value].name == name
    ensures r.None? <==> forall id <- v :: v[id].name != name
  {
    if WithName(v, name) == {} then (assert forall id <- v :: id !in WithName(v, name); None)
      else Some(Least(WithName(v, name)))
  }

  ghost function PendingTicket(v: Vols): Option<Id> {
    var s := Named(v, STATE_VOLUME);
    if s.Some? && v[s.value].ticket.Some? && v[s.value].ticket.value.pending then s else None
  }

  ghost function ReadDeclaration(v: Vols): Files {
    var id := Named(v, NODE_STATE_VOLUME);
    if id.Some? then v[id.value].files else map[]
  }

  /** The declaration first, kept in the ticket. */
  ghost function Saving(v: Vols, s: Id): seq<Act>
    requires s in v && v[s].ticket.Some?
  {
    if v[s].ticket.value.declaration.None? then [Save(s, ReadDeclaration(v))] else []
  }

  ghost function Declared(v: Vols, s: Id): Files
    requires s in v && v[s].ticket.Some?
  {
    if v[s].ticket.value.declaration.None? then ReadDeclaration(v) else v[s].ticket.value.declaration.value
  }

  /** The volumes deleted, in order. */
  function Deleted(order: seq<Id>, l: Luck): (r: seq<Id>)
    ensures forall id <- r :: id in order && l.deletes(id)
  {
    if order == [] then [] else
    var r, id := Deleted(order[..|order| - 1], l), order[|order| - 1];
    if l.deletes(id) then r + [id] else r
  }

  function Deletes(ids: seq<Id>): (r: seq<Act>)
    ensures |r| == |ids| && forall i :: 0 <= i < |r| ==> r[i] == Delete(ids[i])
    ensures forall a <- r :: a.Delete? && a.id in ids
  {
    seq(|ids|, i requires 0 <= i < |ids| => Delete(ids[i]))
  }

  /** Of those, the ones to lay again: a list that exists only in memory. */
  function Relays(v: Vols, gone: seq<Id>): (r: seq<Id>)
    requires forall id <- gone :: id in v
    ensures forall id <- r :: id in gone && ActionOf(v, id).Relay?
  {
    if gone == [] then [] else
    var r, id := Relays(v, gone[..|gone| - 1]), gone[|gone| - 1];
    if ActionOf(v, id).Relay? then r + [id] else r
  }

  function LayOne(v: Vols, id: Id, new_id: Id, l: Luck, d: Files): seq<Act>
    requires id in v && ActionOf(v, id).Relay?
  {
    [Clone(new_id, v[id].name, ActionOf(v, id).from), Mark(new_id)] +
    if v[id].name == NODE_STATE_VOLUME && d != map[] && l.carries then [Carry(new_id, d)] else []
  }

  function Lays(v: Vols, relays: seq<Id>, l: Luck, d: Files): seq<Act>
    requires forall id <- relays :: id in v && ActionOf(v, id).Relay?
  {
    if relays == [] then [] else
    var k := |relays| - 1;
    Lays(v, relays[..k], l, d) + if l.lays(k) then LayOne(v, relays[k], l.ids(k), l, d) else []
  }

  /** The state volume last, through a temporary name. */
  function StateSafe(v: Vols, s: Id, new_id: Id, l: Luck): seq<Act>
    requires s in v
  {
    if ActionOf(v, s).Relay? && l.laysState then [Clone(new_id, STATE_NEW, ActionOf(v, s).from), Mark(new_id)] else []
  }

  function StateSwap(v: Vols, s: Id, new_id: Id, l: Luck): seq<Act>
    requires s in v
  {
    if ActionOf(v, s).Relay? && !l.laysState then [] else
    (if l.deletesState then [Delete(s)] else []) +
    (if ActionOf(v, s).Relay? && l.renames then [Rename(new_id, STATE_VOLUME)] else [])
  }

  /** Everything up to the state volume's own swap. */
  ghost function Before(v: Vols, s: Id, order: seq<Id>, l: Luck): seq<Act>
    requires s in v && v[s].ticket.Some? && forall id <- order :: id in v
  {
    var gone := Deleted(order, l);
    var relays := Relays(v, gone);
    Saving(v, s) + Deletes(gone) + Lays(v, relays, l, Declared(v, s)) + StateSafe(v, s, l.ids(|relays|), l)
  }

  ghost function After(v: Vols, s: Id, order: seq<Id>, l: Luck): seq<Act>
    requires s in v && forall id <- order :: id in v
  {
    StateSwap(v, s, l.ids(|Relays(v, Deleted(order, l))|), l)
  }

  /** A release cut between its last delete and its rename is given its name. */
  ghost function Finish(v: Vols, l: Luck): seq<Act> {
    var n := Named(v, STATE_NEW);
    if Named(v, STATE_VOLUME).None? && n.Some? && l.renames then [Rename(n.value, STATE_VOLUME)] else []
  }

  /** A pending ticket is run, once the declaration is saved in it. */
  ghost predicate Runs(v: Vols, l: Luck) {
    PendingTicket(v).Some? && (v[PendingTicket(v).value].ticket.value.declaration.None? ==> l.saves)
  }

  ghost function RunOf(v: Vols, order: seq<Id>, l: Luck): seq<Act>
    requires Runs(v, l) ==> Ordered(v, order)
  {
    if Runs(v, l) then Before(v, PendingTicket(v).value, order, l) + After(v, PendingTicket(v).value, order, l) else []
  }

  ghost predicate Orders(v: Vols, order: seq<Id>, l: Luck) {
    var w := Exec(v, Finish(v, l));
    Runs(w, l) ==> Ordered(w, order)
  }

  /** The acts of one boot, in order; it may be cut after any of them. */
  ghost function Script(v: Vols, order: seq<Id>, l: Luck): seq<Act>
    requires Orders(v, order, l)
  {
    Finish(v, l) + RunOf(Exec(v, Finish(v, l)), order, l)
  }

  // ---------------------------------------------------------------- the engine's state is never lost

  /** Where a release starts: the state volume, its golden, and the declaration first read. */
  datatype Start = Start(s: Id, g: Id, files: Files)

  predicate Ticketed(x: Vol) {
    x.ticket.Some? && x.ticket.value.pending
  }

  ghost predicate Golden(v: Vols, g: Id) {
    KeptGolden(v, g) && v[g].name != STATE_VOLUME && v[g].name != STATE_NEW && !Ticketed(v[g])
  }

  ghost predicate NoTicketInNew(v: Vols) {
    forall id <- v :: v[id].name == STATE_NEW ==> !Ticketed(v[id])
  }

  /** The old state volume is there, its ticket pending, with the declaration once it is saved. */
  ghost predicate OldStands(i: Start, v: Vols) {
    && i.s in v && v[i.s].name == STATE_VOLUME && !v[i.s].sealed && v[i.s].origin.Release? && v[i.s].parent == Some(i.g)
    && Ticketed(v[i.s]) && Golden(v, i.g) && NoTicketInNew(v)
    && (forall id <- v :: v[id].name == STATE_VOLUME ==> id == i.s)
    && Declared(v, i.s) == i.files
  }

  /** Only the fresh one is there, still under its temporary name. */
  ghost predicate NewWaits(i: Start, v: Vols) {
    i.s !in v && Named(v, STATE_VOLUME).None? && Named(v, STATE_NEW).Some? && NoTicketInNew(v)
  }

  /** One state volume, with no ticket. */
  ghost predicate Finished(i: Start, v: Vols) {
    i.s !in v && exists n <- v ::
      v[n].name == STATE_VOLUME && !Ticketed(v[n]) && forall id <- v :: v[id].name == STATE_VOLUME ==> id == n
  }

  ghost predicate Stands(i: Start, v: Vols) {
    OldStands(i, v) || NewWaits(i, v) || Finished(i, v)
  }

  /** Acts that leave the old state volume standing. */
  predicate Tame(i: Start, a: Act) {
    match a
    case Save(id, files) => id == i.s && files == i.files
    case Delete(id) => id != i.s && id != i.g
    case Clone(id, name, from) => id != i.s && id != i.g && name != STATE_VOLUME && (name == STATE_NEW ==> from == i.g)
    case Mark(id) => id != i.s && id != i.g
    case Carry(id, _) => id != i.s && id != i.g
    case Rename(_, _) => false
  }

  ghost predicate Saved(i: Start, v: Vols) {
    i.s in v && v[i.s].ticket.Some? && v[i.s].ticket.value.declaration.Some?
  }

  lemma TameKeeps(i: Start, v: Vols, a: Act)
    requires OldStands(i, v) && Tame(i, a) && (Saved(i, v) || a.Save?)
    ensures OldStands(i, Do(v, a)) && Saved(i, Do(v, a))
  {
    assert STATE_NEW != STATE_VOLUME by {
      assert |STATE_NEW| != |STATE_VOLUME|;
    }
  }

  lemma {:induction false} TameRun(i: Start, v: Vols, acts: seq<Act>)
    requires OldStands(i, v) && (forall a <- acts :: Tame(i, a)) && (Saved(i, v) || (acts != [] ==> acts[0].Save?))
    ensures OldStands(i, Exec(v, acts)) && (acts != [] || Saved(i, v) ==> Saved(i, Exec(v, acts)))
  {
    if acts != [] {
      TameRun(i, v, acts[..|acts| - 1]);
      TameKeeps(i, Exec(v, acts[..|acts| - 1]), acts[|acts| - 1]);
    }
  }

  lemma {:induction false} LaysTame(i: Start, v: Vols, relays: seq<Id>, l: Luck, d: Files)
    requires OldStands(i, v) && Fresh(v, l)
    requires forall id <- relays :: id in v && Goes(v, id) && ActionOf(v, id).Relay?
    ensures forall a <- Lays(v, relays, l, d) :: Tame(i, a)
  {
    if relays != [] {
      LaysTame(i, v, relays[..|relays| - 1], l, d);
    }
  }

  lemma DeletesTame(i: Start, gone: seq<Id>)
    requires i.s !in gone && i.g !in gone
    ensures forall a <- Deletes(gone) :: Tame(i, a)
  {
  }

  lemma BeforeIsTame(i: Start, v: Vols, order: seq<Id>, l: Luck)
    requires OldStands(i, v) && Fresh(v, l) && Ordered(v, order)
    ensures forall a <- Before(v, i.s, order, l) :: Tame(i, a)
    ensures Saved(i, v) || (Before(v, i.s, order, l) != [] && Before(v, i.s, order, l)[0].Save?)
  {
    var gone := Deleted(order, l);
    var relays := Relays(v, gone);
    GoldenIsKept(v, i.g);
    forall id <- gone
      ensures Goes(v, id) && id != i.s && id != i.g
    {
      assert id in order;
    }
    LaysTame(i, v, relays, l, Declared(v, i.s));
    StateIsRelayed(i, v);
    assert forall a <- Saving(v, i.s) :: Tame(i, a);
    DeletesTame(i, gone);
    assert |STATE_NEW| != |STATE_VOLUME| && l.ids(|relays|) !in v;
    assert forall a <- StateSafe(v, i.s, l.ids(|relays|), l) :: Tame(i, a);
  }

  lemma GoldenIsKept(v: Vols, g: Id)
    requires Golden(v, g)
    ensures ActionOf(v, g).Keep?
  {
  }

  lemma StateIsRelayed(i: Start, v: Vols)
    requires OldStands(i, v)
    ensures ActionOf(v, i.s) == Relay(i.g) && PendingTicket(v) == Some(i.s)
  {
    assert |STATE_VOLUME| != |SYSTEM_DATA| && |STATE_VOLUME| != |STATE_NEW|;
    assert Named(v, STATE_VOLUME).Some?;
  }

  function Swap(s: Id, n: Id, deletes: bool, renames: bool): seq<Act> {
    (if deletes then [Delete(s)] else []) + (if renames then [Rename(n, STATE_VOLUME)] else [])
  }

  lemma OldDeleted(i: Start, u: Vols, n: Id)
    requires OldStands(i, u) && n in u && u[n].name == STATE_NEW
    ensures NewWaits(i, Do(u, Delete(i.s)))
    ensures Finished(i, Do(Do(u, Delete(i.s)), Rename(n, STATE_VOLUME)))
  {
    assert |STATE_NEW| != |STATE_VOLUME|;
    var w := Do(u, Delete(i.s));
    assert w[n].name == STATE_NEW && !Ticketed(w[n]);
    var done := Do(w, Rename(n, STATE_VOLUME));
    assert done == w[n := w[n].(name := STATE_VOLUME)];
    assert done[n].name == STATE_VOLUME && !Ticketed(done[n]);
    assert forall id <- done :: done[id].name == STATE_VOLUME ==> id == n;
  }

  lemma RenameRefused(i: Start, u: Vols, n: Id)
    requires OldStands(i, u) && n in u && u[n].name == STATE_NEW
    ensures Do(u, Rename(n, STATE_VOLUME)) == u
  {
    assert |STATE_NEW| != |STATE_VOLUME|;
    assert i.s != n && u[i.s].name == STATE_VOLUME;
  }

  lemma ExecShort(u: Vols, a: Act, b: Act)
    ensures Exec(u, []) == u && Exec(u, [a]) == Do(u, a) && Exec(u, [a, b]) == Do(Do(u, a), b)
  {
    assert [a][..0] == [] && [a, b][..1] == [a];
  }

  /** The last two acts, wherever the run is cut. */
  lemma SwapStands(i: Start, u: Vols, n: Id, deletes: bool, renames: bool, k: nat)
    requires OldStands(i, u) && n in u && u[n].name == STATE_NEW && k <= |Swap(i.s, n, deletes, renames)|
    ensures Stands(i, Exec(u, Swap(i.s, n, deletes, renames)[..k]))
    ensures deletes && renames && k == 2 ==> Finished(i, Exec(u, Swap(i.s, n, deletes, renames)))
  {
    var swap := Swap(i.s, n, deletes, renames);
    OldDeleted(i, u, n);
    RenameRefused(i, u, n);
    ExecShort(u, Delete(i.s), Rename(n, STATE_VOLUME));
    ExecShort(u, Rename(n, STATE_VOLUME), Rename(n, STATE_VOLUME));
    if k == 0 {
      assert swap[..k] == [];
    } else if k == 2 {
      assert swap[..k] == swap == [Delete(i.s), Rename(n, STATE_VOLUME)];
    } else {
      assert swap[..k] == [swap[0]];
    }
  }

  /** Once the fresh copy is laid, it is there under its temporary name. */
  lemma FreshIsLaid(i: Start, v: Vols, order: seq<Id>, l: Luck)
    requires OldStands(i, v) && Fresh(v, l) && Ordered(v, order) && l.laysState
    ensures
        var n, u := l.ids(|Relays(v, Deleted(order, l))|), Exec(v, Before(v, i.s, order, l));
      n in u && u[n].name == STATE_NEW
  {
    StateIsRelayed(i, v);
    BeforeIsTame(i, v, order, l);
    var gone := Deleted(order, l);
    var relays := Relays(v, gone);
    var n := l.ids(|relays|);
    var head := Saving(v, i.s) + Deletes(gone) + Lays(v, relays, l, Declared(v, i.s));
    var tail := [Clone(n, STATE_NEW, i.g), Mark(n)];
    assert Before(v, i.s, order, l) == head + tail;
    forall a <- head
      ensures Tame(i, a)
    {
      assert a in head + tail;
    }
    assert Saved(i, v) || (head != [] ==> head[0].Save?) by {
      assert head != [] ==> (head + tail)[0] == head[0];
    }
    TameRun(i, v, head);
    ExecConcat(v, head, tail);
    var h := Exec(v, head);
    assert tail[..1] == [Clone(n, STATE_NEW, i.g)] && Exec(h, []) == h;
    assert Exec(h, tail[..1]) == Do(h, tail[0]);
  }

  lemma CutBeforeTheSwap(i: Start, v: Vols, order: seq<Id>, l: Luck, k: nat)
    requires OldStands(i, v) && Fresh(v, l) && Ordered(v, order) && k <= |Before(v, i.s, order, l)|
    ensures OldStands(i, Exec(v, Before(v, i.s, order, l)[..k]))
  {
    var b := Before(v, i.s, order, l);
    BeforeIsTame(i, v, order, l);
    assert forall x <- b[..k] :: x in b;
    TameRun(i, v, b[..k]);
  }

  lemma CutInTheSwap(i: Start, v: Vols, order: seq<Id>, l: Luck, k: nat)
    requires OldStands(i, v) && Fresh(v, l) && Ordered(v, order) && k <= |After(v, i.s, order, l)|
    ensures Stands(i, Exec(Exec(v, Before(v, i.s, order, l)), After(v, i.s, order, l)[..k]))
    ensures k == |After(v, i.s, order, l)| && l.laysState && l.deletesState && l.renames ==>
      Finished(i, Exec(Exec(v, Before(v, i.s, order, l)), After(v, i.s, order, l)))
  {
    var b, a := Before(v, i.s, order, l), After(v, i.s, order, l);
    StateIsRelayed(i, v);
    CutBeforeTheSwap(i, v, order, l, |b|);
    assert b[..|b|] == b;
    if l.laysState {
      FreshIsLaid(i, v, order, l);
      var n := l.ids(|Relays(v, Deleted(order, l))|);
      assert a == Swap(i.s, n, l.deletesState, l.renames);
      SwapStands(i, Exec(v, b), n, l.deletesState, l.renames, k);
    } else {
      assert a == [];
    }
  }

  /** A run cut after any act leaves the state standing; uncut and with nothing failing it leaves
      one state volume with no ticket. */
  lemma RunStands(i: Start, v: Vols, order: seq<Id>, l: Luck, k: nat)
    requires OldStands(i, v) && Fresh(v, l) && Runs(v, l) && Ordered(v, order) && k <= |RunOf(v, order, l)|
    ensures Stands(i, Exec(v, RunOf(v, order, l)[..k]))
    ensures k == |RunOf(v, order, l)| && l.laysState && l.deletesState && l.renames ==>
      Finished(i, Exec(v, RunOf(v, order, l)))
  {
    StateIsRelayed(i, v);
    var b, a := Before(v, i.s, order, l), After(v, i.s, order, l);
    TwoParts(b, a, k);
    if k < |b| {
      CutBeforeTheSwap(i, v, order, l, k);
    } else {
      ExecConcat(v, b, a[..k - |b|]);
      CutInTheSwap(i, v, order, l, k - |b|);
    }
  }

  lemma TwoParts(b: seq<Act>, a: seq<Act>, k: nat)
    requires k <= |b + a|
    ensures if k < |b| then (b + a)[..k] == b[..k] else (b + a)[..k] == b + a[..k - |b|]
    ensures k == |b + a| ==> a[..k - |b|] == a && (b + a)[..k] == b + a
  {
  }

  /** One boot from where the last one was cut, itself cut after any act. */
  lemma BootStands(i: Start, v: Vols, order: seq<Id>, l: Luck, k: nat)
    requires Stands(i, v) && Fresh(v, l) && Orders(v, order, l) && k <= |Script(v, order, l)|
    ensures Stands(i, Exec(v, Script(v, order, l)[..k]))
    ensures k == |Script(v, order, l)| && l.saves && l.laysState && l.deletesState && l.renames ==>
      Finished(i, Exec(v, Script(v, order, l)))
  {
    var script := Script(v, order, l);
    assert Exec(v, []) == v && script[..|script|] == script;
    if OldStands(i, v) {
      StateIsRelayed(i, v);
      assert Finish(v, l) == [] && script == RunOf(v, order, l);
      if Runs(v, l) {
        RunStands(i, v, order, l, k);
      }
    } else if NewWaits(i, v) {
      var w := Exec(v, Finish(v, l));
      FinishFinishes(i, v, l);
      if l.renames {
        var n := Named(v, STATE_NEW).value;
        assert script[..k] == [] || script[..k] == script;
      }
    } else {
      assert PendingTicket(v).None?;
      assert script == [];
    }
  }

  lemma FinishFinishes(i: Start, v: Vols, l: Luck)
    requires NewWaits(i, v)
    ensures
      var w := Exec(v, Finish(v, l));
      !Runs(w, l) && |Finish(v, l)| == (if l.renames then 1 else 0) && if l.renames then Finished(i, w) else w == v
  {
    var w := Exec(v, Finish(v, l));
    assert Exec(v, []) == v;
    if l.renames {
      var n := Named(v, STATE_NEW).value;
      assert !Taken(v, n, STATE_VOLUME);
      assert [Rename(n, STATE_VOLUME)][..0] == [];
      assert w == v[n := v[n].(name := STATE_VOLUME)];
      assert w[n].name == STATE_VOLUME && !Ticketed(w[n]);
      assert forall id <- w :: w[id].name == STATE_VOLUME ==> id == n;
    }
  }

  datatype Boot = Boot(order: seq<Id>, luck: Luck, cut: nat)

  ghost predicate Bootable(v: Vols, b: Boot) {
    Fresh(v, b.luck) && Orders(v, b.order, b.luck) && b.cut <= |Script(v, b.order, b.luck)|
  }

  /** What is on disk after some boots, each cut where it says. */
  ghost function Boots(v: Vols, bs: seq<Boot>): Vols
    requires AllBootable(v, bs)
    decreases |bs|, 1
  {
    if bs == [] then v else
    var b, u := bs[|bs| - 1], Boots(v, bs[..|bs| - 1]);
    Exec(u, Script(u, b.order, b.luck)[..b.cut])
  }

  ghost predicate AllBootable(v: Vols, bs: seq<Boot>)
    decreases |bs|, 0
  {
    bs == [] || (AllBootable(v, bs[..|bs| - 1]) && Bootable(Boots(v, bs[..|bs| - 1]), bs[|bs| - 1]))
  }

  /** However many boots are cut, and wherever: the engine's state is there under one of its two
      names, and as long as the old volume is, its ticket is pending with the declaration that
      was first read. */
  lemma {:induction false} TheStateIsNeverLost(i: Start, v: Vols, bs: seq<Boot>)
    requires OldStands(i, v) && AllBootable(v, bs)
    ensures
      var u := Boots(v, bs);
      && Stands(i, u)
      && (exists id <- u :: u[id].name == STATE_VOLUME || u[id].name == STATE_NEW)
      && (i.s in u ==> u[i.s].name == STATE_VOLUME && Ticketed(u[i.s]) && Declared(u, i.s) == i.files)
  {
    if bs != [] {
      var b, w := bs[|bs| - 1], Boots(v, bs[..|bs| - 1]);
      TheStateIsNeverLost(i, v, bs[..|bs| - 1]);
      BootStands(i, w, b.order, b.luck, b.cut);
    }
    var u := Boots(v, bs);
    if OldStands(i, u) {
      assert u[i.s].name == STATE_VOLUME;
    } else if NewWaits(i, u) {
      assert u[Named(u, STATE_NEW).value].name == STATE_NEW;
    }
  }

  /** And whatever was cut, one boot that is not, with nothing failing, ends the release: one
      state volume, no ticket. */
  lemma OneWholeBootFinishes(i: Start, v: Vols, bs: seq<Boot>, order: seq<Id>, ids: nat -> Id)
    requires OldStands(i, v) && AllBootable(v, bs)
    requires Fresh(Boots(v, bs), Lucky(ids)) && Orders(Boots(v, bs), order, Lucky(ids))
    ensures Finished(i, Exec(Boots(v, bs), Script(Boots(v, bs), order, Lucky(ids))))
  {
    TheStateIsNeverLost(i, v, bs);
    var u := Boots(v, bs);
    BootStands(i, u, order, Lucky(ids), |Script(u, order, Lucky(ids))|);
  }

  // ---------------------------------------------------------------- what a run keeps and lays

  /** The machine record, or a golden of the release that was not laid under the temporary name. */
  ghost predicate StaysPut(v: Vols, id: Id)
    requires id in v
  {
    || v[id].name == "system-data"
    || (v[id].sealed && v[id].origin == Release && v[id].name != "stormblock-state.release-new")
  }

  /** A volume of the release, not sealed, cloned from a golden of the release that is there. */
  ghost predicate ClonedFrom(v: Vols, id: Id, g: Id)
    requires id in v
  {
    && v[id].origin == Release && !v[id].sealed
    && v[id].name != "system-data" && v[id].name != "stormblock-state.release-new"
    && v[id].parent == Some(g) && g in v && v[g].sealed && v[g].origin == Release
  }

  /** What is planned for a volume. */
  lemma PlannedIs(v: Vols, id: Id)
    requires id in v
    ensures ActionOf(v, id).Keep? <==> StaysPut(v, id)
    ensures forall g :: ActionOf(v, id) == Relay(g) <==> ClonedFrom(v, id, g)
  {
    assert STATE_NEW != SYSTEM_DATA by {
      assert |STATE_NEW| != |SYSTEM_DATA|;
    }
  }

  predicate Spares(id: Id, a: Act) {
    a.id != id
  }

  lemma {:induction false} SparedRun(v: Vols, acts: seq<Act>, id: Id)
    requires id in v && forall a <- acts :: Spares(id, a)
    ensures id in Exec(v, acts) && Exec(v, acts)[id] == v[id]
  {
    if acts != [] {
      SparedRun(v, acts[..|acts| - 1], id);
      assert acts[|acts| - 1] in acts;
    }
  }

  lemma {:induction false} LaysSpare(v: Vols, relays: seq<Id>, l: Luck, d: Files, id: Id)
    requires id in v && Fresh(v, l) && forall r <- relays :: r in v && ActionOf(v, r).Relay?
    ensures forall a <- Lays(v, relays, l, d) :: Spares(id, a)
  {
    if relays != [] {
      LaysSpare(v, relays[..|relays| - 1], l, d, id);
    }
  }

  lemma RunSpares(v: Vols, order: seq<Id>, l: Luck, id: Id)
    requires Fresh(v, l) && Runs(v, l) && Ordered(v, order)
    requires id in v && ActionOf(v, id).Keep? && PendingTicket(v) != Some(id)
    ensures forall a <- RunOf(v, order, l) :: Spares(id, a)
  {
    var s := PendingTicket(v).value;
    var gone := Deleted(order, l);
    var relays := Relays(v, gone);
    LaysSpare(v, relays, l, Declared(v, s), id);
    assert forall a <- Saving(v, s) :: Spares(id, a);
    assert forall a <- Deletes(gone) :: Spares(id, a);
    assert forall a <- StateSafe(v, s, l.ids(|relays|), l) :: Spares(id, a);
    assert forall a <- StateSwap(v, s, l.ids(|relays|), l) :: Spares(id, a);
  }

  /** A volume planned kept is untouched wherever the run is cut, and so is every golden a volume
      is laid from; but one called `stormblock-state` is deleted, whatever was planned. */
  lemma KeptSurvivesUnlessItIsTheStateVolume(v: Vols, order: seq<Id>, ids: nat -> Id, id: Id)
    requires Fresh(v, Lucky(ids)) && Runs(v, Lucky(ids)) && Ordered(v, order)
    requires id in v && StaysPut(v, id)
    ensures id in Exec(v, RunOf(v, order, Lucky(ids))) <==> PendingTicket(v) != Some(id)
  {
    PlannedIs(v, id);
    var l := Lucky(ids);
    if PendingTicket(v) == Some(id) {
      var b := Before(v, id, order, l);
      assert After(v, id, order, l) == [Delete(id)];
      ExecConcat(v, b, [Delete(id)]);
      ExecShort(Exec(v, b), Delete(id), Delete(id));
    } else {
      RunSpares(v, order, l, id);
      SparedRun(v, RunOf(v, order, l), id);
    }
  }

  /** A state volume that was sealed as a release golden, its ticket pending and the declaration
      saved in it: planned kept, and deleted. Nothing is laid in its place. */
  const SealedState: Vols := map[3 := Vol(STATE_VOLUME, Release, true, None, Some(Ticket(true, Some(map[]))), map[])]

  lemma SealedStatePlan()
    ensures ActionOf(SealedState, 3) == Keep && PendingTicket(SealedState) == Some(3)
    ensures Ordered(SealedState, []) && Saving(SealedState, 3) == []
  {
    var v := SealedState;
    assert v.Keys == {3} && v[3].name == STATE_VOLUME;
    assert |STATE_VOLUME| == 16 && |STATE_NEW| == 28 && |SYSTEM_DATA| == 11;
    assert 3 in WithName(v, STATE_VOLUME);
    assert Named(v, STATE_VOLUME) == Some(3);
  }

  lemma ASealedStateVolumeIsLost(ids: nat -> Id)
    requires Fresh(SealedState, Lucky(ids))
    ensures ActionOf(SealedState, 3) == Keep && PendingTicket(SealedState) == Some(3)
    ensures Runs(SealedState, Lucky(ids)) && Ordered(SealedState, [])
    ensures Exec(SealedState, RunOf(SealedState, [], Lucky(ids))) == map[]
  {
    SealedStatePlan();
    KeptStateIsDeleted(SealedState, 3, Lucky(ids));
    ExecShort(SealedState, Delete(3), Delete(3));
    assert SealedState - {3} == map[];
  }

  lemma KeptStateIsDeleted(v: Vols, s: Id, l: Luck)
    requires PendingTicket(v) == Some(s) && Runs(v, l) && Ordered(v, []) && Saving(v, s) == []
    requires ActionOf(v, s).Keep? && l.deletesState
    ensures RunOf(v, [], l) == [Delete(s)]
  {
    assert Before(v, s, [], l) == [] && After(v, s, [], l) == [Delete(s)];
  }

  lemma KeptSurvivesEveryCut(v: Vols, order: seq<Id>, l: Luck, k: nat, id: Id)
    requires Fresh(v, l) && Runs(v, l) && Ordered(v, order) && k <= |RunOf(v, order, l)|
    requires id in v && StaysPut(v, id) && PendingTicket(v) != Some(id)
    ensures id in Exec(v, RunOf(v, order, l)[..k]) && Exec(v, RunOf(v, order, l)[..k])[id] == v[id]
  {
    PlannedIs(v, id);
    RunSpares(v, order, l, id);
    assert forall a <- RunOf(v, order, l)[..k] :: a in RunOf(v, order, l);
    SparedRun(v, RunOf(v, order, l)[..k], id);
  }

  /** However many boots are cut, and wherever, the machine record and the release's goldens are
      there as they were. */
  lemma {:induction false} KeptThroughEveryBoot(v: Vols, bs: seq<Boot>, id: Id)
    requires AllBootable(v, bs) && id in v && StaysPut(v, id) && v[id].name != "stormblock-state"
    ensures id in Boots(v, bs) && Boots(v, bs)[id] == v[id]
  {
    if bs != [] {
      var b, u := bs[|bs| - 1], Boots(v, bs[..|bs| - 1]);
      KeptThroughEveryBoot(v, bs[..|bs| - 1], id);
      KeptThroughOneBoot(u, b.order, b.luck, b.cut, id);
    }
  }

  lemma KeptThroughOneBoot(v: Vols, order: seq<Id>, l: Luck, k: nat, id: Id)
    requires Fresh(v, l) && Orders(v, order, l) && k <= |Script(v, order, l)|
    requires id in v && StaysPut(v, id) && v[id].name != "stormblock-state"
    ensures id in Exec(v, Script(v, order, l)[..k]) && Exec(v, Script(v, order, l)[..k])[id] == v[id]
  {
    assert |STATE_NEW| != |SYSTEM_DATA|;
    var w := Exec(v, Finish(v, l));
    assert forall a <- Finish(v, l) :: Spares(id, a);
    SparedRun(v, Finish(v, l), id);
    if Runs(w, l) {
      FinishKeepsFresh(v, l);
      PlannedIs(w, id);
      RunSpares(w, order, l, id);
    }
    var script := Script(v, order, l);
    assert forall a <- script[..k] :: a in script && Spares(id, a);
    SparedRun(v, script[..k], id);
  }

  lemma FinishKeepsFresh(v: Vols, l: Luck)
    requires Fresh(v, l)
    ensures Fresh(Exec(v, Finish(v, l)), l)
  {
    assert Exec(v, []) == v;
    var n := Named(v, STATE_NEW);
    if Finish(v, l) != [] {
      ExecShort(v, Rename(n.value, STATE_VOLUME), Rename(n.value, STATE_VOLUME));
    }
  }

  /** With no state volume whose ticket is pending, a boot deletes and lays nothing. */
  lemma NothingWithoutATicket(v: Vols, order: seq<Id>, l: Luck)
    requires forall id <- v :: v[id].name == "stormblock-state" ==>
      v[id].ticket.None? || !v[id].ticket.value.pending
    requires Runs(v, l) ==> Ordered(v, order)
    ensures RunOf(v, order, l) == []
  {
  }

  ghost function Without(v: Vols, ids: seq<Id>): Vols {
    map id: Id | id in v && id !in ids :: v[id]
  }

  lemma {:induction false} ExecDeletes(v: Vols, ids: seq<Id>)
    ensures Exec(v, Deletes(ids)) == Without(v, ids)
  {
    if ids != [] {
      var rest := ids[..|ids| - 1];
      ExecDeletes(v, rest);
      assert Deletes(ids)[..|ids| - 1] == Deletes(rest);
      assert ids == rest + [ids[|ids| - 1]];
    }
  }

  lemma {:induction false} DeletedAre(order: seq<Id>, l: Luck)
    ensures forall id :: id in Deleted(order, l) <==> id in order && l.deletes(id)
  {
    if order != [] {
      DeletedAre(order[..|order| - 1], l);
      assert order == order[..|order| - 1] + [order[|order| - 1]];
    }
  }

  /** Each volume to lay again is listed once. */
  lemma {:induction false} RelaysOnce(v: Vols, gone: seq<Id>)
    requires (forall id <- gone :: id in v) && forall i, j :: 0 <= i < j < |gone| ==> gone[i] != gone[j]
    ensures forall i, j :: 0 <= i < j < |Relays(v, gone)| ==> Relays(v, gone)[i] != Relays(v, gone)[j]
    ensures forall id <- gone :: ActionOf(v, id).Relay? ==> id in Relays(v, gone)
  {
    if gone != [] {
      var rest, id := gone[..|gone| - 1], gone[|gone| - 1];
      RelaysOnce(v, rest);
      assert gone == rest + [id];
      assert id !in rest;
      assert forall x <- Relays(v, rest) :: x in rest;
    }
  }

  /** A volume laid again: a clone of its golden, the release's, under its name; the node's state
      volume with the declaration in it. */
  ghost function Laid(v: Vols, r: Id, d: Files): Vol
    requires r in v && ActionOf(v, r).Relay?
  {
    var g := ActionOf(v, r).from;
    var files := if v[r].name == NODE_STATE_VOLUME && d != map[] then v[g].files + d else v[g].files;
    Vol(v[r].name, Release, false, Some(g), v[g].ticket, files)
  }

  lemma LayOneLays(v: Vols, x: Vols, r: Id, n: Id, l: Luck, d: Files)
    requires r in v && ActionOf(v, r).Relay? && n !in x
    requires ActionOf(v, r).from in x ==> x[ActionOf(v, r).from] == v[ActionOf(v, r).from]
    ensures Exec(x, LayOne(v, r, n, l, d)) ==
      if ActionOf(v, r).from in x then x[n := Laid(v, r, if l.carries then d else map[])] else x
  {
    var g := ActionOf(v, r).from;
    var a, b := Clone(n, v[r].name, g), Mark(n);
    ExecShort(x, a, b);
    var two := Exec(x, [a, b]);
    if LayOne(v, r, n, l, d) != [a, b] {
      ExecConcat(x, [a, b], [Carry(n, d)]);
      ExecShort(two, Carry(n, d), Carry(n, d));
    }
  }

  /** A volume to lay again is laid: its laying succeeds and its golden is there. */
  ghost predicate IsLaid(v: Vols, x: Vols, r: Id, lays: bool)
    requires r in v && ActionOf(v, r).Relay?
  {
    lays && ActionOf(v, r).from in x
  }

  ghost predicate IsClone(v: Vols, x: Vols, relays: seq<Id>, l: Luck, id: Id)
    requires forall r <- relays :: r in v && ActionOf(v, r).Relay?
  {
    exists k :: 0 <= k < |relays| && IsLaid(v, x, relays[k], l.lays(k)) && id == l.ids(k)
  }

  ghost predicate LaidOut(v: Vols, x: Vols, y: Vols, relays: seq<Id>, l: Luck, d: Files)
    requires forall r <- relays :: r in v && ActionOf(v, r).Relay?
  {
    && (forall id :: id in y <==> id in x || IsClone(v, x, relays, l, id))
    && (forall id <- x :: id in y && y[id] == x[id])
    && (forall k :: 0 <= k < |relays| && IsLaid(v, x, relays[k], l.lays(k)) ==>
          l.ids(k) in y && y[l.ids(k)] == Laid(v, relays[k], d))
  }

  ghost function Carried(l: Luck, d: Files): Files {
    if l.carries then d else map[]
  }

  lemma {:induction false} ExecLays(v: Vols, x: Vols, relays: seq<Id>, l: Luck, d: Files)
    requires Fresh(v, l) && Fresh(x, l) && forall r <- relays ::
      r in v && ActionOf(v, r).Relay? && (ActionOf(v, r).from in x ==> x[ActionOf(v, r).from] == v[ActionOf(v, r).from])
    ensures LaidOut(v, x, Exec(x, Lays(v, relays, l, d)), relays, l, Carried(l, d))
  {
    if relays != [] {
      var k := |relays| - 1;
      var r, rest := relays[k], relays[..k];
      ExecLays(v, x, rest, l, d);
      var y := Exec(x, Lays(v, rest, l, d));
      assert l.ids(k) !in x && forall j :: 0 <= j < k ==> l.ids(j) != l.ids(k);
      assert ActionOf(v, r).from in y <==> ActionOf(v, r).from in x;
      if l.lays(k) {
        ExecConcat(x, Lays(v, rest, l, d), LayOne(v, r, l.ids(k), l, d));
        LayOneLays(v, y, r, l.ids(k), l, d);
      } else {
        assert Lays(v, rest, l, d) + [] == Lays(v, rest, l, d);
      }
      OneMoreLaid(v, x, y, relays, l, Carried(l, d));
    }
  }

  lemma OneMoreLaid(v: Vols, x: Vols, y: Vols, relays: seq<Id>, l: Luck, d: Files)
    requires relays != [] && forall r <- relays :: r in v && ActionOf(v, r).Relay?
    requires LaidOut(v, x, y, relays[..|relays| - 1], l, d) && Fresh(x, l)
    ensures
      var k := |relays| - 1;
      var z := if IsLaid(v, x, relays[k], l.lays(k)) then y[l.ids(k) := Laid(v, relays[k], d)] else y;
      LaidOut(v, x, z, relays, l, d)
  {
    var k, rest := |relays| - 1, relays[..|relays| - 1];
    var z := if IsLaid(v, x, relays[k], l.lays(k)) then y[l.ids(k) := Laid(v, relays[k], d)] else y;
    assert forall j :: 0 <= j < k ==> rest[j] == relays[j];
    forall id
      ensures id in z <==> id in x || IsClone(v, x, relays, l, id)
    {
      if id in y && id !in x {
        var j :| 0 <= j < |rest| && IsLaid(v, x, rest[j], l.lays(j)) && id == l.ids(j);
        assert 0 <= j < |relays| && IsLaid(v, x, relays[j], l.lays(j));
      }
      if j :| 0 <= j < |relays| && IsLaid(v, x, relays[j], l.lays(j)) && id == l.ids(j) {
        assert j < k ==> IsLaid(v, x, rest[j], l.lays(j));
      }
    }
    forall j | 0 <= j < |relays| && IsLaid(v, x, relays[j], l.lays(j))
      ensures l.ids(j) in z && z[l.ids(j)] == Laid(v, relays[j], d)
    {
      assert j < k ==> IsLaid(v, x, rest[j], l.lays(j)) && l.ids(j) in y && l.ids(j) != l.ids(k);
    }
  }

  /** No release golden has the temporary name. */
  ghost predicate NamedRight(v: Vols) {
    forall id <- v :: KeptGolden(v, id) ==> v[id].name != STATE_NEW
  }

  /** A volume other than the state volume that a run leaves: kept, or not deleted though it was to be. */
  ghost predicate Left(i: Start, v: Vols, l: Luck, id: Id) {
    id in v && id != i.s && (ActionOf(v, id).Keep? || !l.deletes(id))
  }

  /** The fresh state volume, under the name the end of the run leaves it. */
  ghost function NewState(i: Start, v: Vols, l: Luck): Vol
    requires i.g in v
  {
    Vol(if l.deletesState && l.renames then STATE_VOLUME else STATE_NEW, Release, false, Some(i.g), v[i.g].ticket,
      v[i.g].files)
  }

  /** Volumes as they were, the old state volume aside. */
  ghost predicate Remains(i: Start, v: Vols, x: Vols, l: Luck) {
    && (forall id :: id in x <==> id == i.s || Left(i, v, l, id))
    && (forall id <- x :: id != i.s ==> x[id] == v[id])
    && OldStands(i, x) && Saved(i, x) && i.s in v && x[i.s] == v[i.s].(ticket := x[i.s].ticket)
  }

  /** What a whole run leaves: what it did not delete as it was, one fresh clone of the same golden
      for each volume laid again, and the state volume, old or fresh. Nothing else. */
  ghost predicate Leaves(i: Start, v: Vols, w: Vols, relays: seq<Id>, l: Luck)
    requires forall r <- relays :: r in v && ActionOf(v, r).Relay?
    requires i.g in v && i.s in v
  {
    var n := l.ids(|relays|);
    && (forall id :: id in w <==>
          || Left(i, v, l, id)
          || IsClone(v, w, relays, l, id)
          || (id == i.s && !(l.laysState && l.deletesState))
          || (id == n && l.laysState))
    && (forall id :: Left(i, v, l, id) ==> id in w && w[id] == v[id])
    && (forall k :: 0 <= k < |relays| && IsLaid(v, w, relays[k], l.lays(k)) ==>
          l.ids(k) in w && w[l.ids(k)] == Laid(v, relays[k], Carried(l, i.files)))
    && (i.s in w ==> w[i.s] == v[i.s].(ticket := Some(Ticket(true, Some(i.files)))))
    && (l.laysState ==> n in w && w[n] == NewState(i, v, l))
  }

  /** What is left once the volumes that go are gone. */
  lemma AfterTheDeletes(i: Start, v: Vols, order: seq<Id>, l: Luck)
    requires OldStands(i, v) && Ordered(v, order)
    ensures Remains(i, v, Exec(v, Saving(v, i.s) + Deletes(Deleted(order, l))), l)
  {
    var gone := Deleted(order, l);
    var w := Exec(v, Saving(v, i.s));
    ExecShort(v, Save(i.s, i.files), Save(i.s, i.files));
    ExecConcat(v, Saving(v, i.s), Deletes(gone));
    ExecDeletes(w, gone);
    StateIsRelayed(i, v);
    GoldenIsKept(v, i.g);
    DeletedAre(order, l);
    var x := Exec(w, Deletes(gone));
    assert x == Without(w, gone);
    forall id <- v
      ensures id in x <==> id == i.s || Left(i, v, l, id)
    {
      assert id in order <==> Goes(v, id);
    }
    assert x[i.s] == w[i.s] && i.g in x;
  }

  /** The relays are the volumes planned so and deleted, each once. */
  lemma RelaysAreAll(i: Start, v: Vols, order: seq<Id>, l: Luck)
    requires OldStands(i, v) && Ordered(v, order)
    ensures
      var relays := Relays(v, Deleted(order, l));
      && (forall a, b :: 0 <= a < b < |relays| ==> relays[a] != relays[b])
      && (forall id <- v :: id in relays <==> id != i.s && ActionOf(v, id).Relay? && l.deletes(id))
  {
    DeletedOnce(v, order, l);
    DeletedAre(order, l);
    DeletedDistinct(order, l);
    RelaysOnce(v, Deleted(order, l));
    forall id <- v
      ensures id in Relays(v, Deleted(order, l)) <==> id != i.s && ActionOf(v, id).Relay? && l.deletes(id)
    {
      assert id in order <==> Goes(v, id);
    }
  }

  /** The acts of an uncut run. */
  lemma WholeRunIs(i: Start, v: Vols, order: seq<Id>, l: Luck)
    requires OldStands(i, v) && Ordered(v, order) && Runs(v, l)
    ensures
      var gone := Deleted(order, l);
      var relays := Relays(v, gone);
      RunOf(v, order, l) == (Saving(v, i.s) + Deletes(gone)) + Lays(v, relays, l, i.files) +
        Last(i, l.ids(|relays|), l)
  {
    StateIsRelayed(i, v);
    var gone := Deleted(order, l);
    var relays := Relays(v, gone);
    var n := l.ids(|relays|);
    Regroup(Saving(v, i.s) + Deletes(gone) + Lays(v, relays, l, i.files), StateSafe(v, i.s, n, l),
      StateSwap(v, i.s, n, l));
    assert StateSafe(v, i.s, n, l) + StateSwap(v, i.s, n, l) == Last(i, n, l);
  }

  /** The acts on the state volume. */
  ghost function Last(i: Start, n: Id, l: Luck): seq<Act> {
    if !l.laysState then [] else
    [Clone(n, STATE_NEW, i.g), Mark(n)] + Swap(i.s, n, l.deletesState, l.renames)
  }

  lemma Regroup(a: seq<Act>, b: seq<Act>, c: seq<Act>)
    ensures (a + b) + c == a + (b + c)
  {
  }

  /** An uncut run, whatever fails in it. */
  lemma AWholeRunLeaves(i: Start, v: Vols, order: seq<Id>, l: Luck)
    requires OldStands(i, v) && Fresh(v, l) && Ordered(v, order) && Runs(v, l)
    ensures
      var relays := Relays(v, Deleted(order, l));
      && (forall a, b :: 0 <= a < b < |relays| ==> relays[a] != relays[b])
      && (forall id <- v :: id in relays <==> id != i.s && ActionOf(v, id).Relay? && l.deletes(id))
      && Leaves(i, v, Exec(v, RunOf(v, order, l)), relays, l)
  {
    RelaysAreAll(i, v, order, l);
    WholeRunIs(i, v, order, l);
    AfterTheDeletes(i, v, order, l);
    AfterTheLays(i, v, Relays(v, Deleted(order, l)), l, Saving(v, i.s) + Deletes(Deleted(order, l)));
  }

  lemma AfterTheLays(i: Start, v: Vols, relays: seq<Id>, l: Luck, head: seq<Act>)
    requires OldStands(i, v) && Fresh(v, l) && Remains(i, v, Exec(v, head), l)
    requires forall r <- relays :: r in v && Goes(v, r) && ActionOf(v, r).Relay?
    ensures Leaves(i, v, Exec(v, (head + Lays(v, relays, l, i.files)) + Last(i, l.ids(|relays|), l)), relays, l)
  {
    var x, lays := Exec(v, head), Lays(v, relays, l, i.files);
    GoldensUntouched(i, v, x, relays, l);
    ExecLays(v, x, relays, l, i.files);
    ExecConcat(v, head, lays);
    LastActsLeave(i, v, x, Exec(x, lays), relays, l);
    ExecConcat(v, head + lays, Last(i, l.ids(|relays|), l));
  }

  lemma GoldensUntouched(i: Start, v: Vols, x: Vols, relays: seq<Id>, l: Luck)
    requires OldStands(i, v) && Fresh(v, l) && Remains(i, v, x, l)
    requires forall r <- relays :: r in v && ActionOf(v, r).Relay?
    ensures Fresh(x, l)
    ensures forall r <- relays :: ActionOf(v, r).from in x ==> x[ActionOf(v, r).from] == v[ActionOf(v, r).from]
  {
    forall id <- x
      ensures id in v
    {
    }
    forall r <- relays
      ensures ActionOf(v, r).from != i.s
    {
      assert KeptGolden(v, ActionOf(v, r).from);
    }
  }

  lemma LastActsLeave(i: Start, v: Vols, x: Vols, y: Vols, relays: seq<Id>, l: Luck)
    requires OldStands(i, v) && Fresh(v, l) && Remains(i, v, x, l)
    requires forall r <- relays :: r in v && Goes(v, r) && ActionOf(v, r).Relay?
    requires LaidOut(v, x, y, relays, l, Carried(l, i.files))
    ensures Leaves(i, v, Exec(y, Last(i, l.ids(|relays|), l)), relays, l)
  {
    var n := l.ids(|relays|);
    var w := Exec(y, Last(i, n, l));
    StateIsRelayed(i, v);
    GoldenIsKept(v, i.g);
    OneStateVolume(i, v, x, y, relays, l);
    LastActsAre(i, y, n, l);
    SourcesStay(i, v, x, y, w, relays, l);
    TogetherTheyLeave(i, v, x, y, w, relays, l);
  }

  lemma OneStateVolume(i: Start, v: Vols, x: Vols, y: Vols, relays: seq<Id>, l: Luck)
    requires OldStands(i, v) && Fresh(v, l) && Remains(i, v, x, l)
    requires forall r <- relays :: r in v && Goes(v, r) && ActionOf(v, r).Relay?
    requires LaidOut(v, x, y, relays, l, Carried(l, i.files))
    ensures l.ids(|relays|) !in y && forall id <- y :: id != i.s ==> y[id].name != STATE_VOLUME
  {
    forall id <- y
      ensures id != l.ids(|relays|) && (id != i.s ==> y[id].name != STATE_VOLUME)
    {
      if id !in x {
        var k :| 0 <= k < |relays| && IsLaid(v, x, relays[k], l.lays(k)) && id == l.ids(k);
        assert y[id] == Laid(v, relays[k], Carried(l, i.files)) && Goes(v, relays[k]);
      } else {
        assert id in v;
      }
    }
  }

  /** What the last acts do to what was laid. */
  ghost predicate Swapped(i: Start, y: Vols, w: Vols, n: Id, l: Luck)
    requires i.g in y
  {
    if !l.laysState then w == y else
    && (forall id :: id in w <==> (id in y && !(l.deletesState && id == i.s)) || id == n)
    && w[n] == NewState(i, y, l) && forall id <- w :: id != n ==> w[id] == y[id]
  }

  lemma TogetherTheyLeave(i: Start, v: Vols, x: Vols, y: Vols, w: Vols, relays: seq<Id>, l: Luck)
    requires OldStands(i, v) && Fresh(v, l) && Remains(i, v, x, l)
    requires (forall r <- relays :: r in v && ActionOf(v, r).Relay?) && LaidOut(v, x, y, relays, l, Carried(l, i.files))
    requires forall k :: 0 <= k < |relays| ==>
      (IsLaid(v, w, relays[k], l.lays(k)) <==> IsLaid(v, x, relays[k], l.lays(k)))
    requires i.g in y && y[i.g] == v[i.g] && Swapped(i, y, w, l.ids(|relays|), l)
    ensures Leaves(i, v, w, relays, l)
  {
    SameClones(v, x, w, relays, l);
    ClonesStay(i, v, x, y, w, relays, l);
    OthersStay(i, v, x, y, w, relays, l);
  }

  lemma OthersStay(i: Start, v: Vols, x: Vols, y: Vols, w: Vols, relays: seq<Id>, l: Luck)
    requires OldStands(i, v) && Fresh(v, l) && Remains(i, v, x, l)
    requires (forall r <- relays :: r in v && ActionOf(v, r).Relay?) && LaidOut(v, x, y, relays, l, Carried(l, i.files))
    requires i.g in y && y[i.g] == v[i.g] && Swapped(i, y, w, l.ids(|relays|), l)
    ensures l.ids(|relays|) !in v && forall id :: Left(i, v, l, id) ==> id in w && w[id] == v[id]
    ensures i.s in y && (i.s in w ==> w[i.s] == v[i.s].(ticket := Some(Ticket(true, Some(i.files)))))
    ensures l.laysState ==> NewState(i, y, l) == NewState(i, v, l)
  {
    var n := l.ids(|relays|);
    assert x[i.s].ticket == Some(Ticket(true, Some(i.files)));
    assert i.s in x && i.s in y && y[i.s] == x[i.s] && n !in v && n != i.s;
    forall id | Left(i, v, l, id)
      ensures id in w && w[id] == v[id]
    {
      assert id in x && id in y && y[id] == v[id] && id != n;
    }
  }

  lemma ClonesStay(i: Start, v: Vols, x: Vols, y: Vols, w: Vols, relays: seq<Id>, l: Luck)
    requires i.s in v && i.g in y && Fresh(v, l) && forall r <- relays :: r in v && ActionOf(v, r).Relay?
    requires LaidOut(v, x, y, relays, l, Carried(l, i.files)) && Swapped(i, y, w, l.ids(|relays|), l)
    requires forall k :: 0 <= k < |relays| ==>
      (IsLaid(v, w, relays[k], l.lays(k)) <==> IsLaid(v, x, relays[k], l.lays(k)))
    ensures forall k :: 0 <= k < |relays| && IsLaid(v, w, relays[k], l.lays(k)) ==>
      l.ids(k) in w && w[l.ids(k)] == Laid(v, relays[k], Carried(l, i.files))
  {
    forall k | 0 <= k < |relays| && IsLaid(v, w, relays[k], l.lays(k))
      ensures l.ids(k) in w && w[l.ids(k)] == Laid(v, relays[k], Carried(l, i.files))
    {
      assert l.ids(k) in y && l.ids(k) != i.s && l.ids(k) != l.ids(|relays|);
    }
  }

  lemma SameClones(v: Vols, x: Vols, w: Vols, relays: seq<Id>, l: Luck)
    requires forall r <- relays :: r in v && ActionOf(v, r).Relay?
    requires forall k :: 0 <= k < |relays| ==>
      (IsLaid(v, w, relays[k], l.lays(k)) <==> IsLaid(v, x, relays[k], l.lays(k)))
    ensures forall id :: IsClone(v, w, relays, l, id) <==> IsClone(v, x, relays, l, id)
  {
  }

  /** The goldens that were there to lay from are there in the end. */
  lemma SourcesStay(i: Start, v: Vols, x: Vols, y: Vols, w: Vols, relays: seq<Id>, l: Luck)
    requires OldStands(i, v) && Fresh(v, l) && Remains(i, v, x, l)
    requires forall r <- relays :: r in v && Goes(v, r) && ActionOf(v, r).Relay?
    requires LaidOut(v, x, y, relays, l, Carried(l, i.files))
    requires forall id :: id != i.s && id != l.ids(|relays|) ==> (id in w <==> id in y)
    ensures forall k :: 0 <= k < |relays| ==>
      (IsLaid(v, w, relays[k], l.lays(k)) <==> IsLaid(v, x, relays[k], l.lays(k)))
  {
    StateIsRelayed(i, v);
    forall k | 0 <= k < |relays|
      ensures IsLaid(v, w, relays[k], l.lays(k)) <==> IsLaid(v, x, relays[k], l.lays(k))
    {
      var g := ActionOf(v, relays[k]).from;
      assert KeptGolden(v, g) && g != i.s && g in v;
      assert forall j: nat :: l.ids(j) != g;
      assert g in w <==> g in y;
    }
  }

  lemma LastActsAre(i: Start, y: Vols, n: Id, l: Luck)
    requires n !in y && i.g in y && y[i.g].sealed && i.s in y && i.g != i.s && y[i.s].name == STATE_VOLUME
    requires forall id <- y :: id != i.s ==> y[id].name != STATE_VOLUME
    ensures Swapped(i, y, Exec(y, Last(i, n, l)), n, l)
  {
    if l.laysState {
      var a, b := Clone(n, STATE_NEW, i.g), Mark(n);
      var x := y[n := Vol(STATE_NEW, Release, false, Some(i.g), y[i.g].ticket, y[i.g].files)];
      ExecShort(y, a, b);
      assert Exec(y, [a, b]) == x;
      ExecConcat(y, [a, b], Swap(i.s, n, l.deletesState, l.renames));
      assert forall id <- x :: id != n && id != i.s ==> x[id] == y[id];
      SwapIs(x, i.s, n, l.deletesState, l.renames);
    }
  }

  /** The swap from the two state volumes: the new one has the name exactly when the old one is
      gone and the rename succeeds. */
  lemma SwapIs(x: Vols, s: Id, n: Id, deletes: bool, renames: bool)
    requires s in x && n in x && s != n && x[s].name == STATE_VOLUME && x[n].name == STATE_NEW
    requires forall id <- x :: id != s && id != n ==> x[id].name != STATE_VOLUME
    ensures
      var w := Exec(x, Swap(s, n, deletes, renames));
      && w.Keys == x.Keys - (if deletes then {s} else {})
      && w[n] == x[n].(name := if deletes && renames then STATE_VOLUME else STATE_NEW)
      && forall id <- w :: id != n ==> w[id] == x[id]
  {
    ExecShort(x, Delete(s), Rename(n, STATE_VOLUME));
    ExecShort(x, Rename(n, STATE_VOLUME), Rename(n, STATE_VOLUME));
    assert |STATE_NEW| != |STATE_VOLUME|;
    if deletes && renames {
      assert Swap(s, n, true, true) == [Delete(s), Rename(n, STATE_VOLUME)];
      assert !Taken(x - {s}, n, STATE_VOLUME);
    } else if renames {
      assert Swap(s, n, false, true) == [Rename(n, STATE_VOLUME)];
      assert Taken(x, n, STATE_VOLUME);
    } else if deletes {
      assert Swap(s, n, true, false) == [Delete(s)];
    }
  }

  // ---- in the release's own terms

  /** The files given back to the node's state volume: those saved in the ticket, or else, when it
      has none, those of the node's state volume, the first of that name. */
  ghost predicate IsDeclaration(v: Vols, s: Id, d: Files)
    requires s in v && v[s].ticket.Some?
  {
    match v[s].ticket.value.declaration
    case Some(saved) => d == saved
    case None =>
      if forall id <- v :: v[id].name != "stormcos-state" then d == map[] else
      exists id <- v :: v[id].name == "stormcos-state" && d == v[id].files &&
        forall o <- v :: v[o].name == "stormcos-state" ==> id <= o
  }

  lemma DeclaredIs(v: Vols, s: Id)
    requires s in v && v[s].ticket.Some?
    ensures IsDeclaration(v, s, Declared(v, s))
  {
    if v[s].ticket.value.declaration.None? {
      var id := Named(v, NODE_STATE_VOLUME);
      if id.Some? {
        assert forall o <- v :: v[o].name == "stormcos-state" ==> o in WithName(v, NODE_STATE_VOLUME);
      }
    }
  }

  /** A fresh clone of its golden in a volume's place. */
  ghost predicate Again(v: Vols, w: Vols, id: Id, n: Id, carried: Files)
    requires id in v && v[id].parent.Some? && v[id].parent.value in v
  {
    var g := v[id].parent.value;
    n !in v && n in w && w[n] == Vol(v[id].name, Release, false, Some(g), v[g].ticket,
      if v[id].name == "stormcos-state" then v[g].files + carried else v[g].files)
  }

  /** The clone laid for each volume that was. */
  ghost function LaidMap(v: Vols, w: Vols, relays: seq<Id>, l: Luck): map<Id, Id>
    requires forall r <- relays :: r in v && ActionOf(v, r).Relay?
  {
    if relays == [] then map[] else
    var k := |relays| - 1;
    var m := LaidMap(v, w, relays[..k], l);
    if IsLaid(v, w, relays[k], l.lays(k)) then m[relays[k] := l.ids(k)] else m
  }

  ghost predicate LaidAt(v: Vols, w: Vols, relays: seq<Id>, l: Luck, id: Id, n: Id, k: nat)
    requires forall r <- relays :: r in v && ActionOf(v, r).Relay?
  {
    k < |relays| && relays[k] == id && IsLaid(v, w, id, l.lays(k)) && n == l.ids(k)
  }

  ghost predicate Maps(v: Vols, w: Vols, relays: seq<Id>, l: Luck, m: map<Id, Id>)
    requires forall r <- relays :: r in v && ActionOf(v, r).Relay?
  {
    && (forall id :: id in m ==> exists k: nat :: LaidAt(v, w, relays, l, id, m[id], k))
    && (forall k :: 0 <= k < |relays| && IsLaid(v, w, relays[k], l.lays(k)) ==>
          relays[k] in m && m[relays[k]] == l.ids(k))
  }

  lemma {:induction false} LaidMapIs(v: Vols, w: Vols, relays: seq<Id>, l: Luck)
    requires forall r <- relays :: r in v && ActionOf(v, r).Relay?
    requires forall a, b :: 0 <= a < b < |relays| ==> relays[a] != relays[b]
    ensures Maps(v, w, relays, l, LaidMap(v, w, relays, l))
  {
    if relays != [] {
      LaidMapIs(v, w, relays[..|relays| - 1], l);
      OneMoreMapped(v, w, relays, l, LaidMap(v, w, relays[..|relays| - 1], l));
    }
  }

  lemma OneMoreMapped(v: Vols, w: Vols, relays: seq<Id>, l: Luck, was: map<Id, Id>)
    requires relays != [] && forall r <- relays :: r in v && ActionOf(v, r).Relay?
    requires forall a, b :: 0 <= a < b < |relays| ==> relays[a] != relays[b]
    requires Maps(v, w, relays[..|relays| - 1], l, was)
    ensures
      var k := |relays| - 1;
      Maps(v, w, relays, l, if IsLaid(v, w, relays[k], l.lays(k)) then was[relays[k] := l.ids(k)] else was)
  {
    var k, rest := |relays| - 1, relays[..|relays| - 1];
    var m := if IsLaid(v, w, relays[k], l.lays(k)) then was[relays[k] := l.ids(k)] else was;
    forall id | id in m
      ensures exists j: nat :: LaidAt(v, w, relays, l, id, m[id], j)
    {
      if id == relays[k] && IsLaid(v, w, id, l.lays(k)) {
        assert LaidAt(v, w, relays, l, id, m[id], k);
      } else {
        var j: nat :| LaidAt(v, w, rest, l, id, was[id], j);
        assert LaidAt(v, w, relays, l, id, m[id], j);
      }
    }
    forall j | 0 <= j < |relays| && IsLaid(v, w, relays[j], l.lays(j))
      ensures relays[j] in m && m[relays[j]] == l.ids(j)
    {
      assert j < k ==> rest[j] == relays[j] && relays[j] != relays[k];
    }
  }

  /** Of what was there, the old state volume aside, exactly the machine record, the release's
      goldens not under the temporary name, and what could not be deleted, as they were. */
  ghost predicate KeepsOnly(i: Start, v: Vols, w: Vols, l: Luck) {
    forall id <- v :: id != i.s ==> (id in w <==> StaysPut(v, id) || !l.deletes(id)) && (id in w ==> w[id] == v[id])
  }

  /** A volume of the release that was deleted, whose golden is still there. */
  ghost predicate Missing(i: Start, v: Vols, w: Vols, l: Luck, id: Id) {
    && id in v && id != i.s && l.deletes(id)
    && v[id].parent.Some? && ClonedFrom(v, id, v[id].parent.value) && v[id].parent.value in w
  }

  /** Each of those is laid again, once, unless its laying failed. */
  ghost predicate LaysAgain(i: Start, v: Vols, w: Vols, l: Luck, laid: map<Id, Id>) {
    && (forall id <- laid :: Missing(i, v, w, l, id) && Again(v, w, id, laid[id], if l.carries then i.files else map[]))
    && (forall a <- laid, b <- laid :: laid[a] == laid[b] ==> a == b)
    && ((forall k: nat :: l.lays(k)) ==> forall id :: Missing(i, v, w, l, id) ==> id in laid)
  }

  /** The state volume: the old one with its ticket until a fresh one is laid and it is deleted. */
  ghost predicate SwapsState(i: Start, v: Vols, w: Vols, l: Luck, n: Id)
    requires i.s in v && i.g in v
  {
    && (i.s in w <==> !(l.laysState && l.deletesState))
    && (i.s in w ==> w[i.s] == v[i.s].(ticket := Some(Ticket(true, Some(i.files)))))
    && n !in v && (n in w <==> l.laysState)
    && (n in w ==> w[n].name == if l.deletesState && l.renames then "stormblock-state"
                                else "stormblock-state.release-new")
    && (n in w ==> w[n] == Vol(w[n].name, Release, false, Some(i.g), v[i.g].ticket, v[i.g].files))
  }

  /** What an uncut run leaves, whatever fails in it: what it keeps, each volume of the release
      laid again from its golden, the node's state volume with the declaration in it, and the state
      volume. There is nothing else. */
  lemma WhatAReleaseLeaves(i: Start, v: Vols, order: seq<Id>, l: Luck) returns (laid: map<Id, Id>, n: Id)
    requires OldStands(i, v) && Fresh(v, l) && Ordered(v, order) && Runs(v, l)
    ensures
      var w := Exec(v, RunOf(v, order, l));
      && IsDeclaration(v, i.s, i.files)
      && KeepsOnly(i, v, w, l) && LaysAgain(i, v, w, l, laid) && SwapsState(i, v, w, l, n)
      && (forall id <- w :: id in v || id == n || exists r <- laid :: id == laid[r])
  {
    var relays, w := Relays(v, Deleted(order, l)), Exec(v, RunOf(v, order, l));
    AWholeRunLeaves(i, v, order, l);
    DeclaredIs(v, i.s);
    StateIsRelayed(i, v);
    n := l.ids(|relays|);
    laid := LaidMap(v, w, relays, l);
    LaidMapIs(v, w, relays, l);
    KeptAre(i, v, w, relays, l);
    LaidAre(i, v, w, relays, l, laid);
    NothingElse(i, v, w, relays, l, laid);
  }

  lemma NothingElse(i: Start, v: Vols, w: Vols, relays: seq<Id>, l: Luck, laid: map<Id, Id>)
    requires i.s in v && i.g in v && Fresh(v, l) && forall r <- relays :: r in v && ActionOf(v, r).Relay?
    requires Leaves(i, v, w, relays, l) && Maps(v, w, relays, l, laid)
    ensures SwapsState(i, v, w, l, l.ids(|relays|))
    ensures forall id <- w :: id in v || id == l.ids(|relays|) || exists r <- laid :: id == laid[r]
  {
    var n := l.ids(|relays|);
    assert forall k :: 0 <= k < |relays| ==> l.ids(k) != n && l.ids(k) != i.s;
    forall id <- w
      ensures id in v || id == n || exists r <- laid :: id == laid[r]
    {
      if id !in v && id != n {
        var k :| 0 <= k < |relays| && IsLaid(v, w, relays[k], l.lays(k)) && id == l.ids(k);
        assert relays[k] in laid;
      }
    }
  }

  lemma KeptAre(i: Start, v: Vols, w: Vols, relays: seq<Id>, l: Luck)
    requires (forall r <- relays :: r in v && ActionOf(v, r).Relay?) && i.g in v && i.s in v && Fresh(v, l)
    requires Leaves(i, v, w, relays, l)
    ensures KeepsOnly(i, v, w, l)
  {
    forall id <- v | id != i.s
      ensures id in w <==> Left(i, v, l, id)
      ensures ActionOf(v, id).Keep? <==> StaysPut(v, id)
    {
      PlannedIs(v, id);
      assert forall k: nat :: l.ids(k) != id;
    }
  }

  lemma LaidAre(i: Start, v: Vols, w: Vols, relays: seq<Id>, l: Luck, laid: map<Id, Id>)
    requires OldStands(i, v) && Fresh(v, l) && forall r <- relays :: r in v && ActionOf(v, r).Relay?
    requires forall id <- v :: id in relays <==> id != i.s && ActionOf(v, id).Relay? && l.deletes(id)
    requires Leaves(i, v, w, relays, l) && Maps(v, w, relays, l, laid)
    ensures LaysAgain(i, v, w, l, laid)
  {
    forall id | id in laid
      ensures Missing(i, v, w, l, id) && Again(v, w, id, laid[id], if l.carries then i.files else map[])
    {
      LaidIsAgain(i, v, w, relays, l, laid, id);
    }
    forall a, b | a in laid && b in laid && laid[a] == laid[b]
      ensures a == b
    {
      var j: nat :| LaidAt(v, w, relays, l, a, laid[a], j);
      var k: nat :| LaidAt(v, w, relays, l, b, laid[b], k);
    }
    forall id | Missing(i, v, w, l, id) && forall k: nat :: l.lays(k)
      ensures id in laid
    {
      PlannedIs(v, id);
      var k :| 0 <= k < |relays| && relays[k] == id;
    }
  }

  lemma LaidIsAgain(i: Start, v: Vols, w: Vols, relays: seq<Id>, l: Luck, laid: map<Id, Id>, id: Id)
    requires Fresh(v, l) && i.s in v && i.g in v && forall r <- relays :: r in v && ActionOf(v, r).Relay?
    requires forall x <- v :: x in relays <==> x != i.s && ActionOf(v, x).Relay? && l.deletes(x)
    requires Leaves(i, v, w, relays, l) && Maps(v, w, relays, l, laid) && id in laid
    ensures Missing(i, v, w, l, id) && Again(v, w, id, laid[id], if l.carries then i.files else map[])
  {
    var k: nat :| LaidAt(v, w, relays, l, id, laid[id], k);
    var d := Carried(l, i.files);
    assert id in v && ActionOf(v, id).Relay? && w[l.ids(k)] == Laid(v, id, d) && ActionOf(v, id).from in w;
    LaidVol(v, id, d);
  }

  lemma LaidVol(v: Vols, id: Id, d: Files)
    requires id in v && ActionOf(v, id).Relay?
    ensures
      var g := ActionOf(v, id).from;
      && v[id].parent == Some(g) && ClonedFrom(v, id, g)
      && Laid(v, id, d) == Vol(v[id].name, Release, false, Some(g), v[g].ticket,
        if v[id].name == "stormcos-state" then v[g].files + d else v[g].files)
  {
    PlannedIs(v, id);
    var files := v[ActionOf(v, id).from].files;
    assert files + map[] == files;
  }

  // ---------------------------------------------------------------- what a cut loses

  ghost predicate NamesDiffer(v: Vols) {
    forall a <- v, b <- v :: v[a].name == v[b].name ==> a == b
  }

  ghost predicate CloneOf(v: Vols, r: Id, x: Vol)
    requires r in v && ActionOf(v, r).Relay?
  {
    x.name == v[r].name && !x.sealed && x.parent == Some(ActionOf(v, r).from)
  }

  ghost predicate TracedOne(v: Vols, relays: seq<Id>, l: Luck, x: Id, y: Vol)
    requires forall r <- relays :: r in v && ActionOf(v, r).Relay?
  {
    || (x in v && y == v[x].(ticket := y.ticket))
    || (exists j :: 0 <= j < |relays| && x == l.ids(j) && CloneOf(v, relays[j], y))
    || (x == l.ids(|relays|) && y.name == STATE_NEW && !y.sealed)
  }

  /** Everything there is what it was, but for the ticket, or a clone the run made. */
  ghost predicate Traced(i: Start, v: Vols, relays: seq<Id>, l: Luck, u: Vols)
    requires forall r <- relays :: r in v && ActionOf(v, r).Relay?
  {
    forall x <- u :: TracedOne(v, relays, l, x, u[x])
  }

  ghost predicate Listed(i: Start, v: Vols, relays: seq<Id>, l: Luck, a: Act)
    requires forall r <- relays :: r in v && ActionOf(v, r).Relay?
  {
    match a
    case Save(_, _) => true
    case Delete(_) => true
    case Clone(id, name, from) =>
      || (exists j ::
        0 <= j < |relays| && id == l.ids(j) && name == v[relays[j]].name && from == ActionOf(v, relays[j]).from)
      || (id == l.ids(|relays|) && name == STATE_NEW)
    case Mark(id) => id !in v
    case Carry(id, _) => id !in v
    case Rename(_, _) => false
  }

  lemma ListedTraces(i: Start, v: Vols, relays: seq<Id>, l: Luck, u: Vols, a: Act)
    requires Fresh(v, l) && forall r <- relays :: r in v && ActionOf(v, r).Relay?
    requires Traced(i, v, relays, l, u) && Listed(i, v, relays, l, a)
    ensures Traced(i, v, relays, l, Do(u, a))
  {
    var w := Do(u, a);
    forall x <- w
      ensures TracedOne(v, relays, l, x, w[x])
    {
      if x in u && w[x] == u[x] {
      } else if a.Clone? {
        if !(x == l.ids(|relays|) && a.name == STATE_NEW) {
          var j :| 0 <= j < |relays| && x == l.ids(j) && a.name == v[relays[j]].name &&
            a.from == ActionOf(v, relays[j]).from;
          assert CloneOf(v, relays[j], w[x]);
        }
      } else if !a.Save? {
        assert TracedOne(v, relays, l, x, u[x]);
        if !(x == l.ids(|relays|) && u[x].name == STATE_NEW) {
          var j :| 0 <= j < |relays| && x == l.ids(j) && CloneOf(v, relays[j], u[x]);
          assert CloneOf(v, relays[j], w[x]);
        }
      } else {
        TicketAside(v, relays, l, x, u[x], w[x]);
      }
    }
  }

  lemma TicketAside(v: Vols, relays: seq<Id>, l: Luck, x: Id, a: Vol, b: Vol)
    requires forall r <- relays :: r in v && ActionOf(v, r).Relay?
    requires TracedOne(v, relays, l, x, a) && b == a.(ticket := b.ticket)
    ensures TracedOne(v, relays, l, x, b)
  {
    if !(x in v && a == v[x].(ticket := a.ticket)) && !(x == l.ids(|relays|) && a.name == STATE_NEW) {
      var j :| 0 <= j < |relays| && x == l.ids(j) && CloneOf(v, relays[j], a);
      assert CloneOf(v, relays[j], b);
    }
  }

  lemma {:induction false} RunTraced(i: Start, v: Vols, relays: seq<Id>, l: Luck, acts: seq<Act>)
    requires Fresh(v, l) && forall r <- relays :: r in v && ActionOf(v, r).Relay?
    requires forall a <- acts :: Listed(i, v, relays, l, a)
    ensures Traced(i, v, relays, l, Exec(v, acts))
  {
    if acts != [] {
      RunTraced(i, v, relays, l, acts[..|acts| - 1]);
      ListedTraces(i, v, relays, l, Exec(v, acts[..|acts| - 1]), acts[|acts| - 1]);
    }
  }

  lemma {:induction false} LaysListed(i: Start, v: Vols, relays: seq<Id>, l: Luck, d: Files, k: nat)
    requires Fresh(v, l) && k <= |relays| && forall r <- relays :: r in v && ActionOf(v, r).Relay?
    ensures forall a <- Lays(v, relays[..k], l, d) :: Listed(i, v, relays, l, a)
  {
    if k > 0 {
      LaysListed(i, v, relays, l, d, k - 1);
      assert relays[..k][..k - 1] == relays[..k - 1];
      assert 0 <= k - 1 < |relays|;
    }
  }

  lemma BeforeListed(i: Start, v: Vols, order: seq<Id>, l: Luck)
    requires OldStands(i, v) && Fresh(v, l) && Ordered(v, order)
    ensures forall a <- Before(v, i.s, order, l) :: Listed(i, v, Relays(v, Deleted(order, l)), l, a)
  {
    var relays := Relays(v, Deleted(order, l));
    StateIsRelayed(i, v);
    LaysListed(i, v, relays, l, Declared(v, i.s), |relays|);
    assert relays[..|relays|] == relays;
    assert forall a <- Saving(v, i.s) :: Listed(i, v, relays, l, a);
    assert forall a <- Deletes(Deleted(order, l)) :: Listed(i, v, relays, l, a);
    assert forall a <- StateSafe(v, i.s, l.ids(|relays|), l) :: Listed(i, v, relays, l, a);
  }

  lemma BeforeTraced(i: Start, v: Vols, order: seq<Id>, l: Luck, k: nat)
    requires OldStands(i, v) && Fresh(v, l) && Ordered(v, order) && k <= |Before(v, i.s, order, l)|
    ensures Traced(i, v, Relays(v, Deleted(order, l)), l, Exec(v, Before(v, i.s, order, l)[..k]))
  {
    BeforeListed(i, v, order, l);
    var b := Before(v, i.s, order, l);
    assert forall a <- b[..k] :: a in b;
    RunTraced(i, v, Relays(v, Deleted(order, l)), l, b[..k]);
  }

  /** The list of what to lay again is not on disk. A volume of the release that was to be laid
      again is so by the run after a cut exactly when the cut left it there, or left its clone
      there already marked the release's: a volume deleted and not yet laid is lost, and so is
      one whose clone was not yet marked. */
  lemma WhatACutLoses(i: Start, v: Vols, order: seq<Id>, l: Luck, k: nat, j: nat)
    requires OldStands(i, v) && Fresh(v, l) && Ordered(v, order) && Runs(v, l) && NamedRight(v) && NamesDiffer(v)
    requires k <= |Before(v, i.s, order, l)| && j < |Relays(v, Deleted(order, l))|
    ensures
      var r, u := Relays(v, Deleted(order, l))[j], Exec(v, Before(v, i.s, order, l)[..k]);
      (exists x <- u :: u[x].name == v[r].name && ActionOf(u, x).Relay?) <==>
        r in u || (l.ids(j) in u && u[l.ids(j)].origin.Release?)
  {
    var relays := Relays(v, Deleted(order, l));
    var r, u := relays[j], Exec(v, Before(v, i.s, order, l)[..k]);
    CutFacts(i, v, order, l, k, r);
    DeletedOnce(v, order, l);
    ClonesByName(i, v, relays, l, u, j);
    StillRelayed(i, v, relays, l, u, r);
  }

  /** Where a cut leaves the volumes to lay again and their goldens. */
  lemma CutFacts(i: Start, v: Vols, order: seq<Id>, l: Luck, k: nat, r: Id)
    requires OldStands(i, v) && Fresh(v, l) && Ordered(v, order) && Runs(v, l) && NamedRight(v)
    requires k <= |Before(v, i.s, order, l)| && r in Relays(v, Deleted(order, l))
    ensures
      var relays, u := Relays(v, Deleted(order, l)), Exec(v, Before(v, i.s, order, l)[..k]);
      Traced(i, v, relays, l, u) && KeptGolden(u, ActionOf(v, r).from) && forall x <- relays :: Goes(v, x)
  {
    var g := ActionOf(v, r).from;
    BeforeTraced(i, v, order, l, k);
    StateIsRelayed(i, v);
    RelaySourceIsKeptIff(v, r);
    PlannedIs(v, g);
    assert RunOf(v, order, l)[..k] == Before(v, i.s, order, l)[..k];
    KeptSurvivesEveryCut(v, order, l, k, g);
    assert forall x <- Relays(v, Deleted(order, l)) :: x in order;
  }

  lemma StillRelayed(i: Start, v: Vols, relays: seq<Id>, l: Luck, u: Vols, r: Id)
    requires Fresh(v, l) && (forall x <- relays :: x in v && ActionOf(v, x).Relay?) && Traced(i, v, relays, l, u)
    requires r in v && ActionOf(v, r).Relay? && KeptGolden(u, ActionOf(v, r).from)
    ensures r in u ==> u[r].name == v[r].name && ActionOf(u, r).Relay?
  {
    if r in u {
      assert TracedOne(v, relays, l, r, u[r]);
      assert l.ids(|relays|) != r && forall m :: 0 <= m < |relays| ==> l.ids(m) != r;
    }
  }

  lemma DeletedOnce(v: Vols, order: seq<Id>, l: Luck)
    requires Ordered(v, order)
    ensures forall a, b :: 0 <= a < b < |Relays(v, Deleted(order, l))| ==>
      Relays(v, Deleted(order, l))[a] != Relays(v, Deleted(order, l))[b]
  {
    DeletedDistinct(order, l);
    RelaysOnce(v, Deleted(order, l));
  }

  lemma {:induction false} DeletedDistinct(order: seq<Id>, l: Luck)
    requires forall i, j :: 0 <= i < j < |order| ==> order[i] != order[j]
    ensures forall i, j :: 0 <= i < j < |Deleted(order, l)| ==> Deleted(order, l)[i] != Deleted(order, l)[j]
  {
    if order != [] {
      DeletedDistinct(order[..|order| - 1], l);
      assert order[|order| - 1] !in order[..|order| - 1];
    }
  }

  /** Which volumes with a relayed volume's name there can be. */
  lemma ClonesByName(i: Start, v: Vols, relays: seq<Id>, l: Luck, u: Vols, j: nat)
    requires Fresh(v, l) && NamesDiffer(v) && j < |relays|
    requires forall r <- relays :: r in v && Goes(v, r) && ActionOf(v, r).Relay?
    requires forall a, b :: 0 <= a < b < |relays| ==> relays[a] != relays[b]
    requires Traced(i, v, relays, l, u) && KeptGolden(u, ActionOf(v, relays[j]).from)
    ensures forall x <- u :: u[x].name == v[relays[j]].name ==> x == relays[j] || x == l.ids(j)
    ensures l.ids(j) in u ==>
      u[l.ids(j)].name == v[relays[j]].name && (ActionOf(u, l.ids(j)).Relay? <==> u[l.ids(j)].origin.Release?)
  {
    forall x <- u | u[x].name == v[relays[j]].name
      ensures x == relays[j] || x == l.ids(j)
    {
      assert TracedOne(v, relays, l, x, u[x]);
      if x !in v {
        assert v[relays[j]].name != STATE_NEW;
        var m :| 0 <= m < |relays| && x == l.ids(m) && CloneOf(v, relays[m], u[x]);
        assert relays[m] == relays[j];
      }
    }
    var n := l.ids(j);
    if n in u {
      assert TracedOne(v, relays, l, n, u[n]) && n !in v && n != l.ids(|relays|);
      var m :| 0 <= m < |relays| && n == l.ids(m) && CloneOf(v, relays[m], u[n]);
      assert m == j;
    }
  }

  lemma TracedNamedRight(i: Start, v: Vols, relays: seq<Id>, l: Luck, u: Vols)
    requires (forall x <- relays :: x in v && ActionOf(v, x).Relay?) && Traced(i, v, relays, l, u) && NamedRight(v)
    ensures NamedRight(u)
  {
    forall x <- u | KeptGolden(u, x)
      ensures u[x].name != STATE_NEW
    {
      assert TracedOne(v, relays, l, x, u[x]);
    }
  }

  /** And what the next run does not lay again is gone from the node once that run is through. */
  lemma WhatIsLostStaysLost(i: Start, v: Vols, order: seq<Id>, l: Luck, k: nat, u: Vols, j: nat, next: seq<Id>,
        ids: nat -> Id)
    requires OldStands(i, v) && Fresh(v, l) && Ordered(v, order) && Runs(v, l) && NamedRight(v) && NamesDiffer(v)
    requires k <= |Before(v, i.s, order, l)| && j < |Relays(v, Deleted(order, l))|
    requires u == Exec(v, Before(v, i.s, order, l)[..k]) && Fresh(u, Lucky(ids)) && Ordered(u, next)
    ensures Runs(u, Lucky(ids))
    ensures
      var r, w := Relays(v, Deleted(order, l))[j], Exec(u, RunOf(u, next, Lucky(ids)));
      (exists x <- w :: w[x].name == v[r].name) ==> r in u || (l.ids(j) in u && u[l.ids(j)].origin.Release?)
  {
    var relays := Relays(v, Deleted(order, l));
    AtTheCut(i, v, order, l, k, u, j);
    LostAfterTheNextRun(i, v, relays, l, u, j, next, ids);
  }

  lemma LostAfterTheNextRun(i: Start, v: Vols, relays: seq<Id>, l: Luck, u: Vols, j: nat, next: seq<Id>, ids: nat -> Id)
    requires Fresh(v, l) && NamedRight(v) && NamesDiffer(v) && j < |relays|
    requires forall x <- relays :: x in v && Goes(v, x) && ActionOf(v, x).Relay?
    requires forall a, b :: 0 <= a < b < |relays| ==> relays[a] != relays[b]
    requires OldStands(i, u) && Fresh(u, Lucky(ids)) && Ordered(u, next)
    requires Traced(i, v, relays, l, u) && KeptGolden(u, ActionOf(v, relays[j]).from)
    ensures Runs(u, Lucky(ids))
    ensures
      var w := Exec(u, RunOf(u, next, Lucky(ids)));
      (exists x <- w :: w[x].name == v[relays[j]].name) ==>
        relays[j] in u || (l.ids(j) in u && u[l.ids(j)].origin.Release?)
  {
    NextRunLeaves(i, v, relays, l, u, next, ids);
    LostForGood(i, v, relays, l, u, j, Exec(u, RunOf(u, next, Lucky(ids))),
      Relays(u, Deleted(next, Lucky(ids))), ids);
  }

  lemma AtTheCut(i: Start, v: Vols, order: seq<Id>, l: Luck, k: nat, u: Vols, j: nat)
    requires OldStands(i, v) && Fresh(v, l) && Ordered(v, order) && Runs(v, l) && NamedRight(v)
    requires k <= |Before(v, i.s, order, l)| && j < |Relays(v, Deleted(order, l))|
    requires u == Exec(v, Before(v, i.s, order, l)[..k])
    ensures
      var relays := Relays(v, Deleted(order, l));
      && OldStands(i, u) && Traced(i, v, relays, l, u) && KeptGolden(u, ActionOf(v, relays[j]).from)
      && (forall x <- relays :: Goes(v, x)) && forall a, b :: 0 <= a < b < |relays| ==> relays[a] != relays[b]
  {
    CutFacts(i, v, order, l, k, Relays(v, Deleted(order, l))[j]);
    DeletedOnce(v, order, l);
    CutBeforeTheSwap(i, v, order, l, k);
  }

  lemma LostForGood(i: Start, v: Vols, relays: seq<Id>, l: Luck, u: Vols, j: nat, w: Vols, again: seq<Id>,
        ids: nat -> Id)
    requires Fresh(v, l) && NamesDiffer(v) && j < |relays|
    requires forall x <- relays :: x in v && Goes(v, x) && ActionOf(v, x).Relay?
    requires forall a, b :: 0 <= a < b < |relays| ==> relays[a] != relays[b]
    requires Traced(i, v, relays, l, u) && KeptGolden(u, ActionOf(v, relays[j]).from)
    requires (forall y <- again :: y in u && ActionOf(u, y).Relay?) && i.g in u && i.s in u &&
      Leaves(i, u, w, again, Lucky(ids))
    ensures (exists x <- w :: w[x].name == v[relays[j]].name) ==>
      relays[j] in u || (l.ids(j) in u && u[l.ids(j)].origin.Release?)
  {
    if !(relays[j] in u || (l.ids(j) in u && u[l.ids(j)].origin.Release?)) {
      ClonesByName(i, v, relays, l, u, j);
      NoneByThatName(i, v, relays, l, u, relays[j], w, again, ids);
    }
  }

  lemma NextRunLeaves(i: Start, v: Vols, relays: seq<Id>, l: Luck, u: Vols, next: seq<Id>, ids: nat -> Id)
    requires OldStands(i, u) && Fresh(u, Lucky(ids)) && Ordered(u, next) && NamedRight(v)
    requires (forall y <- relays :: y in v && ActionOf(v, y).Relay?) && Traced(i, v, relays, l, u)
    ensures Runs(u, Lucky(ids)) && i.s in u &&
      Leaves(i, u, Exec(u, RunOf(u, next, Lucky(ids))), Relays(u, Deleted(next, Lucky(ids))), Lucky(ids))
  {
    StateIsRelayed(i, u);
    AWholeRunLeaves(i, u, next, Lucky(ids));
  }

  lemma NoneByThatName(i: Start, v: Vols, relays: seq<Id>, l: Luck, u: Vols, r: Id, w: Vols, again: seq<Id>,
        ids: nat -> Id)
    requires (forall y <- relays :: y in v && ActionOf(v, y).Relay?) && Traced(i, v, relays, l, u) && NamesDiffer(v)
    requires r in v && Goes(v, r) && ActionOf(v, r).Relay? && r !in u
    requires forall x <- u :: !(u[x].name == v[r].name && ActionOf(u, x).Relay?)
    requires (forall y <- again :: y in u && ActionOf(u, y).Relay?) && i.g in u && i.s in u &&
      Leaves(i, u, w, again, Lucky(ids))
    ensures forall x <- w :: w[x].name != v[r].name
  {
    if x :| x in w && w[x].name == v[r].name {
      NameIsRelayedOrKept(i, u, w, again, ids, x, v[r].name);
      if x in u && u[x].name == v[r].name {
        NotKeptByThatName(i, v, relays, l, u, r, x);
      }
    }
  }

  lemma NotKeptByThatName(i: Start, v: Vols, relays: seq<Id>, l: Luck, u: Vols, r: Id, x: Id)
    requires (forall y <- relays :: y in v && ActionOf(v, y).Relay?) && Traced(i, v, relays, l, u) && NamesDiffer(v)
    requires r in v && ActionOf(v, r).Relay? && x in u && u[x].name == v[r].name
    ensures !ActionOf(u, x).Keep?
  {
    assert TracedOne(v, relays, l, x, u[x]);
  }

  lemma NameIsRelayedOrKept(i: Start, u: Vols, w: Vols, relays: seq<Id>, ids: nat -> Id, x: Id, name: string)
    requires (forall r <- relays :: r in u && ActionOf(u, r).Relay?) && i.g in u && i.s in u &&
      Leaves(i, u, w, relays, Lucky(ids))
    requires x in w && w[x].name == name && name != STATE_VOLUME
    ensures (x in u && ActionOf(u, x).Keep? && u[x].name == name) ||
      exists y <- u :: u[y].name == name && ActionOf(u, y).Relay?
  {
    if !(x in u && ActionOf(u, x).Keep?) {
      var k :| 0 <= k < |relays| && IsLaid(u, w, relays[k], true) && x == ids(k);
      assert w[ids(k)] == Laid(u, relays[k], Carried(Lucky(ids), i.files));
      assert relays[k] in u && u[relays[k]].name == name;
    }
  }

  /** A node with one application volume to lay again. */
  const OneApp: Vols := map[
    0 := Vol("app-golden", Release, true, None, None, map[]),
    1 := Vol("app", Release, false, Some(0), None, map[]),
    2 := Vol("state-golden", Release, true, None, None, map[]),
    3 := Vol(STATE_VOLUME, Release, false, Some(2), Some(Ticket(true, Some(map[]))), map[])]

  lemma OneAppPlan()
    ensures OldStands(Start(3, 2, map[]), OneApp) && NamedRight(OneApp)
    ensures ActionOf(OneApp, 0).Keep? && ActionOf(OneApp, 1) == Relay(0) && ActionOf(OneApp, 2).Keep?
    ensures forall id :: Goes(OneApp, id) <==> id == 1
  {
    var v := OneApp;
    assert v.Keys == {0, 1, 2, 3};
    assert |v[0].name| == 10 && |v[1].name| == 3 && |v[2].name| == 12 && |v[3].name| == 16;
    assert |STATE_VOLUME| == 16 && |STATE_NEW| == 28 && |SYSTEM_DATA| == 11;
    assert forall id <- v :: v[id].name == STATE_VOLUME ==> |v[id].name| == 16;
    assert NoTicketInNew(v);
  }

  lemma OneAppRun(l: Luck)
    requires l.deletes(1)
    ensures Ordered(OneApp, [1]) && PendingTicket(OneApp) == Some(3) && Saving(OneApp, 3) == []
    ensures Deleted([1], l) == [1] && Relays(OneApp, [1]) == [1]
  {
    OneAppPlan();
    StateIsRelayed(Start(3, 2, map[]), OneApp);
    assert forall id :: id in [1] <==> id == 1;
    assert [1][..0] == [];
  }

  /** The delete is the run's first act: cut right after it, the volume is gone, and by
      `WhatIsLostStaysLost` the next run does not bring it back. */
  lemma ACutLosesAVolume(v: Vols, s: Id, order: seq<Id>, l: Luck)
    requires PendingTicket(v) == Some(s) && Runs(v, l) && Ordered(v, order) && Saving(v, s) == [] &&
      Deleted(order, l) != []
    requires NamesDiffer(v)
    ensures |RunOf(v, order, l)| >= 1
    ensures
      var r, u := Deleted(order, l)[0], Exec(v, RunOf(v, order, l)[..1]);
      r in v && u == v - {r} && forall x <- u :: u[x].name != v[r].name
  {
    var r := Deleted(order, l)[0];
    assert r in order && Before(v, s, order, l)[0] == Deletes(Deleted(order, l))[0];
    assert RunOf(v, order, l)[..1] == [Delete(r)];
    ExecShort(v, Delete(r), Delete(r));
  }

  lemma SuchARunIsPossible(l: Luck)
    requires l.deletes(1)
    ensures OldStands(Start(3, 2, map[]), OneApp) && NamedRight(OneApp) && NamesDiffer(OneApp) && Runs(OneApp, l)
    ensures Ordered(OneApp, [1]) && Saving(OneApp, 3) == [] && Deleted([1], l) == [1] && ActionOf(OneApp, 1) == Relay(0)
  {
    OneAppPlan();
    OneAppRun(l);
    assert |OneApp[0].name| == 10 && |OneApp[1].name| == 3 && |OneApp[2].name| == 12 && |OneApp[3].name| == 16;
  }

  // ---------------------------------------------------------------- the manager

  lemma {:induction false} DeepestExists(v: Vols, ids: set<Id>)
    requires ids != {}
    ensures exists m :: IsDeepest(v, ids, m)
    decreases |ids|
  {
    var x :| x in ids;
    if ids == {x} {
      assert IsDeepest(v, ids, x);
    } else {
      assert ids - {x} != {};
      DeepestExists(v, ids - {x});
      var m :| IsDeepest(v, ids - {x}, m);
      assert forall y <- ids :: y == x || y in ids - {x};
      assert IsDeepest(v, ids, if Depth(v, x) > Depth(v, m) then x else m);
    }
  }

  predicate IsDeepest(v: Vols, ids: set<Id>, m: Id) {
    m in ids && forall y <- ids :: Depth(v, y) <= Depth(v, m)
  }

  method FindNamed(v: Vols, name: string) returns (r: Option<Id>)
    ensures r == Named(v, name)
  {
    var ids := set id | id in v && v[id].name == name;
    if ids == {} {
      r := None;
      assert forall id <- v :: id !in WithName(v, name);
    } else {
      var m := FindLeast(ids);
      r := Some(m);
      assert ids == WithName(v, name);
    }
  }

  /** What goes, the deepest first. */
  method DeletionOrder(v: Vols) returns (order: seq<Id>)
    ensures Ordered(v, order)
  {
    order := [];
    var rest := set id | id in v && Goes(v, id);
    while rest != {}
      invariant forall id :: Goes(v, id) <==> id in order || id in rest
      invariant forall i :: 0 <= i < |order| ==>
        order[i] !in rest && forall id <- rest :: Depth(v, order[i]) >= Depth(v, id)
      invariant forall i, j :: 0 <= i < j < |order| ==> order[i] != order[j] && Depth(v, order[i]) >= Depth(v, order[j])
      decreases |rest|
    {
      DeepestExists(v, rest);
      var m :| m in rest && IsDeepest(v, rest, m);
      order := order + [m];
      rest := rest - {m};
    }
  }

  /** The saved declaration changes nothing a plan looks at. */
  lemma SavingKeepsThePlan(v: Vols, s: Id, files: Files, order: seq<Id>)
    requires Ordered(Do(v, Save(s, files)), order) && s in v
    ensures Ordered(v, order)
    ensures forall id <- v :: ActionOf(Do(v, Save(s, files)), id) == ActionOf(v, id)
  {
    var w := Do(v, Save(s, files));
    assert forall id <- v :: ActionOf(w, id) == ActionOf(v, id);
    forall id: Id
      ensures Depth(w, id) == Depth(v, id)
    {
      SameLineage(v, w, id, [id]);
    }
    assert forall id :: Goes(w, id) <==> Goes(v, id);
  }

  lemma {:induction false} SameLineage(v: Vols, w: Vols, cur: Id, sofar: seq<Id>)
    requires v.Keys == w.Keys && (forall id <- v :: v[id].parent == w[id].parent) && |sofar| <= 1026
    ensures Lineage(v, cur, sofar) == Lineage(w, cur, sofar)
    decreases 1026 - |sofar|
  {
    if cur in v && v[cur].parent.Some? && v[cur].parent.value !in sofar && |sofar| <= 1024 {
      SameLineage(v, w, v[cur].parent.value, sofar + [v[cur].parent.value]);
    }
  }

  lemma ExecOne(v: Vols, acts: seq<Act>, a: Act)
    ensures Exec(v, acts + [a]) == Do(Exec(v, acts), a)
  {
    assert (acts + [a])[..|acts|] == acts;
  }

  lemma DeletedMore(v: Vols, order: seq<Id>, l: Luck, i: nat, h: seq<Act>)
    requires i < |order| && forall id <- order :: id in v
    ensures
      var gone, id := Deleted(order[..i], l), order[i];
      if l.deletes(id) then
        && (h + Deletes(gone)) + [Delete(id)] == h + Deletes(Deleted(order[..i + 1], l))
        && Relays(v, Deleted(order[..i + 1], l)) == Relays(v, gone) + if ActionOf(v, id).Relay? then [id] else []
      else Deleted(order[..i + 1], l) == gone
  {
    assert order[..i + 1][..i] == order[..i];
    var gone, id := Deleted(order[..i], l), order[i];
    assert (gone + [id])[..|gone|] == gone;
    assert Deletes(gone + [id]) == Deletes(gone) + [Delete(id)];
  }

  lemma LaidMore(v: Vols, relays: seq<Id>, l: Luck, d: Files, i: nat, h: seq<Act>)
    requires i < |relays| && forall id <- relays :: id in v && ActionOf(v, id).Relay?
    ensures h + Lays(v, relays[..i + 1], l, d) ==
      (h + Lays(v, relays[..i], l, d)) + if l.lays(i) then LayOne(v, relays[i], l.ids(i), l, d) else []
  {
    assert relays[..i + 1][..i] == relays[..i];
  }

  /** The volume manager, and every change it has put on disk. */
  class Manager {
    var vols: Vols
    ghost var log: seq<Act>
    ghost const began: Vols

    ghost predicate Valid()
      reads this
    {
      vols == Exec(began, log)
    }

    constructor (vols: Vols)
      ensures Valid() && this.vols == began == vols && log == []
    {
      this.vols, began, log := vols, vols, [];
    }

    method Perform(a: Act)
      requires Valid()
      modifies this
      ensures Valid() && vols == Do(old(vols), a) && log == old(log) + [a]
    {
      ExecOne(began, log, a);
      log := log + [a];
      match a
      case Save(id, files) =>
        if id in vols && vols[id].ticket.Some? {
          vols := vols[id := vols[id].(ticket := Some(Ticket(vols[id].ticket.value.pending, Some(files))))];
        }
      case Delete(id) => vols := vols - {id};
      case Clone(id, name, from) =>
        if from in vols && vols[from].sealed {
          vols := vols[id := Vol(name, Node, false, Some(from), vols[from].ticket, vols[from].files)];
        }
      case Mark(id) =>
        if id in vols {
          vols := vols[id := vols[id].(origin := Release)];
        }
      case Carry(id, files) =>
        if id in vols {
          vols := vols[id := vols[id].(files := vols[id].files + files)];
        }
      case Rename(id, name) =>
        if id in vols && !Taken(vols, id, name) {
          vols := vols[id := vols[id].(name := name)];
        }
    }

    /** Delete what goes; what is to be laid again is remembered only here. */
    method DeleteAll(plan: Vols, order: seq<Id>, l: Luck) returns (relays: seq<Id>)
      requires Valid() && forall id <- order :: id in plan
      modifies this
      ensures Valid() && relays == Relays(plan, Deleted(order, l))
      ensures log == old(log) + Deletes(Deleted(order, l))
    {
      ghost var h := log;
      relays := [];
      for i := 0 to |order|
        invariant Valid() && relays == Relays(plan, Deleted(order[..i], l))
        invariant log == h + Deletes(Deleted(order[..i], l))
      {
        var id := order[i];
        DeletedMore(plan, order, l, i, h);
        if l.deletes(id) {
          Perform(Delete(id));
          if ActionOf(plan, id).Relay? {
            relays := relays + [id];
          }
        }
      }
      assert order[..|order|] == order;
    }

    method Lay(name: string, from: Id, id: Id)
      requires Valid()
      modifies this
      ensures Valid() && log == old(log) + [Clone(id, name, from), Mark(id)]
    {
      Perform(Clone(id, name, from));
      Perform(Mark(id));
    }

    method LayAgain(plan: Vols, r: Id, n: Id, l: Luck, d: Files)
      requires Valid() && r in plan && ActionOf(plan, r).Relay?
      modifies this
      ensures Valid() && log == old(log) + LayOne(plan, r, n, l, d)
    {
      Lay(plan[r].name, ActionOf(plan, r).from, n);
      if plan[r].name == NODE_STATE_VOLUME && d != map[] && l.carries {
        Perform(Carry(n, d));
      }
    }

    method LayAll(plan: Vols, relays: seq<Id>, l: Luck, d: Files)
      requires Valid() && forall id <- relays :: id in plan && ActionOf(plan, id).Relay?
      modifies this
      ensures Valid() && log == old(log) + Lays(plan, relays, l, d)
    {
      ghost var h := log;
      for i := 0 to |relays|
        invariant Valid() && log == h + Lays(plan, relays[..i], l, d)
      {
        LaidMore(plan, relays, l, d, i, h);
        if l.lays(i) {
          LayAgain(plan, relays[i], l.ids(i), l, d);
        }
      }
      assert relays[..|relays|] == relays;
    }

    /** The state volume: laid under the temporary name, the old one deleted, the name given. */
    method SwapState(plan: Vols, s: Id, n: Id, l: Luck)
      requires Valid() && s in plan
      modifies this
      ensures Valid() && log == old(log) + StateSafe(plan, s, n, l) + StateSwap(plan, s, n, l)
    {
      var a := ActionOf(plan, s);
      if a.Relay? {
        if !l.laysState {
          return;
        }
        Lay(STATE_NEW, a.from, n);
      }
      if l.deletesState {
        Perform(Delete(s));
      }
      if a.Relay? && l.renames {
        Perform(Rename(n, STATE_VOLUME));
      }
    }

    /** The declaration first, kept in the ticket. */
    method SaveDeclaration(s: Id) returns (d: Files)
      requires Valid() && s in vols && vols[s].ticket.Some?
      modifies this
      ensures Valid() && d == Declared(old(vols), s) && log == old(log) + Saving(old(vols), s)
      ensures vols == old(vols) || vols == Do(old(vols), Save(s, d))
    {
      d := map[];
      if vols[s].ticket.value.declaration.Some? {
        d := vols[s].ticket.value.declaration.value;
        return;
      }
      var node := FindNamed(vols, NODE_STATE_VOLUME);
      if node.Some? {
        d := vols[node.value].files;
      }
      Perform(Save(s, d));
    }

    method RunTicket(s: Id, l: Luck) returns (order: seq<Id>)
      requires Valid() && PendingTicket(vols) == Some(s) && Runs(vols, l)
      modifies this
      ensures Valid() && Ordered(old(vols), order) && log == old(log) + RunOf(old(vols), order, l)
    {
      ghost var was, h := vols, log;
      var d := SaveDeclaration(s);
      var plan := vols;
      order := DeletionOrder(plan);
      SavedPlan(was, plan, s, d, order);
      var relays := DeleteAll(plan, order, l);
      LayAll(plan, relays, l, d);
      SwapState(plan, s, l.ids(|relays|), l);
      ActsAreTheRun(h, was, plan, s, order, l, d);
    }

    /** A boot: finish a release cut short, then run the ticket, if there is one. */
    method BootLocal(l: Luck) returns (order: seq<Id>)
      requires Valid()
      modifies this
      ensures Valid() && Orders(old(vols), order, l)
      ensures log == old(log) + Script(old(vols), order, l)
    {
      ghost var was, h := vols, log;
      FinishInterrupted(l);
      ghost var mid, f := vols, log;
      order := RunPending(l);
      ScriptIs(was, mid, order, l, h);
    }

    method RunPending(l: Luck) returns (order: seq<Id>)
      requires Valid()
      modifies this
      ensures Valid() && (Runs(old(vols), l) ==> Ordered(old(vols), order))
      ensures log == old(log) + RunOf(old(vols), order, l)
    {
      order := [];
      var s := FindNamed(vols, STATE_VOLUME);
      if s.Some? && vols[s.value].ticket.Some? && vols[s.value].ticket.value.pending &&
         (vols[s.value].ticket.value.declaration.None? ==> l.saves) {
        order := RunTicket(s.value, l);
      }
    }

    method FinishInterrupted(l: Luck)
      requires Valid()
      modifies this
      ensures Valid() && log == old(log) + Finish(old(vols), l) && vols == Exec(old(vols), Finish(old(vols), l))
    {
      ghost var was, h := vols, log;
      var s := FindNamed(vols, STATE_VOLUME);
      if s.None? {
        var n := FindNamed(vols, STATE_NEW);
        if n.Some? && l.renames {
          Perform(Rename(n.value, STATE_VOLUME));
        }
      }
      ExecConcat(began, h, Finish(was, l));
    }
  }

  lemma ScriptIs(v: Vols, w: Vols, order: seq<Id>, l: Luck, h: seq<Act>)
    requires w == Exec(v, Finish(v, l)) && (Runs(w, l) ==> Ordered(w, order))
    ensures Orders(v, order, l)
    ensures (h + Finish(v, l)) + RunOf(w, order, l) == h + Script(v, order, l)
  {
    Regroup(h, Finish(v, l), RunOf(w, order, l));
  }

  lemma SavedPlan(v: Vols, w: Vols, s: Id, d: Files, order: seq<Id>)
    requires s in v && (w == v || w == Do(v, Save(s, d))) && Ordered(w, order)
    ensures Ordered(v, order)
  {
    if w != v {
      SavingKeepsThePlan(v, s, d, order);
    }
  }

  lemma ActsAreTheRun(h: seq<Act>, v: Vols, w: Vols, s: Id, order: seq<Id>, l: Luck, d: Files)
    requires PendingTicket(v) == Some(s) && Runs(v, l) && Ordered(v, order) && d == Declared(v, s)
    requires w == v || w == Do(v, Save(s, d))
    ensures
      var relays := Relays(w, Deleted(order, l));
      (((h + Saving(v, s)) + Deletes(Deleted(order, l))) + Lays(w, relays, l, d)) +
        StateSafe(w, s, l.ids(|relays|), l) +
        StateSwap(w, s, l.ids(|relays|), l) == h + RunOf(v, order, l)
  {
    var relays := Relays(v, Deleted(order, l));
    var n := l.ids(|relays|);
    SamePlan(v, w, s, order, l, d, n);
    Regroup4(h, Saving(v, s), Deletes(Deleted(order, l)), Lays(v, relays, l, d), StateSafe(v, s, n, l),
      StateSwap(v, s, n, l));
  }

  lemma Regroup4(h: seq<Act>, a: seq<Act>, b: seq<Act>, c: seq<Act>, d: seq<Act>, e: seq<Act>)
    ensures (((h + a) + b) + c) + d + e == h + ((a + b + c + d) + e)
  {
  }

  /** The plan made after the declaration is saved is the one made before. */
  lemma SamePlan(v: Vols, w: Vols, s: Id, order: seq<Id>, l: Luck, d: Files, n: Id)
    requires s in v && (w == v || w == Do(v, Save(s, d))) && forall id <- order :: id in v
    ensures Relays(w, Deleted(order, l)) == Relays(v, Deleted(order, l))
    ensures Lays(w, Relays(v, Deleted(order, l)), l, d) == Lays(v, Relays(v, Deleted(order, l)), l, d)
    ensures StateSafe(w, s, n, l) == StateSafe(v, s, n, l) && StateSwap(w, s, n, l) == StateSwap(v, s, n, l)
  {
    assert forall id <- v :: id in w && ActionOf(w, id) == ActionOf(v, id) && w[id].name == v[id].name;
    SameMoves(v, w, order, l, d);
  }

  lemma SameMoves(v: Vols, w: Vols, order: seq<Id>, l: Luck, d: Files)
    requires forall id <- v :: id in w && ActionOf(w, id) == ActionOf(v, id) && w[id].name == v[id].name
    requires forall id <- order :: id in v
    ensures Relays(w, Deleted(order, l)) == Relays(v, Deleted(order, l))
    ensures Lays(w, Relays(v, Deleted(order, l)), l, d) == Lays(v, Relays(v, Deleted(order, l)), l, d)
  {
    SameRelays(v, w, Deleted(order, l));
    SameLays(v, w, Relays(v, Deleted(order, l)), l, d);
  }

  lemma {:induction false} SameRelays(v: Vols, w: Vols, gone: seq<Id>)
    requires forall id <- gone :: id in v && id in w && ActionOf(w, id) == ActionOf(v, id)
    ensures Relays(w, gone) == Relays(v, gone)
  {
    if gone != [] {
      SameRelays(v, w, gone[..|gone| - 1]);
    }
  }

  lemma {:induction false} SameLays(v: Vols, w: Vols, relays: seq<Id>, l: Luck, d: Files)
    requires forall id <- relays ::
      id in v && id in w && ActionOf(v, id).Relay? && ActionOf(w, id) == ActionOf(v, id) && w[id].name == v[id].name
    ensures Lays(w, relays, l, d) == Lays(v, relays, l, d)
  {
    if relays != [] {
      SameLays(v, w, relays[..|relays| - 1], l, d);
    }
  }
}
