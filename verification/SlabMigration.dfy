/** Moving every extent off a slab where the slot tables are the only record (src/migrate.rs:158-248):
    the map is rebuilt from the tables on disk (src/volume/gem.rs:1141-1200), so a source slot may be
    freed only once the table that has its copy is. The power may go after any act. */
module SlabMigration {
  import opened Options

  datatype Slot = Slot(slab: nat, index: nat)
  type Extent = nat
  type Data = nat
  /** Whose a slot is, and since when: a copy is newer than what it is of. */
  datatype Entry = Entry(extent: Extent, gen: nat)

  /** The slot tables in memory and on disk; and what the slots hold, as the devices answer and as
      a power cut leaves them. */
  datatype Node = Node(
    mem: map<Slot, Entry>, disk: map<Slot, Entry>,
    content: map<Slot, Data>, media: map<Slot, Data>)

  /** A copy written and read back; a device flushed; one table entry written; a slot freed. */
  datatype Act = Copy(from: Slot, to: Slot) | Flush(slab: nat) | Publish(slot: Slot) | Free(slot: Slot)

  datatype Move = Move(from: Slot, to: Slot)

  function Do(x: Node, a: Act): Node {
    match a
    case Copy(from, to) =>
      if from !in x.mem || from !in x.content then x else
      x.(mem := x.mem[to := Entry(x.mem[from].extent, x.mem[from].gen + 1)],
         content := x.content[to := x.content[from]])
    case Flush(slab) =>
      x.(media := map s | s in x.media.Keys + x.content.Keys && (s in x.media || s.slab == slab) ::
           if s.slab == slab && s in x.content then x.content[s] else x.media[s])
    case Publish(slot) =>
      x.(disk := if slot in x.mem then x.disk[slot := x.mem[slot]] else x.disk - {slot})
    case Free(slot) => x.(mem := x.mem - {slot})
  }

  ghost function Exec(x: Node, acts: seq<Act>): Node {
    if acts == [] then x else Do(Exec(x, acts[..|acts| - 1]), acts[|acts| - 1])
  }

  lemma {:induction false} ExecConcat(x: Node, a: seq<Act>, b: seq<Act>)
    ensures Exec(x, a + b) == Exec(Exec(x, a), b)
  {
    if b == [] {
      assert a + b == a;
    } else {
      assert (a + b)[..|a + b| - 1] == a + b[..|b| - 1];
      ExecConcat(x, a, b[..|b| - 1]);
    }
  }

  // ---------------------------------------------------------------- the run

  function Copies(moves: seq<Move>): (r: seq<Act>)
    ensures |r| == |moves| && forall i :: 0 <= i < |r| ==> r[i] == Copy(moves[i].from, moves[i].to)
  {
    seq(|moves|, i requires 0 <= i < |moves| => Copy(moves[i].from, moves[i].to))
  }

  /** The entries a sync of the slab has to write: those of the copies on it. */
  function Entries(moves: seq<Move>, slab: nat): (r: seq<Act>)
    ensures forall a <- r ::
      a.Publish? && exists i :: 0 <= i < |moves| && a.slot == moves[i].to && moves[i].to.slab == slab
    ensures forall i :: 0 <= i < |moves| && moves[i].to.slab == slab ==> Publish(moves[i].to) in r
  {
    if moves == [] then [] else
    var r, m := Entries(moves[..|moves| - 1], slab), moves[|moves| - 1];
    assert forall i :: 0 <= i < |moves| - 1 ==> moves[..|moves| - 1][i] == moves[i];
    if m.to.slab == slab then r + [Publish(m.to)] else r
  }

  function Frees(moves: seq<Move>): (r: seq<Act>)
    ensures |r| == |moves| && forall i :: 0 <= i < |r| ==> r[i] == Free(moves[i].from)
  {
    seq(|moves|, i requires 0 <= i < |moves| => Free(moves[i].from))
  }

  function Unpublishes(moves: seq<Move>): (r: seq<Act>)
    ensures |r| == |moves| && forall i :: 0 <= i < |r| ==> r[i] == Publish(moves[i].from)
  {
    seq(|moves|, i requires 0 <= i < |moves| => Publish(moves[i].from))
  }

  /** Everything moved, the destination synced, the sources freed, and the source synced. */
  function Script(moves: seq<Move>, source: nat, dest: nat): seq<Act> {
    Copies(moves) + ([Flush(dest)] + Entries(moves, dest)) + (Frees(moves) + ([Flush(source)] + Unpublishes(moves)))
  }

  // ---------------------------------------------------------------- what a restart reads

  ghost predicate Newest(disk: map<Slot, Entry>, s: Slot) {
    s in disk && forall t <- disk :: disk[t].extent == disk[s].extent ==> disk[t].gen <= disk[s].gen
  }

  /** The map rebuilt from the tables has the extent, in a slot of its newest generation, and each
      such slot holds `d`. */
  ghost predicate Reads(x: Node, e: Extent, d: Data) {
    && (exists s :: s in x.disk && x.disk[s].extent == e)
    && (forall s <- x.disk :: x.disk[s].extent == e && Newest(x.disk, s) ==> s in x.media && x.media[s] == d)
  }

  /** A node as it is opened: the tables in memory are those on disk, each extent has one slot. */
  ghost predicate Opened(n: Node) {
    && n.mem == n.disk
    && (forall s <- n.mem :: s in n.content && s in n.media && n.media[s] == n.content[s])
    && (forall s <- n.mem, t <- n.mem :: n.mem[s].extent == n.mem[t].extent ==> s == t)
  }

  /** Each extent moved at most once, from the source to a free slot elsewhere. */
  ghost predicate Movable(n: Node, moves: seq<Move>, source: nat) {
    && (forall i :: 0 <= i < |moves| ==> moves[i].from in n.mem && moves[i].from.slab == source)
    && (forall i :: 0 <= i < |moves| ==> moves[i].to !in n.mem && moves[i].to.slab != source)
    && (forall i, j :: 0 <= i < j < |moves| ==> moves[i].from != moves[j].from && moves[i].to != moves[j].to)
  }

  /** What a slot is a copy of, at the start: itself, or the source of the move to it. */
  ghost predicate CopyOf(n: Node, moves: seq<Move>, s: Slot, o: Slot) {
    o in n.mem && ((s == o) || exists i :: 0 <= i < |moves| && moves[i].from == o && moves[i].to == s)
  }

  ghost predicate HoldsIn(n: Node, moves: seq<Move>, table: map<Slot, Entry>, held: map<Slot, Data>, s: Slot) {
    && s in table && s in held
    && exists o ::
      CopyOf(n, moves, s, o) && o in n.content && table[s].extent == n.mem[o].extent && held[s] == n.content[o]
  }

  /** At every cut: each slot in a table is a copy of the extent it says, and each extent is
      in its own slot or a copy of it is published. */
  ghost predicate Sound(n: Node, moves: seq<Move>, x: Node) {
    && (forall s <- x.mem :: HoldsIn(n, moves, x.mem, x.content, s))
    && (forall s <- x.disk :: HoldsIn(n, moves, x.disk, x.content, s) && HoldsIn(n, moves, x.disk, x.media, s))
    && (forall s <- n.mem :: s in x.disk || MovedOnDisk(moves, x, s))
  }

  ghost predicate MovedOnDisk(moves: seq<Move>, x: Node, s: Slot) {
    exists i :: 0 <= i < |moves| && moves[i].from == s && moves[i].to in x.disk
  }

  lemma SoundReads(n: Node, moves: seq<Move>, source: nat, x: Node, s: Slot)
    requires Opened(n) && Movable(n, moves, source) && Sound(n, moves, x) && s in n.mem
    ensures Reads(x, n.mem[s].extent, n.content[s])
  {
    var e := n.mem[s].extent;
    if s in x.disk {
      assert HoldsIn(n, moves, x.disk, x.media, s);
      OneOrigin(n, moves, source, s, s);
    } else {
      var i :| 0 <= i < |moves| && moves[i].from == s && moves[i].to in x.disk;
      assert HoldsIn(n, moves, x.disk, x.media, moves[i].to);
      OneOrigin(n, moves, source, moves[i].to, s);
    }
    assert forall t <- x.disk :: x.disk[t].extent == e ==> HoldsIn(n, moves, x.disk, x.media, t);
  }

  /** A slot is a copy of one slot only. */
  lemma OneOrigin(n: Node, moves: seq<Move>, source: nat, s: Slot, o: Slot)
    requires Movable(n, moves, source) && CopyOf(n, moves, s, o)
    ensures forall q :: CopyOf(n, moves, s, q) ==> q == o
  {
  }

  // ---------------------------------------------------------------- every act keeps it

  /** A copy is to a slot no table on disk has; an entry is written for what is on the media; and
      one is withdrawn only when a copy of its extent is published. */
  ghost predicate Proper(moves: seq<Move>, x: Node, a: Act) {
    match a
    case Copy(from, to) => Move(from, to) in moves && from in x.mem && to !in x.disk
    case Publish(s) =>
      if s in x.mem then s in x.media && s in x.content && x.media[s] == x.content[s]
      else MovedOnDisk(moves, x, s) && forall i :: 0 <= i < |moves| ==> moves[i].to != s
    case _ => true
  }

  lemma CopyKeeps(n: Node, moves: seq<Move>, source: nat, x: Node, from: Slot, to: Slot)
    requires Movable(n, moves, source) && Sound(n, moves, x) && Proper(moves, x, Copy(from, to))
    ensures Sound(n, moves, Do(x, Copy(from, to)))
  {
    var y := Do(x, Copy(from, to));
    var i :| 0 <= i < |moves| && moves[i] == Move(from, to);
    assert CopyOf(n, moves, from, from) && CopyOf(n, moves, to, from);
    OneOrigin(n, moves, source, from, from);
    assert HoldsIn(n, moves, x.mem, x.content, from);
    forall s <- y.mem
      ensures HoldsIn(n, moves, y.mem, y.content, s)
    {
      assert s != to ==> HoldsIn(n, moves, x.mem, x.content, s);
    }
    forall s <- y.disk
      ensures HoldsIn(n, moves, y.disk, y.content, s) && HoldsIn(n, moves, y.disk, y.media, s)
    {
      assert s != to && HoldsIn(n, moves, x.disk, x.content, s) && HoldsIn(n, moves, x.disk, x.media, s);
    }
    StillThere(n, moves, x, y);
  }

  lemma StillThere(n: Node, moves: seq<Move>, x: Node, y: Node)
    requires x.disk.Keys <= y.disk.Keys && forall s <- n.mem :: s in x.disk || MovedOnDisk(moves, x, s)
    ensures forall s <- n.mem :: s in y.disk || MovedOnDisk(moves, y, s)
  {
    forall s <- n.mem | s !in y.disk
      ensures MovedOnDisk(moves, y, s)
    {
      var i :| 0 <= i < |moves| && moves[i].from == s && moves[i].to in x.disk;
      assert moves[i].to in y.disk;
    }
  }

  lemma FlushKeeps(n: Node, moves: seq<Move>, x: Node, slab: nat)
    requires Sound(n, moves, x)
    ensures Sound(n, moves, Do(x, Flush(slab)))
  {
    var y := Do(x, Flush(slab));
    forall s <- y.disk
      ensures HoldsIn(n, moves, y.disk, y.content, s) && HoldsIn(n, moves, y.disk, y.media, s)
    {
      assert HoldsIn(n, moves, x.disk, x.content, s) && HoldsIn(n, moves, x.disk, x.media, s);
    }
    forall s <- y.mem
      ensures HoldsIn(n, moves, y.mem, y.content, s)
    {
      assert HoldsIn(n, moves, x.mem, x.content, s);
    }
    StillThere(n, moves, x, y);
  }

  lemma PublishKeeps(n: Node, moves: seq<Move>, x: Node, slot: Slot)
    requires Sound(n, moves, x) && Proper(moves, x, Publish(slot))
    ensures Sound(n, moves, Do(x, Publish(slot)))
  {
    var y := Do(x, Publish(slot));
    forall s <- y.disk
      ensures HoldsIn(n, moves, y.disk, y.content, s) && HoldsIn(n, moves, y.disk, y.media, s)
    {
      if s == slot {
        assert HoldsIn(n, moves, x.mem, x.content, s);
      } else {
        assert HoldsIn(n, moves, x.disk, x.content, s) && HoldsIn(n, moves, x.disk, x.media, s);
      }
    }
    assert forall s <- y.mem :: HoldsIn(n, moves, x.mem, x.content, s);
    if slot in x.mem {
      StillThere(n, moves, x, y);
    } else {
      forall s <- n.mem | s !in y.disk
        ensures MovedOnDisk(moves, y, s)
      {
        assert s == slot || s !in x.disk;
        var i :| 0 <= i < |moves| && moves[i].from == s && moves[i].to in x.disk;
        assert moves[i].to in y.disk;
      }
    }
  }

  lemma ActKeeps(n: Node, moves: seq<Move>, source: nat, x: Node, a: Act)
    requires Movable(n, moves, source) && Sound(n, moves, x) && Proper(moves, x, a)
    ensures Sound(n, moves, Do(x, a))
  {
    match a
    case Copy(from, to) => CopyKeeps(n, moves, source, x, from, to);
    case Flush(slab) => FlushKeeps(n, moves, x, slab);
    case Publish(slot) => PublishKeeps(n, moves, x, slot);
    case Free(slot) =>
      var y := Do(x, a);
      forall s <- y.mem
        ensures HoldsIn(n, moves, y.mem, y.content, s)
      {
        assert HoldsIn(n, moves, x.mem, x.content, s);
      }
      assert forall s <- y.disk :: HoldsIn(n, moves, x.disk, x.content, s) && HoldsIn(n, moves, x.disk, x.media, s);
      StillThere(n, moves, x, y);
  }

  ghost predicate AllProper(moves: seq<Move>, x: Node, acts: seq<Act>) {
    acts == [] ||
    (AllProper(moves, x, acts[..|acts| - 1]) && Proper(moves, Exec(x, acts[..|acts| - 1]), acts[|acts| - 1]))
  }

  lemma {:induction false} ProperConcat(moves: seq<Move>, x: Node, a: seq<Act>, b: seq<Act>)
    requires AllProper(moves, x, a) && AllProper(moves, Exec(x, a), b)
    ensures AllProper(moves, x, a + b) && Exec(x, a + b) == Exec(Exec(x, a), b)
  {
    ExecConcat(x, a, b);
    if b == [] {
      assert a + b == a;
    } else {
      assert (a + b)[..|a + b| - 1] == a + b[..|b| - 1];
      ProperConcat(moves, x, a, b[..|b| - 1]);
    }
  }

  /** Wherever a run of such acts is cut. */
  lemma {:induction false} CutIsSound(n: Node, moves: seq<Move>, source: nat, x: Node, acts: seq<Act>, k: nat)
    requires Movable(n, moves, source) && Sound(n, moves, x) && AllProper(moves, x, acts) && k <= |acts|
    ensures Sound(n, moves, Exec(x, acts[..k]))
    decreases |acts|
  {
    if k < |acts| {
      CutIsSound(n, moves, source, x, acts[..|acts| - 1], k);
      assert acts[..|acts| - 1][..k] == acts[..k];
    } else {
      assert acts[..k] == acts;
      if acts != [] {
        var m := |acts| - 1;
        CutIsSound(n, moves, source, x, acts[..m], m);
        assert acts[..m][..m] == acts[..m];
        ActKeeps(n, moves, source, Exec(x, acts[..m]), acts[m]);
      }
    }
  }

  // ---------------------------------------------------------------- the parts of a run

  ghost predicate IsTo(moves: seq<Move>, s: Slot) {
    exists i :: 0 <= i < |moves| && moves[i].to == s
  }

  ghost predicate IsFrom(moves: seq<Move>, s: Slot) {
    exists i :: 0 <= i < |moves| && moves[i].from == s
  }

  /** A copy's entry: the same extent's, one generation on. */
  ghost function Newer(x: Entry): Entry {
    Entry(x.extent, x.gen + 1)
  }

  /** After the copies: nothing on disk has changed. */
  ghost predicate Copied(n: Node, moves: seq<Move>, x: Node)
    requires (forall s <- n.mem :: s in n.content) && forall i :: 0 <= i < |moves| ==> moves[i].from in n.mem
  {
    && x.disk == n.disk && x.media == n.media
    && (forall s <- n.mem :: s in x.mem && x.mem[s] == n.mem[s] && s in x.content && x.content[s] == n.content[s])
    && (forall i :: 0 <= i < |moves| ==>
          moves[i].to in x.mem && moves[i].to in x.content && x.mem[moves[i].to] == Newer(n.mem[moves[i].from]))
    && (forall s <- x.mem :: s in n.mem || IsTo(moves, s))
  }

  lemma {:induction false} CopiesAre(n: Node, all: seq<Move>, source: nat, moves: seq<Move>)
    requires Opened(n) && Movable(n, all, source) && moves <= all
    ensures AllProper(all, n, Copies(moves)) && Copied(n, moves, Exec(n, Copies(moves)))
  {
    if moves != [] {
      var k := |moves| - 1;
      var rest, m := moves[..k], moves[k];
      CopiesAre(n, all, source, rest);
      assert Copies(moves)[..k] == Copies(rest) && m == all[k];
      OneMoreCopied(n, moves, Exec(n, Copies(rest)));
    }
  }

  lemma OneMoreCopied(n: Node, moves: seq<Move>, x: Node)
    requires moves != [] && forall i :: 0 <= i < |moves| ==> moves[i].from in n.mem && moves[i].to !in n.mem
    requires (forall s <- n.mem :: s in n.content) && Copied(n, moves[..|moves| - 1], x)
    requires forall i, j :: 0 <= i < j < |moves| ==> moves[i].to != moves[j].to
    ensures var m := moves[|moves| - 1]; Copied(n, moves, Do(x, Copy(m.from, m.to)))
  {
    var k, m := |moves| - 1, moves[|moves| - 1];
    var y := Do(x, Copy(m.from, m.to));
    assert forall i :: 0 <= i < k ==> moves[..k][i] == moves[i];
    forall s <- y.mem
      ensures s in n.mem || IsTo(moves, s)
    {
      if s == m.to {
        assert moves[k].to == s;
      } else if s !in n.mem {
        var i :| 0 <= i < |moves[..k]| && moves[..k][i].to == s;
        assert moves[i].to == s;
      }
    }
  }

  /** Entries written for slots that are on the media. */
  ghost predicate Ready(x: Node, acts: seq<Act>) {
    forall a <- acts :: a.Publish? && a.slot in x.mem && a.slot in x.media && a.slot in x.content &&
      x.media[a.slot] == x.content[a.slot]
  }

  lemma {:induction false} PublishesAre(moves: seq<Move>, x: Node, acts: seq<Act>)
    requires Ready(x, acts)
    ensures AllProper(moves, x, acts)
    ensures
      var y := Exec(x, acts);
      && y == x.(disk := y.disk) && x.disk.Keys <= y.disk.Keys
      && (forall a <- acts :: a.slot in y.disk)
      && (forall s <- y.disk ::
            if Publish(s) in acts then y.disk[s] == x.mem[s] else s in x.disk && y.disk[s] == x.disk[s])
  {
    if acts != [] {
      var rest, a := acts[..|acts| - 1], acts[|acts| - 1];
      assert a in acts && acts == rest + [a] && forall b <- rest :: b in acts;
      PublishesAre(moves, x, rest);
    }
  }

  /** Slots freed in memory. */
  lemma {:induction false} FreesAre(moves: seq<Move>, x: Node, k: nat)
    requires k <= |moves|
    ensures
      var acts := Frees(moves[..k]);
      var y := Exec(x, acts);
      && AllProper(moves, x, acts) && y == x.(mem := y.mem)
      && forall s :: s in y.mem <==> s in x.mem && !IsFrom(moves[..k], s)
  {
    if k > 0 {
      FreesAre(moves, x, k - 1);
      var acts := Frees(moves[..k]);
      assert acts[..k - 1] == Frees(moves[..k - 1]);
      var y := Exec(x, acts[..k - 1]);
      FromMore(moves, k);
      assert Exec(x, acts) == y.(mem := y.mem - {moves[k - 1].from});
    }
  }

  lemma FromMore(moves: seq<Move>, k: nat)
    requires 0 < k <= |moves|
    ensures forall s :: IsFrom(moves[..k], s) <==> IsFrom(moves[..k - 1], s) || s == moves[k - 1].from
  {
    forall s
      ensures IsFrom(moves[..k], s) <==> IsFrom(moves[..k - 1], s) || s == moves[k - 1].from
    {
      if IsFrom(moves[..k - 1], s) {
        var i :| 0 <= i < k - 1 && moves[..k - 1][i].from == s;
        assert moves[..k][i].from == s;
      }
      if s == moves[k - 1].from {
        assert moves[..k][k - 1].from == s;
      }
      if IsFrom(moves[..k], s) {
        var i :| 0 <= i < k && moves[..k][i].from == s;
        assert i < k - 1 ==> moves[..k - 1][i].from == s;
      }
    }
  }

  /** Their entries withdrawn. */
  lemma {:induction false} UnpublishesAre(moves: seq<Move>, x: Node, k: nat)
    requires k <= |moves| && forall i :: 0 <= i < |moves| ==> moves[i].from !in x.mem
    ensures
      var y := Exec(x, Unpublishes(moves[..k]));
      && y == x.(disk := y.disk)
      && (forall s :: s in y.disk <==> s in x.disk && !IsFrom(moves[..k], s))
      && (forall s <- y.disk :: y.disk[s] == x.disk[s])
  {
    if k > 0 {
      UnpublishesAre(moves, x, k - 1);
      var acts := Unpublishes(moves[..k]);
      assert acts[..k - 1] == Unpublishes(moves[..k - 1]);
      var y := Exec(x, acts[..k - 1]);
      FromMore(moves, k);
      assert Exec(x, acts) == y.(disk := y.disk - {moves[k - 1].from});
    }
  }

  /** Which is proper once each source has a copy published. */
  lemma {:induction false} UnpublishesProper(moves: seq<Move>, x: Node, k: nat)
    requires k <= |moves| && forall i :: 0 <= i < |moves| ==> moves[i].from !in x.mem && moves[i].to in x.disk
    requires forall i, j :: 0 <= i < |moves| && 0 <= j < |moves| ==> moves[i].from != moves[j].to
    ensures AllProper(moves, x, Unpublishes(moves[..k]))
  {
    if k > 0 {
      var acts, m := Unpublishes(moves[..k]), moves[k - 1];
      UnpublishesProper(moves, x, k - 1);
      UnpublishesAre(moves, x, k - 1);
      assert acts[..k - 1] == Unpublishes(moves[..k - 1]);
      var y := Exec(x, acts[..k - 1]);
      assert !IsFrom(moves[..k - 1], m.to) && m.to in y.disk;
      assert moves[k - 1].from == m.from && moves[k - 1].to in y.disk;
      assert MovedOnDisk(moves, y, m.from);
    }
  }

  // ---------------------------------------------------------------- the whole

  lemma SoundAtFirst(n: Node, moves: seq<Move>)
    requires Opened(n)
    ensures Sound(n, moves, n)
  {
    forall s <- n.mem
      ensures HoldsIn(n, moves, n.mem, n.content, s) && HoldsIn(n, moves, n.mem, n.media, s)
    {
      assert CopyOf(n, moves, s, s);
    }
  }

  /** The node once the destination is synced. */
  ghost function Synced(n: Node, moves: seq<Move>, dest: nat): Node {
    Exec(Do(Exec(n, Copies(moves)), Flush(dest)), Entries(moves, dest))
  }

  lemma SyncedIs(n: Node, moves: seq<Move>, source: nat, dest: nat)
    requires Opened(n) && Movable(n, moves, source)
    ensures
      var x, head := Synced(n, moves, dest), Copies(moves) + ([Flush(dest)] + Entries(moves, dest));
      && AllProper(moves, n, head) && Exec(n, head) == x
      && (forall i :: 0 <= i < |moves| && moves[i].to.slab == dest ==> moves[i].to in x.disk)
      && (forall s <- x.disk ::
            (s in n.mem && x.disk[s] == n.mem[s]) ||
            exists i :: 0 <= i < |moves| && moves[i].to == s && s.slab == dest &&
              x.disk[s] == Newer(n.mem[moves[i].from]))
  {
    var c := Exec(n, Copies(moves));
    var y, es := Do(c, Flush(dest)), Entries(moves, dest);
    CopiesAre(n, moves, source, moves);
    assert Ready(y, es);
    PublishesAre(moves, y, es);
    FlushThen(moves, c, dest, es);
    ProperConcat(moves, n, Copies(moves), [Flush(dest)] + es);
    var x := Exec(y, es);
    forall s <- x.disk | s !in n.mem
      ensures exists i ::
        0 <= i < |moves| && moves[i].to == s && s.slab == dest && x.disk[s] == Newer(n.mem[moves[i].from])
    {
      assert Publish(s) in es;
    }
    forall s <- x.disk | s in n.mem
      ensures x.disk[s] == n.mem[s]
    {
    }
  }

  lemma FlushThen(moves: seq<Move>, x: Node, slab: nat, acts: seq<Act>)
    requires AllProper(moves, Do(x, Flush(slab)), acts)
    ensures AllProper(moves, x, [Flush(slab)] + acts) && Exec(x, [Flush(slab)] + acts) == Exec(Do(x, Flush(slab)), acts)
  {
    assert [Flush(slab)][..0] == [];
    assert Exec(x, [Flush(slab)]) == Do(x, Flush(slab));
    ProperConcat(moves, x, [Flush(slab)], acts);
  }

  /** When every copy is on the slab that is synced, every extent is read at every cut. */
  lemma EveryCutReads(n: Node, moves: seq<Move>, source: nat, dest: nat, k: nat, s: Slot)
    requires Opened(n) && Movable(n, moves, source) && forall i :: 0 <= i < |moves| ==> moves[i].to.slab == dest
    requires k <= |Script(moves, source, dest)| && s in n.mem
    ensures Reads(Exec(n, Script(moves, source, dest)[..k]), n.mem[s].extent, n.content[s])
  {
    SoundAtFirst(n, moves);
    ScriptProper(n, moves, source, dest);
    CutIsSound(n, moves, source, n, Script(moves, source, dest), k);
    SoundReads(n, moves, source, Exec(n, Script(moves, source, dest)[..k]), s);
  }

  lemma ScriptProper(n: Node, moves: seq<Move>, source: nat, dest: nat)
    requires Opened(n) && Movable(n, moves, source) && forall i :: 0 <= i < |moves| ==> moves[i].to.slab == dest
    ensures AllProper(moves, n, Script(moves, source, dest))
  {
    SyncedIs(n, moves, source, dest);
    var x, head := Synced(n, moves, dest), Copies(moves) + ([Flush(dest)] + Entries(moves, dest));
    assert moves[..|moves|] == moves;
    FreesAre(moves, x, |moves|);
    var f := Do(Exec(x, Frees(moves)), Flush(source));
    forall i | 0 <= i < |moves|
      ensures moves[i].from !in f.mem
    {
      assert IsFrom(moves, moves[i].from);
    }
    UnpublishesProper(moves, f, |moves|);
    FlushThen(moves, Exec(x, Frees(moves)), source, Unpublishes(moves));
    ProperConcat(moves, x, Frees(moves), [Flush(source)] + Unpublishes(moves));
    ProperConcat(moves, n, head, Frees(moves) + ([Flush(source)] + Unpublishes(moves)));
  }

  lemma TailIs(x: Node, moves: seq<Move>, source: nat)
    ensures
      var y := Exec(x, Frees(moves) + ([Flush(source)] + Unpublishes(moves)));
      forall s <- y.disk :: s in x.disk && !IsFrom(moves, s) && y.disk[s] == x.disk[s]
  {
    assert moves[..|moves|] == moves;
    FreesAre(moves, x, |moves|);
    var f := Do(Exec(x, Frees(moves)), Flush(source));
    forall i | 0 <= i < |moves|
      ensures moves[i].from !in f.mem
    {
      assert IsFrom(moves, moves[i].from);
    }
    UnpublishesAre(moves, f, |moves|);
    ExecConcat(x, Frees(moves), [Flush(source)] + Unpublishes(moves));
    ExecConcat(Exec(x, Frees(moves)), [Flush(source)], Unpublishes(moves));
    assert [Flush(source)][..0] == [] && Exec(Exec(x, Frees(moves)), [Flush(source)]) == f;
  }

  /** What is on disk when all is done. */
  lemma ScriptLeaves(n: Node, moves: seq<Move>, source: nat, dest: nat)
    requires Opened(n) && Movable(n, moves, source)
    ensures
      var x := Exec(n, Script(moves, source, dest));
      forall s <- x.disk ::
        (s in n.mem && x.disk[s] == n.mem[s] && !IsFrom(moves, s)) ||
        exists i :: 0 <= i < |moves| && moves[i].to == s && s.slab == dest && x.disk[s] == Newer(n.mem[moves[i].from])
  {
    var head := Copies(moves) + ([Flush(dest)] + Entries(moves, dest));
    SyncedIs(n, moves, source, dest);
    TailIs(Synced(n, moves, dest), moves, source);
    ExecConcat(n, head, Frees(moves) + ([Flush(source)] + Unpublishes(moves)));
  }

  /** A copy on any other slab is on no table: when all is done its extent has no home. */
  lemma ElsewhereIsLost(n: Node, moves: seq<Move>, source: nat, dest: nat, i: nat)
    requires Opened(n) && Movable(n, moves, source) && i < |moves| && moves[i].to.slab != dest
    ensures
      var x, e := Exec(n, Script(moves, source, dest)), n.mem[moves[i].from].extent;
      (forall s <- x.disk :: x.disk[s].extent != e) && forall d :: !Reads(x, e, d)
  {
    ScriptLeaves(n, moves, source, dest);
    var x, e := Exec(n, Script(moves, source, dest)), n.mem[moves[i].from].extent;
    assert IsFrom(moves, moves[i].from);
    assert forall s <- x.disk :: x.disk[s].extent != e;
  }

  /** Wherever the power goes, every extent is read as it was, if and only if every copy went to
      the slab that is synced. */
  lemma NothingIsLostIff(n: Node, moves: seq<Move>, source: nat, dest: nat)
    requires Opened(n) && Movable(n, moves, source)
    ensures
      (forall k, s :: 0 <= k <= |Script(moves, source, dest)| && s in n.mem ==>
        Reads(Exec(n, Script(moves, source, dest)[..k]), n.mem[s].extent, n.content[s])) <==>
      (forall i :: 0 <= i < |moves| ==> moves[i].to.slab == dest)
  {
    var acts := Script(moves, source, dest);
    if forall i :: 0 <= i < |moves| ==> moves[i].to.slab == dest {
      forall k, s | 0 <= k <= |acts| && s in n.mem
        ensures Reads(Exec(n, acts[..k]), n.mem[s].extent, n.content[s])
      {
        EveryCutReads(n, moves, source, dest, k, s);
      }
    } else {
      var i :| 0 <= i < |moves| && moves[i].to.slab != dest;
      ElsewhereIsLost(n, moves, source, dest, i);
      assert acts[..|acts|] == acts && moves[i].from in n.mem;
      assert !Reads(Exec(n, acts[..|acts|]), n.mem[moves[i].from].extent, n.content[moves[i].from]);
    }
  }

  /** One extent on slab 0, moved to slab 2 while slab 1 is the one that is synced. */
  const OneExtent: Node :=
    Node(map[Slot(0, 0) := Entry(7, 1)], map[Slot(0, 0) := Entry(7, 1)], map[Slot(0, 0) := 11], map[Slot(0, 0) := 11])

  lemma ItCanGoElsewhere(d: Data)
    ensures Opened(OneExtent) && Movable(OneExtent, [Move(Slot(0, 0), Slot(2, 0))], 0)
    ensures !Reads(Exec(OneExtent, Script([Move(Slot(0, 0), Slot(2, 0))], 0, 1)), 7, d)
  {
    ElsewhereIsLost(OneExtent, [Move(Slot(0, 0), Slot(2, 0))], 0, 1, 0);
  }

  // ---------------------------------------------------------------- the engine

  class Slabs {
    var node: Node

    constructor (node: Node)
      ensures this.node == node
    {
      this.node := node;
    }

    method Perform(acts: seq<Act>)
      modifies this
      ensures node == Exec(old(node), acts)
    {
      for i := 0 to |acts|
        invariant node == Exec(old(node), acts[..i])
      {
        assert acts[..i + 1][..i] == acts[..i];
        node := Do(node, acts[i]);
      }
      assert acts[..|acts|] == acts;
    }

    /** Move every extent off the source, each to the slot it is told, or skip one that fails; it may
        be told to stop. */
    method Evacuate(source: nat, told: seq<Option<Slot>>) returns (moves: seq<Move>, failed: set<Slot>)
      requires Opened(node) && Spare(node, source, told)
      modifies this
      ensures Movable(old(node), moves, source) && node == Exec(old(node), Copies(moves))
      ensures |moves| + |failed| <= |told| && AllTold(moves, told)
      ensures |moves| + |failed| < |told| ==> StillOn(old(node), source, {}, moves, failed)
    {
      ghost var n := node;
      moves, failed := [], {};
      var left := set s | s in node.mem && s.slab == source;
      var k := 0;
      while k < |told| && left != {}
        invariant k == |moves| + |failed| <= |told| && StillOn(n, source, left, moves, failed)
        invariant Movable(n, moves, source) && node == Exec(n, Copies(moves)) && AllTold(moves, told[..k])
        decreases |told| - k
      {
        var s :| s in left;
        if told[k].Some? {
          OneMoved(n, source, left, moves, failed, s, told, k);
          node := Do(node, Copy(s, told[k].value));
          moves := moves + [Move(s, told[k].value)];
        } else {
          OneFailed(n, source, left, moves, failed, s, told, k);
          failed := failed + {s};
        }
        left, k := left - {s}, k + 1;
      }
    }

    /** The copies made, the destination synced, and only then the sources freed: `reached` acts of
        the sync and what follows reach the disk, and a sync that fails frees nothing. */
    method MigrateToSlab(source: nat, dest: nat, told: seq<Option<Slot>>, reached: nat)
      returns (ok: bool, moves: seq<Move>, failed: set<Slot>)
      requires Opened(node) && Spare(node, source, told)
      modifies this
      ensures Movable(old(node), moves, source) && |moves| + |failed| <= |told| && AllTold(moves, told)
      ensures
        && ok == (reached >= 1 + |Entries(moves, dest)|)
        && node == Exec(old(node), Reached(moves, source, dest, reached))
      ensures |moves| + |failed| < |told| ==> StillOn(old(node), source, {}, moves, failed)
    {
      moves, failed := Evacuate(source, told);
      ok := Settle(old(node), moves, source, dest, reached);
    }

    /** The sync, and if it is whole the frees. */
    method Settle(ghost n: Node, moves: seq<Move>, source: nat, dest: nat, reached: nat) returns (ok: bool)
      requires node == Exec(n, Copies(moves))
      modifies this
      ensures ok == (reached >= 1 + |Entries(moves, dest)|)
      ensures node == Exec(n, Reached(moves, source, dest, reached))
    {
      var sync := [Flush(dest)] + Entries(moves, dest);
      CutSync(n, moves, source, dest, reached);
      if reached < |sync| {
        Perform(sync[..reached]);
        return false;
      }
      Perform(sync);
      Perform(Frees(moves) + ([Flush(source)] + Unpublishes(moves)));
      return true;
    }
  }

  /** What reached the disk of a run whose sync made so many acts: all of it once the sync is whole. */
  function Reached(moves: seq<Move>, source: nat, dest: nat, reached: nat): (r: seq<Act>)
    ensures r <= Script(moves, source, dest)
    ensures reached >= 1 + |Entries(moves, dest)| ==> r == Script(moves, source, dest)
  {
    var sync := [Flush(dest)] + Entries(moves, dest);
    if reached < |sync| then Copies(moves) + sync[..reached] else Script(moves, source, dest)
  }

  lemma CutSync(n: Node, moves: seq<Move>, source: nat, dest: nat, reached: nat)
    ensures
      var sync, c := [Flush(dest)] + Entries(moves, dest), Exec(n, Copies(moves));
      var tail := Frees(moves) + ([Flush(source)] + Unpublishes(moves));
      if reached < |sync| then Exec(n, Reached(moves, source, dest, reached)) == Exec(c, sync[..reached])
      else Exec(n, Reached(moves, source, dest, reached)) == Exec(Exec(c, sync), tail)
  {
    var sync := [Flush(dest)] + Entries(moves, dest);
    var tail := Frees(moves) + ([Flush(source)] + Unpublishes(moves));
    if reached < |sync| {
      ExecConcat(n, Copies(moves), sync[..reached]);
    } else {
      ExecConcat(n, Copies(moves), sync);
      ExecConcat(n, Copies(moves) + sync, tail);
    }
  }

  /** The source's slots: those to be tried, and those moved or failed. */
  ghost predicate StillOn(n: Node, source: nat, left: set<Slot>, moves: seq<Move>, failed: set<Slot>) {
    && (forall s <- left :: s in n.mem && s.slab == source && s !in failed && !IsFrom(moves, s))
    && (forall s <- n.mem :: s.slab == source ==> s in left || IsFrom(moves, s) || s in failed)
  }

  /** Slots that can be given to copies. */
  ghost predicate Spare(n: Node, source: nat, told: seq<Option<Slot>>) {
    && (forall i :: 0 <= i < |told| && told[i].Some? ==> told[i].value !in n.mem && told[i].value.slab != source)
    && (forall i, j :: 0 <= i < j < |told| && told[i].Some? ==> told[i] != told[j])
  }

  ghost predicate AllTold(moves: seq<Move>, told: seq<Option<Slot>>) {
    forall m <- moves :: Some(m.to) in told
  }

  lemma OneFailed(n: Node, source: nat, left: set<Slot>, moves: seq<Move>, failed: set<Slot>, s: Slot,
        told: seq<Option<Slot>>, k: nat)
    requires StillOn(n, source, left, moves, failed) && s in left && k < |told| && AllTold(moves, told[..k])
    ensures AllTold(moves, told[..k + 1]) && StillOn(n, source, left - {s}, moves, failed + {s})
  {
    assert told[..k + 1] == told[..k] + [told[k]];
  }

  lemma OneMoved(n: Node, source: nat, left: set<Slot>, moves: seq<Move>, failed: set<Slot>, s: Slot,
        told: seq<Option<Slot>>, k: nat)
    requires Movable(n, moves, source) && StillOn(n, source, left, moves, failed) && s in left
    requires Spare(n, source, told) && k < |told| && told[k].Some? && AllTold(moves, told[..k])
    ensures
      var m := Move(s, told[k].value);
      && Movable(n, moves + [m], source) && AllTold(moves + [m], told[..k + 1])
      && StillOn(n, source, left - {s}, moves + [m], failed)
      && Exec(n, Copies(moves + [m])) == Do(Exec(n, Copies(moves)), Copy(m.from, m.to))
  {
    assert told[..k + 1] == told[..k] + [told[k]];
    OneMoreMove(n, moves, source, Move(s, told[k].value), told, k);
  }

  lemma OneMoreMove(n: Node, moves: seq<Move>, source: nat, m: Move, told: seq<Option<Slot>>, k: nat)
    requires Movable(n, moves, source) && Spare(n, source, told) && k < |told| && told[k] == Some(m.to)
    requires m.from in n.mem && m.from.slab == source && !IsFrom(moves, m.from) && AllTold(moves, told[..k])
    ensures Movable(n, moves + [m], source) && Exec(n, Copies(moves + [m])) ==
      Do(Exec(n, Copies(moves)), Copy(m.from, m.to))
    ensures forall s :: IsFrom(moves + [m], s) <==> IsFrom(moves, s) || s == m.from
  {
    var more := moves + [m];
    assert Copies(more)[..|moves|] == Copies(moves);
    forall i | 0 <= i < |moves|
      ensures moves[i].from != m.from && moves[i].to != m.to
    {
      assert moves[i] in moves && Some(moves[i].to) in told[..k];
    }
    assert more[..|more|] == more && more[..|moves|] == moves;
    FromMore(more, |more|);
  }
}
