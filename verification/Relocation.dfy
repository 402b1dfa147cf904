/** Moving legs without losing them (src/rebuild.rs:445-479, src/drain.rs:137-151,
    src/placement/mod.rs:794-951, src/volume/mod.rs:3750-3842): copy, rewrite the map, owe the old
    slot, make the map durable, and only then free it. Several movers run at once, and the power
    may go between any two steps; a restart reconciles the records on disk with the slot tables. */
module Relocation {
  import opened Restart

  /** What a map has an entry for: an extent of one leg, one leg of a mirrored extent, or an extent
      that maps an ancestor's slot. */
  datatype Key = Own(e: Extent) | Leg(e: Extent, leg: nat) | Share(e: Extent)

  type Data = nat
  type Mover = nat

  predicate Kind(k: Key) {
    k.Leg? <==> k.e.volume.mirrored
  }

  /** A source slot no map names any more: owed by the mover that emptied it, being paid by the
      persist under way, or due to be freed. */
  datatype Debt = Owed(who: Mover) | Paying(who: Mover) | Due(who: Mover)

  /** A persist under way: the records it took, their generation, and whether the slabs were
      flushed since. */
  datatype Flight = Flight(gen: nat, records: map<Key, Slot>, synced: bool)

  /** `mem` and `table` are the slot tables in memory and on disk; `live` and `disk` the extent
      maps; `last` the generation of the newest records that were marked written; `moving` the
      copies under way, source to destination; `saved` what each slot on record holds; `kin` each
      volume's ancestors. */
  datatype Pool = Pool(
    mem: Table,
    table: Table,
    content: map<Slot, Data>,
    live: map<Key, Slot>,
    disk: map<Key, Slot>,
    last: nat,
    gen: nat,
    moving: map<Slot, Slot>,
    debt: map<Slot, Debt>,
    flights: map<Mover, Flight>,
    saved: map<Key, Data>,
    kin: map<Volume, set<Volume>>)

  /** How a persist ends (src/volume/mod.rs:3777-3842): newer records were marked written before it
      had its turn, and it answers that all is well; a flush or the store's file failed; or the
      copies of `part` were written, the rest failed, and it marked itself written either way. Only
      when nothing failed does it say so. */
  datatype Ending = Skipped | Refused | Wrote(part: set<Extent>, ok: bool)
  {
    predicate Ok() {
      Skipped? || (Wrote? && ok)
    }
  }

  datatype Step =
    | Create(key: Key, slot: Slot, data: Data, since: nat)
    | Clone(of: Key, key: Key)
    | Write(key: Key, data: Data)
    | BeginMove(from: Slot, to: Slot)
    | GiveBack(from: Slot)
    | Publish(who: Mover, from: Slot)
    | PersistBegin(who: Mover, pay: set<Slot>)
    | Sync(who: Mover)
    | PersistEnd(who: Mover, how: Ending)
    | Release(slot: Slot)
    | TableEntry(slot: Slot)
    | Crash(known: set<Volume>, sealed: set<Volume>)

  ghost predicate Unnamed(m: map<Key, Slot>, s: Slot) {
    forall k <- m :: m[k] != s
  }

  /** Neither allocated nor still so on disk: a freed slot is taken again only once its free entry
      is durable. */
  predicate Fresh(p: Pool, s: Slot) {
    s !in p.mem && s !in p.table
  }

  /** A copy under way has no entry on disk yet. */
  predicate Copying(p: Pool, s: Slot) {
    exists from <- p.moving :: p.moving[from] == s
  }

  ghost predicate Enabled(p: Pool, a: Step) {
    match a
    case Create(key, slot, _, _) =>
      && Kind(key) && !key.Share? && key !in p.live && Fresh(p, slot)
      && (key.Own? ==> Share(key.e) !in p.live && Share(key.e) !in p.disk)
      && (key.Leg? && key.leg > 0 ==> Leg(key.e, key.leg - 1) in p.live)
    case Clone(of, key) => Clonable(p, of, key)
    // Written in place: no other map shares the slot, and no copy of it is under way.
    case Write(key, _) => key in p.live && p.live[key] !in p.moving && Alone(p, key)
    case BeginMove(from, to) => !Unnamed(p.live, from) && from !in p.moving && Fresh(p, to) && Moves(p, from)
    case GiveBack(from) => from in p.moving
    // Published only if the extent still names the source.
    case Publish(_, from) => from in p.moving && from in p.mem && p.moving[from] in p.mem && !Unnamed(p.live, from)
    case PersistBegin(who, pay) => who !in p.flights && forall s <- pay :: s in p.debt && p.debt[s] == Owed(who)
    case Sync(who) => who in p.flights
    case PersistEnd(who, how) => who in p.flights && Ends(p.flights[who], p.last, how)
    case Release(slot) => slot in p.debt && p.debt[slot].Due?
    case TableEntry(_) => true
    case Crash(_, _) => true
  }

  /** A volume's extents are shared with a new one's, which has none of them yet. */
  ghost predicate Clonable(p: Pool, of: Key, key: Key) {
    && !of.Leg? && of in p.live && p.live[of] in p.mem && key.Share? && Kind(key)
    && key.e.index == of.e.index && key.e.volume != of.e.volume
    && (forall k <- p.live :: k.e != key.e) && (forall k <- p.disk :: k.e != key.e)
    && (forall who <- p.flights, k <- p.flights[who].records :: k.e != key.e)
    && (forall s <- p.mem :: p.mem[s].of != key.e) && (forall s <- p.table :: p.table[s].of != key.e)
  }

  ghost predicate Alone(p: Pool, key: Key)
    requires key in p.live
  {
    && p.live[key] in p.mem && p.mem[p.live[key]].refs == 1
    && (forall k <- p.live :: p.live[k] == p.live[key] ==> k == key)
  }

  /** The slot of an extent of one leg is moved while the map it is recorded as names it. */
  ghost predicate Moves(p: Pool, from: Slot) {
    from in p.mem &&
    var e := p.mem[from].of;
    !e.volume.mirrored ==> Own(e) in p.live && p.live[Own(e)] == from
  }

  /** Only flushed records are written, and never over newer ones. */
  predicate Ends(f: Flight, last: nat, how: Ending) {
    && (how.Skipped? ==> f.synced && last > f.gen)
    && (how.Wrote? ==> f.synced && last <= f.gen && (how.ok ==> Whole(f, how.part)))
  }

  predicate Whole(f: Flight, part: set<Extent>) {
    forall k <- f.records :: k.e in part
  }

  /** Every map that named the old slot names the new one. */
  function Rewrite(m: map<Key, Slot>, from: Slot, to: Slot): map<Key, Slot> {
    map k | k in m :: if m[k] == from then to else m[k]
  }

  function Settle(debt: map<Slot, Debt>, was: Debt, now: Debt): map<Slot, Debt> {
    map s | s in debt :: if debt[s] == was then now else debt[s]
  }

  function Forget(debt: map<Slot, Debt>, was: Debt): map<Slot, Debt> {
    map s | s in debt && debt[s] != was :: debt[s]
  }

  /** What is on disk once the new records of `part` are; all of them replace what was there. */
  function Merged<V>(was: map<Key, V>, now: map<Key, V>, part: set<Extent>): map<Key, V> {
    if forall k <- now :: k.e in part then now else
    map k | k in was.Keys + now.Keys && (if k.e in part then k in now else k in was) ::
      if k.e in part then now[k] else was[k]
  }

  ghost predicate Within(m: map<Key, Slot>, slots: set<Slot>) {
    forall k <- m :: m[k] in slots
  }

  /** Allocated slots and slots of records taken are real ones. */
  ghost predicate Formed(p: Pool) {
    && p.mem.Keys <= p.content.Keys && p.table.Keys <= p.content.Keys
    && Within(p.live, p.mem.Keys)
    && (forall who <- p.flights :: Held(p, p.flights[who].records))
  }

  ghost predicate Held(p: Pool, m: map<Key, Slot>) {
    forall k <- m :: m[k] in p.content
  }

  function Read(p: Pool, m: map<Key, Slot>): map<Key, Data>
    requires Held(p, m)
  {
    map k | k in m :: p.content[m[k]]
  }

  /** The records reach the disk, and are marked written. */
  function Land(p: Pool, f: Flight, part: set<Extent>): Pool
    requires Held(p, f.records)
  {
    p.(disk := Merged(p.disk, f.records, part), last := f.gen, saved := Merged(p.saved, Read(p, f.records), part))
  }

  /** A copy's generation: one more than the extent's where it is the leg read first, the extent's
      where it is a mirror (src/placement/mod.rs:557-578). */
  function GenOfCopy(p: Pool, from: Slot): nat
    requires from in p.mem
  {
    var x := p.mem[from];
    var first := Leg(x.of, 0);
    if first in p.live && p.live[first] != from && p.live[first] in p.mem then p.mem[p.live[first]].gen else x.gen + 1
  }

  function Copied(p: Pool, from: Slot, to: Slot): Pool
    requires from in p.mem && from in p.content
  {
    p.(mem := p.mem[to := Entry(p.mem[from].of, GenOfCopy(p, from), p.mem[from].refs)],
       content := p.content[to := p.content[from]], moving := p.moving[from := to])
  }

  /** Every map names the copy, which takes over how many of them there are; the source is owed. */
  function Published(p: Pool, who: Mover, from: Slot): Pool
    requires from in p.moving && from in p.mem && p.moving[from] in p.mem
  {
    var to := p.moving[from];
    p.(live := Rewrite(p.live, from, to), moving := p.moving - {from}, debt := p.debt[from := Owed(who)],
       mem := p.mem[to := p.mem[to].(refs := p.mem[from].refs)])
  }

  function Begun(p: Pool, who: Mover, pay: set<Slot>): Pool {
    p.(gen := p.gen + 1,
       flights := p.flights[who := Flight(p.gen + 1, p.live, false)],
       debt := map s | s in p.debt :: if s in pay then Paying(who) else p.debt[s])
  }

  /** A flush writes the entries of all slots but those of copies under way. */
  function Flushed(p: Pool): Table {
    map s | s in p.mem && !Copying(p, s) :: p.mem[s]
  }

  function Synced(p: Pool, who: Mover): Pool
    requires who in p.flights
  {
    p.(table := Flushed(p), flights := p.flights[who := p.flights[who].(synced := true)])
  }

  ghost function Do(p: Pool, a: Step): Pool
    requires Formed(p) && Enabled(p, a)
  {
    match a
    case Create(key, slot, data, since) =>
      p.(mem := p.mem[slot := Entry(key.e, since, 1)], content := p.content[slot := data], live := p.live[key := slot])
    case Clone(of, key) => Cloned(p, of, key)
    case Write(key, data) => Written(p, p.live[key], data)
    case BeginMove(from, to) => Copied(p, from, to)
    case GiveBack(from) =>
      p.(mem := p.mem - {p.moving[from]}, moving := p.moving - {from})
    case Publish(who, from) => Published(p, who, from)
    case PersistBegin(who, pay) => Begun(p, who, pay)
    case Sync(who) => Synced(p, who)
    case PersistEnd(who, how) => End(p, who, how)
    case Release(slot) => Released(p, slot)
    case TableEntry(slot) => p.(table := Entered(p, slot))
    case Crash(known, sealed) =>
      p.(mem := p.table, live := Restored(p, known, sealed), last := 0, gen := 0,
         moving := map[], debt := map[], flights := map[])
  }

  function Released(p: Pool, slot: Slot): Pool {
    p.(mem := p.mem - {slot}, debt := p.debt - {slot})
  }

  function Cloned(p: Pool, of: Key, key: Key): Pool
    requires of in p.live && p.live[of] in p.mem
  {
    var s := p.live[of];
    var kin := Kin(p.kin, key.e.volume) + Kin(p.kin, of.e.volume) + {p.mem[s].of.volume};
    p.(live := p.live[key := s], mem := p.mem[s := p.mem[s].(refs := p.mem[s].refs + 1)],
       kin := p.kin[key.e.volume := kin])
  }

  /** Bytes written into a slot in place. */
  function Written(p: Pool, s: Slot, data: Data): Pool {
    p.(content := p.content[s := data],
       saved := map k | k in p.saved :: if k in p.disk && p.disk[k] == s then data else p.saved[k])
  }

  /** One slot's entry reaches the disk on its own; a copy under way has none. */
  function Entered(p: Pool, s: Slot): Table {
    if Copying(p, s) then p.table else if s in p.mem then p.table[s := p.mem[s]] else p.table - {s}
  }

  /** Freed only on a checked success; otherwise the slots stay allocated. */
  function End(p: Pool, who: Mover, how: Ending): Pool
    requires Formed(p) && who in p.flights
  {
    var landed := if how.Wrote? then Land(p, p.flights[who], how.part) else p;
    landed.(flights := p.flights - {who},
            debt := if how.Ok() then Settle(p.debt, Paying(who), Due(who)) else Forget(p.debt, Paying(who)))
  }

  // ---------------------------------------------------------------- the map after a restart

  /** The legs a map has for an extent. */
  function LegsFrom(m: map<Key, Slot>, e: Extent, j: nat): seq<Slot>
    decreases |m.Keys| - j
  {
    if Leg(e, j) in m && j < |m.Keys| then [m[Leg(e, j)]] + LegsFrom(m, e, j + 1) else []
  }

  function RecordOf(m: map<Key, Slot>, e: Extent): seq<Slot> {
    if e.volume.mirrored then LegsFrom(m, e, 0)
    else if Share(e) in m then [m[Share(e)]]
    else if Own(e) in m then [m[Own(e)]]
    else []
  }

  function WorldOf(p: Pool, known: set<Volume>, sealed: set<Volume>): World {
    World(known, sealed, p.kin)
  }

  ghost function Found(p: Pool, known: set<Volume>, sealed: set<Volume>, e: Extent): seq<Slot> {
    Located(WorldOf(p, known, sealed), p.table, e, RecordOf(p.disk, e))
  }

  /** The kinds of entry an extent comes back with. */
  predicate Comes(p: Pool, k: Key) {
    Kind(k) && (k.Own? ==> Share(k.e) !in p.disk) && (k.Share? ==> k in p.disk)
  }

  function Rank(k: Key): nat {
    if k.Leg? then k.leg else 0
  }

  /** Every key an extent on record, or in a table, may come back with. */
  function Candidates(p: Pool): set<Key> {
    p.disk.Keys + (set s | s in p.table :: Own(p.table[s].of)) +
    (set s, j | s in p.table && 0 <= j < |p.table| :: Leg(p.table[s].of, j))
  }

  ghost function Restored(p: Pool, known: set<Volume>, sealed: set<Volume>): map<Key, Slot> {
    map k | k in Candidates(p) && Comes(p, k) && Rank(k) < |Found(p, known, sealed, k.e)| ::
      Found(p, known, sealed, k.e)[Rank(k)]
  }

  // ---------------------------------------------------------------- whole runs

  /** No record that a restart goes by names the slot. What is on record of an extent of one leg is
      not asked: the newest of its entries is. */
  ghost predicate Unrecorded(m: map<Key, Slot>, s: Slot) {
    forall k <- m :: !k.Own? ==> m[k] != s
  }

  /** Every such record on disk that names the slot is replaced by what is written. */
  ghost predicate Replaced(p: Pool, f: Flight, part: set<Extent>, s: Slot) {
    Whole(f, part) || forall k <- p.disk :: !k.Own? && p.disk[k] == s ==> k.e in part
  }

  /** An older persist, still under way, is paying for the slot. */
  ghost predicate Older(p: Pool, who: Mover, s: Slot)
    requires who in p.flights
  {
    && s in p.debt && p.debt[s].Paying? && p.debt[s].who in p.flights
    && p.flights[p.debt[s].who].gen < p.flights[who].gen
  }

  /** A persist marked written makes every older one still under way answer that all is well. So it
      must replace every record that names a slot an older one is paying for. */
  ghost predicate Covers(p: Pool, who: Mover, part: set<Extent>)
    requires who in p.flights
  {
    forall s <- p.debt :: Older(p, who, s) ==> Replaced(p, p.flights[who], part, s)
  }

  /** The one hypothesis runs are under: no persist fails part-way while an older one relies on it. */
  ghost predicate Clear(p: Pool, a: Step) {
    a.PersistEnd? && a.how.Wrote? && a.who in p.flights ==> Covers(p, a.who, a.how.part)
  }

  ghost function Run(p: Pool, h: seq<Step>): Pool
    requires Legal(p, h)
    decreases |h|, 1
  {
    if h == [] then p else Do(Run(p, h[..|h| - 1]), h[|h| - 1])
  }

  /** Every step was possible when it was taken, and none broke the hypothesis. */
  ghost predicate Legal(p: Pool, h: seq<Step>)
    decreases |h|, 0
  {
    h == [] ||
    (Legal(p, h[..|h| - 1]) &&
     var q, a := Run(p, h[..|h| - 1]), h[|h| - 1];
     Formed(q) && Enabled(q, a) && Clear(q, a))
  }

  lemma OneStep(p: Pool, h: seq<Step>, a: Step)
    requires Legal(p, h) && Formed(Run(p, h)) && Enabled(Run(p, h), a) && Clear(Run(p, h), a)
    ensures Legal(p, h + [a]) && Run(p, h + [a]) == Do(Run(p, h), a)
  {
    assert (h + [a])[..|h|] == h;
  }

  lemma One(p: Pool, a: Step)
    requires Formed(p) && Enabled(p, a) && Clear(p, a)
    ensures Legal(p, [a]) && Run(p, [a]) == Do(p, a)
  {
    assert Run(p, []) == p;
    OneStep(p, [], a);
    assert [] + [a] == [a];
  }

  lemma Two(p: Pool, a: Step, b: Step)
    requires Formed(p) && Enabled(p, a) && Clear(p, a)
    requires Formed(Do(p, a)) && Enabled(Do(p, a), b) && Clear(Do(p, a), b)
    ensures Legal(p, [a, b]) && Run(p, [a, b]) == Do(Do(p, a), b)
  {
    One(p, a);
    OneStep(p, [a], b);
    assert [a] + [b] == [a, b];
  }

  lemma {:induction false} RunConcat(p: Pool, a: seq<Step>, b: seq<Step>)
    requires Legal(p, a) && Legal(Run(p, a), b)
    ensures Legal(p, a + b) && Run(p, a + b) == Run(Run(p, a), b)
  {
    if b == [] {
      assert a + b == a;
    } else {
      assert (a + b)[..|a + b| - 1] == a + b[..|b| - 1];
      RunConcat(p, a, b[..|b| - 1]);
    }
  }

  /** A node with nothing stored. */
  function Empty(content: map<Slot, Data>): Pool {
    Pool(map[], map[], content, map[], map[], 0, 0, map[], map[], map[], map[], map[])
  }
}
