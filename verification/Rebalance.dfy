/** Planning a pool's rebalance and running the plan (src/rebalance.rs:117-242, 382-424): slabs
    too far above the pool's mean fill give extents to slabs below it, without putting two legs
    of one extent where they fail together. */
module Rebalance {
  import opened Arithmetic
  import opened Options

  type SlabId = nat
  type VolumeId = nat
  datatype Leg = Leg(slab: SlabId, slot: nat)
  datatype Extent = Extent(volume: VolumeId, index: nat)
  datatype Item = Item(ext: Extent, legs: seq<Leg>)
  datatype Move = Move(ext: Extent, from: SlabId, to: SlabId)

  datatype Label = Label(rung: string, value: string)
  /** A failure domain: labels from the widest blast radius to the narrowest. */
  type Domain = seq<Label>

  /** What a plan reads: the extents in the order the maps are walked, each slab's domain, the
      rung each volume is spread at, and the volumes whose extents stay (parity, kept on one
      drive, or placed on request). */
  datatype Node = Node(walk: seq<Item>, domains: map<SlabId, Domain>, spread: map<VolumeId, string>,
        pinned: set<VolumeId>)

  /** Slabs of one role and slot size. */
  datatype Pool = Pool(ids: seq<SlabId>, total: map<SlabId, nat>, free: map<SlabId, nat>) {
    ghost predicate Formed() {
      && (forall i, j :: 0 <= i < j < |ids| ==> ids[i] != ids[j])
      && (forall id <- ids :: id in total && id in free)
    }
  }

  datatype Picture = Picture(
    used: map<SlabId, nat>,
    seen: set<Leg>,
    placed: map<Extent, seq<SlabId>>,
    list: seq<Move>,
    left: nat)

  // ---------------------------------------------------------------- where legs may go

  function KeyAt(d: Domain, rung: string): Domain {
    if d == [] then [] else if d[0].rung == rung then [d[0]] else [d[0]] + KeyAt(d[1..], rung)
  }

  /** Two domains fail together at a rung; unknown ones may. */
  predicate SameAt(a: Domain, b: Domain, rung: string) {
    KeyAt(a, rung) == [] || KeyAt(b, rung) == [] || KeyAt(a, rung) == KeyAt(b, rung)
  }

  /** The first `k` labels of the two domains agree, and either the last of them is the rung's and
      no other is, or they are all the labels there are and none is the rung's. */
  ghost predicate AgreeTo(a: Domain, b: Domain, rung: string, k: nat) {
    && 0 < k <= |a| && k <= |b| && a[..k] == b[..k]
    && (forall i :: 0 <= i < k - 1 ==> a[i].rung != rung)
    && (a[k - 1].rung == rung || k == |a| == |b|)
  }

  lemma {:induction false} KeyAtIs(d: Domain, rung: string)
    ensures KeyAt(d, rung) <= d && (d != [] ==> KeyAt(d, rung) != [])
    ensures
      var k := |KeyAt(d, rung)|;
      (forall i :: 0 <= i < k - 1 ==> d[i].rung != rung) && (k < |d| ==> d[k - 1].rung == rung)
  {
    if d != [] && d[0].rung != rung {
      KeyAtIs(d[1..], rung);
      assert d == [d[0]] + d[1..];
    }
  }

  /** Two known domains fail together at a rung exactly when they agree from the widest label down
      to it. */
  lemma SameAtIff(a: Domain, b: Domain, rung: string)
    ensures SameAt(a, b, rung) <==> a == [] || b == [] || exists k :: AgreeTo(a, b, rung, k)
  {
    KeyAtIs(a, rung);
    KeyAtIs(b, rung);
    var j, k := |KeyAt(a, rung)|, |KeyAt(b, rung)|;
    if a != [] && b != [] {
      if SameAt(a, b, rung) {
        assert a[..j] == KeyAt(a, rung) == KeyAt(b, rung) == b[..j];
        if a[j - 1].rung != rung {
          assert b[j - 1] == a[..j][j - 1];
        }
        assert AgreeTo(a, b, rung, j);
      }
      if m: nat :| AgreeTo(a, b, rung, m) {
        KeyAgrees(a, b, rung, m);
      }
    }
  }

  lemma KeyAgrees(a: Domain, b: Domain, rung: string, m: nat)
    requires AgreeTo(a, b, rung, m)
    ensures KeyAt(a, rung) == a[..m] && KeyAt(b, rung) == b[..m]
  {
    KeyAtIs(a, rung);
    KeyAtIs(b, rung);
    assert forall i :: 0 <= i < m ==> b[i] == b[..m][i] == a[i];
    KeyLength(a, rung, m);
    KeyLength(b, rung, m);
  }

  lemma KeyLength(d: Domain, rung: string, m: nat)
    requires 0 < m <= |d| && (forall i :: 0 <= i < m - 1 ==> d[i].rung != rung)
    requires d[m - 1].rung == rung || m == |d|
    ensures KeyAt(d, rung) == d[..m]
  {
    KeyAtIs(d, rung);
    var k := |KeyAt(d, rung)|;
    assert KeyAt(d, rung) == d[..k];
    assert k == m;
  }

  function DomainOf(n: Node, id: SlabId): Domain {
    if id in n.domains then n.domains[id] else []
  }

  /** A slab nobody knows the place of constrains nothing. */
  predicate Apart(n: Node, id: SlabId, other: SlabId, rung: string) {
    DomainOf(n, other) == [] || !SameAt(DomainOf(n, id), DomainOf(n, other), rung)
  }

  function RungOf(n: Node, volume: VolumeId): string {
    if volume in n.spread then n.spread[volume] else "drive"
  }

  function LegOn(legs: seq<Leg>, slab: SlabId): (r: Option<Leg>)
    ensures r.Some? ==> r.value in legs && r.value.slab == slab
    ensures r.None? ==> forall l <- legs :: l.slab != slab
  {
    if legs == [] then None else if legs[0].slab == slab then Some(legs[0]) else LegOn(legs[1..], slab)
  }

  function SlabsOf(legs: seq<Leg>): (r: seq<SlabId>)
    ensures |r| == |legs|
  {
    seq(|legs|, i requires 0 <= i < |legs| => legs[i].slab)
  }

  function Swap<T(==)>(s: seq<T>, from: T, to: T): (r: seq<T>)
    ensures |r| == |s|
    ensures forall i :: 0 <= i < |r| ==> r[i] == if s[i] == from then to else s[i]
  {
    seq(|s|, i requires 0 <= i < |s| => if s[i] == from then to else s[i])
  }

  /** The extents with a leg on a slab, one per slot, under the map walked first. */
  function ExtentsOn(walk: seq<Item>, slab: SlabId): (r: seq<Item>)
    ensures forall it <- r :: it in walk && LegOn(it.legs, slab).Some?
  {
    if walk == [] then [] else
    var r := ExtentsOn(walk[..|walk| - 1], slab);
    var it := walk[|walk| - 1];
    var leg := LegOn(it.legs, slab);
    if leg.Some? && forall o <- r :: LegOn(o.legs, slab) != leg then r + [it] else r
  }

  // ---------------------------------------------------------------- fills and targets

  function Sum(ids: seq<SlabId>, m: map<SlabId, nat>): nat
    requires forall id <- ids :: id in m
  {
    if ids == [] then 0 else Sum(ids[..|ids| - 1], m) + m[ids[|ids| - 1]]
  }

  function Dist(a: nat, b: nat): nat {
    if a < b then b - a else a - b
  }

  /** How far the pool is from its targets. */
  ghost function Gap(ids: seq<SlabId>, used: map<SlabId, nat>, target: map<SlabId, nat>): nat
    requires forall id <- ids :: id in used && id in target
  {
    if ids == [] then 0 else
    var id := ids[|ids| - 1];
    Gap(ids[..|ids| - 1], used, target) + Dist(used[id], target[id])
  }

  function UsedOf(p: Pool): (m: map<SlabId, nat>)
    requires p.Formed()
    ensures forall id <- p.ids :: id in m && m[id] <= p.total[id]
  {
    map id | id in p.ids :: if p.free[id] < p.total[id] then p.total[id] - p.free[id] else 0
  }

  function Ceil(a: nat, b: nat): (q: nat)
    ensures b > 0 ==> (q - 1) * b < a <= q * b
  {
    if b == 0 then 0 else CeilIs(a, b); (a + b - 1) / b
  }

  lemma CeilIs(a: nat, b: nat)
    requires b > 0
    ensures ((a + b - 1) / b - 1) * b < a <= (a + b - 1) / b * b
  {
    var q := (a + b - 1) / b;
    assert q * b <= a + b - 1 < q * b + b;
    assert (q - 1) * b == q * b - b;
  }

  /** Each slab's share of the pool's fill, rounded up. */
  function TargetsOf(p: Pool): (m: map<SlabId, nat>)
    requires p.Formed()
    ensures forall id <- p.ids :: id in m
  {
    var u, t := Sum(p.ids, UsedOf(p)), Sum(p.ids, p.total);
    map id | id in p.ids :: Ceil(u * p.total[id], t)
  }

  /** Slots a slab may be above its target before it gives any away. */
  function Slack(total: nat): nat {
    if total / 100 < 1 then 1 else total / 100
  }

  function Over(p: Pool, ids: seq<SlabId>): (r: seq<SlabId>)
    requires p.Formed() && forall id <- ids :: id in p.ids
    ensures forall id <- r :: id in ids && UsedOf(p)[id] > TargetsOf(p)[id] + Slack(p.total[id])
  {
    if ids == [] then [] else
    var r := Over(p, ids[..|ids| - 1]);
    var id := ids[|ids| - 1];
    if UsedOf(p)[id] > TargetsOf(p)[id] + Slack(p.total[id]) then r + [id] else r
  }

  function Fill(used: nat, total: nat): real {
    if total == 0 then 1.0 else used as real / total as real
  }

  // ---------------------------------------------------------------- one extent

  /** A slab below its target that keeps the extent's legs apart. */
  predicate Fits(n: Node, used: map<SlabId, nat>, target: map<SlabId, nat>, legs: seq<SlabId>, src: SlabId,
        rung: string, id: SlabId)
    requires id in used && id in target
  {
    && id != src && id !in legs && used[id] < target[id]
    && forall o <- legs :: o != src ==> Apart(n, id, o, rung)
  }

  /** The emptiest that fits, the first of equals. */
  function Best(n: Node, p: Pool, used: map<SlabId, nat>, target: map<SlabId, nat>, legs: seq<SlabId>, src: SlabId,
        rung: string, ids: seq<SlabId>): (to: Option<SlabId>)
    requires forall id <- ids :: id in used && id in target && id in p.total
    ensures to.Some? ==> to.value in ids
  {
    if ids == [] then None else
    var id := ids[|ids| - 1];
    var b := Best(n, p, used, target, legs, src, rung, ids[..|ids| - 1]);
    if Fits(n, used, target, legs, src, rung, id) &&
       (b.None? || Fill(used[id], p.total[id]) < Fill(used[b.value], p.total[b.value])) then Some(id) else b
  }

  lemma {:induction false} BestIsTheEmptiestThatFits(n: Node, p: Pool, used: map<SlabId, nat>,
        target: map<SlabId, nat>, legs: seq<SlabId>, src: SlabId, rung: string, ids: seq<SlabId>)
    requires forall id <- ids :: id in used && id in target && id in p.total
    ensures
      var to := Best(n, p, used, target, legs, src, rung, ids);
      && (to.None? <==> forall id <- ids :: !Fits(n, used, target, legs, src, rung, id))
      && (to.Some? ==>
            && Fits(n, used, target, legs, src, rung, to.value)
            && forall id <- ids :: Fits(n, used, target, legs, src, rung, id) ==>
                 Fill(used[to.value], p.total[to.value]) <= Fill(used[id], p.total[id]))
  {
    if ids != [] {
      BestIsTheEmptiestThatFits(n, p, used, target, legs, src, rung, ids[..|ids| - 1]);
      assert ids == ids[..|ids| - 1] + [ids[|ids| - 1]];
    }
  }

  /** Where an extent's legs will be once the moves planned so far are made. */
  function Placed(s: Picture, it: Item): seq<SlabId> {
    if it.ext in s.placed then s.placed[it.ext] else SlabsOf(it.legs)
  }

  predicate Stops(p: Pool, max: nat, s: Picture, src: SlabId)
    requires p.Formed() && src in p.ids && src in s.used
  {
    |s.list| >= max || s.used[src] <= TargetsOf(p)[src]
  }

  function Consider(n: Node, p: Pool, max: nat, s: Picture, src: SlabId, it: Item): (t: Picture)
    requires p.Formed() && src in p.ids && forall id <- p.ids :: id in s.used
    ensures forall id <- p.ids :: id in t.used
  {
    var leg := LegOn(it.legs, src);
    if Stops(p, max, s, src) || leg.None? || leg.value in s.seen then s else
    var t := s.(seen := s.seen + {leg.value});
    if it.ext.volume in n.pinned then t.(left := t.left + 1) else
    PlaceFor(n, p, TargetsOf(p), t, src, it)
  }

  /** The extent's leg planned onto the best slab, or left. */
  function PlaceFor(n: Node, p: Pool, target: map<SlabId, nat>, t: Picture, src: SlabId, it: Item): (r: Picture)
    requires src in p.ids && (forall id <- p.ids :: id in t.used && id in target && id in p.total) && t.used[src] > 0
    ensures forall id <- p.ids :: id in r.used
  {
    var legs := Placed(t, it);
    var to := Best(n, p, t.used, target, legs, src, RungOf(n, it.ext.volume), p.ids);
    if to.None? then t.(placed := t.placed[it.ext := legs], left := t.left + 1) else
    t.(placed := t.placed[it.ext := Swap(legs, src, to.value)],
       used := t.used[src := t.used[src] - 1][to.value := t.used[to.value] + 1],
       list := t.list + [Move(it.ext, src, to.value)])
  }

  function Scan(n: Node, p: Pool, max: nat, s: Picture, src: SlabId, items: seq<Item>): (t: Picture)
    requires p.Formed() && src in p.ids && forall id <- p.ids :: id in s.used
    ensures forall id <- p.ids :: id in t.used
  {
    if items == [] then s else
    Consider(n, p, max, Scan(n, p, max, s, src, items[..|items| - 1]), src, items[|items| - 1])
  }

  function ScanAll(n: Node, p: Pool, max: nat, s: Picture, srcs: seq<SlabId>): (t: Picture)
    requires p.Formed() && (forall src <- srcs :: src in p.ids) && forall id <- p.ids :: id in s.used
    ensures forall id <- p.ids :: id in t.used
  {
    if srcs == [] then s else
    var src := srcs[|srcs| - 1];
    Scan(n, p, max, ScanAll(n, p, max, s, srcs[..|srcs| - 1]), src, ExtentsOn(n.walk, src))
  }

  function First(p: Pool, list: seq<Move>, left: nat): Picture
    requires p.Formed()
  {
    Picture(UsedOf(p), {}, map[], list, left)
  }

  /** The plan of one pool, added to the list so far. */
  function PlanOf(n: Node, p: Pool, max: nat, list: seq<Move>, left: nat): Picture
    requires p.Formed()
  {
    if |p.ids| < 2 then First(p, list, left) else
    ScanAll(n, p, max, First(p, list, left), Over(p, p.ids))
  }

  // ---------------------------------------------------------------- slots, targets and the gap

  lemma {:induction false} SumWith(ids: seq<SlabId>, m: map<SlabId, nat>, id: SlabId, v: nat)
    requires (forall k <- ids :: k in m) && id in m && forall i, j :: 0 <= i < j < |ids| ==> ids[i] != ids[j]
    ensures Sum(ids, m[id := v]) == Sum(ids, m) + if id in ids then v - m[id] else 0
  {
    if ids != [] {
      SumWith(ids[..|ids| - 1], m, id, v);
      assert ids == ids[..|ids| - 1] + [ids[|ids| - 1]];
      if id == ids[|ids| - 1] {
        assert id !in ids[..|ids| - 1];
      }
    }
  }

  lemma {:induction false} GapWith(ids: seq<SlabId>, m: map<SlabId, nat>, target: map<SlabId, nat>, id: SlabId, v: nat)
    requires (forall k <- ids :: k in m && k in target) && id in m && id in target
    requires forall i, j :: 0 <= i < j < |ids| ==> ids[i] != ids[j]
    ensures Gap(ids, m[id := v], target) == Gap(ids, m, target) + if id in ids
      then Dist(v, target[id]) - Dist(m[id], target[id]) else 0
  {
    if ids != [] {
      GapWith(ids[..|ids| - 1], m, target, id, v);
      assert ids == ids[..|ids| - 1] + [ids[|ids| - 1]];
      if id == ids[|ids| - 1] {
        assert id !in ids[..|ids| - 1];
      }
    }
  }

  lemma {:induction false} SumBound(ids: seq<SlabId>, a: map<SlabId, nat>, b: map<SlabId, nat>)
    requires forall k <- ids :: k in a && k in b && a[k] <= b[k]
    ensures Sum(ids, a) <= Sum(ids, b)
  {
    if ids != [] {
      SumBound(ids[..|ids| - 1], a, b);
    }
  }

  lemma {:induction false} SumHas(ids: seq<SlabId>, m: map<SlabId, nat>, id: SlabId)
    requires id in ids && forall k <- ids :: k in m
    ensures m[id] <= Sum(ids, m)
  {
    if id != ids[|ids| - 1] {
      assert ids == ids[..|ids| - 1] + [ids[|ids| - 1]];
      SumHas(ids[..|ids| - 1], m, id);
    }
  }

  lemma CeilFits(u: nat, total: nat, t: nat)
    requires u <= t
    ensures Ceil(u * total, t) <= total
  {
    if t > 0 && Ceil(u * total, t) > 0 {
      MulMonotone(u, t, total);
      assert (Ceil(u * total, t) - 1) * t < total * t;
      if Ceil(u * total, t) > total {
        MulMonotone(total, Ceil(u * total, t) - 1, t);
      }
    }
  }

  /** A target is never more than the slab holds. */
  lemma TargetsFit(p: Pool, id: SlabId)
    requires p.Formed() && id in p.ids
    ensures TargetsOf(p)[id] <= p.total[id]
  {
    SumBound(p.ids, UsedOf(p), p.total);
    CeilFits(Sum(p.ids, UsedOf(p)), p.total[id], Sum(p.ids, p.total));
  }

  lemma ShareStep(u: nat, a: nat, b: nat, t: nat, total: nat)
    requires u * a <= b * t && (t == 0 ==> total == 0)
    ensures u * (a + total) <= (b + Ceil(u * total, t)) * t
  {
    assert u * total <= Ceil(u * total, t) * t;
    assert u * (a + total) == u * a + u * total;
    assert (b + Ceil(u * total, t)) * t == b * t + Ceil(u * total, t) * t;
  }

  lemma {:induction false} SumsOfTargets(p: Pool, ids: seq<SlabId>)
    requires p.Formed() && forall id <- ids :: id in p.ids
    ensures Sum(p.ids, UsedOf(p)) * Sum(ids, p.total) <= Sum(ids, TargetsOf(p)) * Sum(p.ids, p.total)
  {
    if ids != [] {
      var id, rest := ids[|ids| - 1], ids[..|ids| - 1];
      SumsOfTargets(p, rest);
      SumHas(p.ids, p.total, id);
      ShareStep(Sum(p.ids, UsedOf(p)), Sum(rest, p.total), Sum(rest, TargetsOf(p)), Sum(p.ids, p.total), p.total[id]);
    }
  }

  /** The targets have room for everything the pool holds. */
  lemma TargetsHoldEverything(p: Pool)
    requires p.Formed()
    ensures Sum(p.ids, UsedOf(p)) <= Sum(p.ids, TargetsOf(p))
  {
    SumsOfTargets(p, p.ids);
    SumBound(p.ids, UsedOf(p), p.total);
    if Sum(p.ids, p.total) > 0 {
      MulCancel(Sum(p.ids, UsedOf(p)), Sum(p.ids, TargetsOf(p)), Sum(p.ids, p.total));
    }
  }

  /** Between where it began and where it is going. */
  ghost predicate Between(began: nat, now: nat, target: nat) {
    began <= now <= target || target <= now <= began
  }

  /** What planning keeps: the pool's slots, no slab carried past its target, and each move
      closing the gap by two. */
  ghost predicate Sound(p: Pool, max: nat, from: seq<Move>, s: Picture)
    requires p.Formed()
  {
    && (forall id <- p.ids :: id in s.used && Between(UsedOf(p)[id], s.used[id], TargetsOf(p)[id]))
    && Sum(p.ids, s.used) == Sum(p.ids, UsedOf(p))
    && from <= s.list && (|s.list| <= max || s.list == from)
    && Gap(p.ids, s.used, TargetsOf(p)) + 2 * (|s.list| - |from|) == Gap(p.ids, UsedOf(p), TargetsOf(p))
  }

  lemma MoveCounts(ids: seq<SlabId>, used: map<SlabId, nat>, target: map<SlabId, nat>, src: SlabId, to: SlabId)
    requires (forall k <- ids :: k in used && k in target) && forall i, j :: 0 <= i < j < |ids| ==> ids[i] != ids[j]
    requires src in ids && to in ids && src != to && used[src] > target[src] && used[to] < target[to]
    ensures
      var now := used[src := used[src] - 1][to := used[to] + 1];
      Sum(ids, now) == Sum(ids, used) && Gap(ids, now, target) + 2 == Gap(ids, used, target)
  {
    var lower := used[src := used[src] - 1];
    SumWith(ids, used, src, used[src] - 1);
    SumWith(ids, lower, to, used[to] + 1);
    GapWith(ids, used, target, src, used[src] - 1);
    GapWith(ids, lower, target, to, used[to] + 1);
  }

  lemma BestFits(n: Node, p: Pool, used: map<SlabId, nat>, target: map<SlabId, nat>, legs: seq<SlabId>, src: SlabId,
        rung: string)
    requires (forall id <- p.ids :: id in used && id in target && id in p.total)
    requires Best(n, p, used, target, legs, src, rung, p.ids).Some?
    ensures Fits(n, used, target, legs, src, rung, Best(n, p, used, target, legs, src, rung, p.ids).value)
  {
    BestIsTheEmptiestThatFits(n, p, used, target, legs, src, rung, p.ids);
  }

  /** What considering an extent can do: nothing to slots or list, or one move of a leg not seen
      before to a slab that fits. */
  lemma Considered(n: Node, p: Pool, max: nat, s: Picture, src: SlabId, it: Item) returns (to: Option<SlabId>)
    requires p.Formed() && src in p.ids && forall id <- p.ids :: id in s.used
    ensures to.None? ==>
      var t := Consider(n, p, max, s, src, it);
      t.used == s.used && t.list == s.list && s.seen <= t.seen &&
      (t.placed == s.placed || t.placed == s.placed[it.ext := Placed(s, it)])
    ensures to.Some? ==> to.value in p.ids && MovesTo(n, p, max, s, Consider(n, p, max, s, src, it), src, it, to.value)
  {
    var leg := LegOn(it.legs, src);
    if Stops(p, max, s, src) || leg.None? || leg.value in s.seen || it.ext.volume in n.pinned {
      to := None;
    } else {
      to := PlacedFor(n, p, TargetsOf(p), s.(seen := s.seen + {leg.value}), src, it);
    }
  }

  lemma PlacedFor(n: Node, p: Pool, target: map<SlabId, nat>, t: Picture, src: SlabId, it: Item)
        returns (to: Option<SlabId>)
    requires src in p.ids && (forall id <- p.ids :: id in t.used && id in target && id in p.total) && t.used[src] > 0
    ensures to.None? ==>
      PlaceFor(n, p, target, t, src, it) == t.(placed := t.placed[it.ext := Placed(t, it)], left := t.left + 1)
    ensures to.Some? ==>
      to.value in p.ids && Fits(n, t.used, target, Placed(t, it), src, RungOf(n, it.ext.volume), to.value)
    ensures to.Some? ==>
      PlaceFor(n, p, target, t, src, it) == t.(placed := t.placed[it.ext := Swap(Placed(t, it), src, to.value)],
         used := t.used[src := t.used[src] - 1][to.value := t.used[to.value] + 1],
         list := t.list + [Move(it.ext, src, to.value)])
  {
    to := Best(n, p, t.used, target, Placed(t, it), src, RungOf(n, it.ext.volume), p.ids);
    if to.Some? {
      BestFits(n, p, t.used, target, Placed(t, it), src, RungOf(n, it.ext.volume));
    }
  }

  /** The extent's leg on `src`, not seen before, is planned onto `to`. */
  ghost predicate MovesTo(n: Node, p: Pool, max: nat, s: Picture, t: Picture, src: SlabId, it: Item, to: SlabId)
    requires p.Formed() && src in p.ids && to in p.ids && forall id <- p.ids :: id in s.used
  {
    && LegOn(it.legs, src).Some? && LegOn(it.legs, src).value !in s.seen && it.ext.volume !in n.pinned
    && |s.list| < max && s.used[src] > TargetsOf(p)[src]
    && Best(n, p, s.used, TargetsOf(p), Placed(s, it), src, RungOf(n, it.ext.volume), p.ids) == Some(to)
    && Fits(n, s.used, TargetsOf(p), Placed(s, it), src, RungOf(n, it.ext.volume), to)
    && t.used == s.used[src := s.used[src] - 1][to := s.used[to] + 1]
    && t.list == s.list + [Move(it.ext, src, to)]
    && t.seen == s.seen + {LegOn(it.legs, src).value}
    && t.placed == s.placed[it.ext := Swap(Placed(s, it), src, to)]
  }

  lemma ConsiderSound(n: Node, p: Pool, max: nat, from: seq<Move>, s: Picture, src: SlabId, it: Item)
    requires p.Formed() && src in p.ids && Sound(p, max, from, s)
    ensures Sound(p, max, from, Consider(n, p, max, s, src, it))
  {
    assert forall id <- p.ids :: id in s.used;
    var t := Consider(n, p, max, s, src, it);
    var to := Considered(n, p, max, s, src, it);
    if to.Some? {
      MoveCounts(p.ids, s.used, TargetsOf(p), src, to.value);
      MoveSound(p, max, from, s, t, src, to.value, Move(it.ext, src, to.value));
    } else {
      SameSound(p, max, from, s, t);
    }
  }

  lemma SameSound(p: Pool, max: nat, from: seq<Move>, s: Picture, t: Picture)
    requires p.Formed() && Sound(p, max, from, s) && t.used == s.used && t.list == s.list
    ensures Sound(p, max, from, t)
  {
  }

  lemma MoveSound(p: Pool, max: nat, from: seq<Move>, s: Picture, t: Picture, src: SlabId, to: SlabId, m: Move)
    requires p.Formed() && Sound(p, max, from, s) && src in p.ids && to in p.ids && src != to
    requires s.used[src] > TargetsOf(p)[src] && s.used[to] < TargetsOf(p)[to] && |s.list| < max
    requires t.used == s.used[src := s.used[src] - 1][to := s.used[to] + 1] && t.list == s.list + [m]
    requires Sum(p.ids, t.used) == Sum(p.ids, s.used)
    requires Gap(p.ids, t.used, TargetsOf(p)) + 2 == Gap(p.ids, s.used, TargetsOf(p))
    ensures Sound(p, max, from, t)
  {
    forall id <- p.ids
      ensures id in t.used && Between(UsedOf(p)[id], t.used[id], TargetsOf(p)[id])
    {
      assert Between(UsedOf(p)[id], s.used[id], TargetsOf(p)[id]);
    }
  }

  lemma {:induction false} ScanSound(n: Node, p: Pool, max: nat, from: seq<Move>, s: Picture, src: SlabId,
        items: seq<Item>)
    requires p.Formed() && src in p.ids && Sound(p, max, from, s)
    ensures Sound(p, max, from, Scan(n, p, max, s, src, items))
  {
    if items != [] {
      ScanSound(n, p, max, from, s, src, items[..|items| - 1]);
      ConsiderSound(n, p, max, from, Scan(n, p, max, s, src, items[..|items| - 1]), src, items[|items| - 1]);
    }
  }

  lemma {:induction false} ScanAllSound(n: Node, p: Pool, max: nat, from: seq<Move>, s: Picture, srcs: seq<SlabId>)
    requires p.Formed() && (forall src <- srcs :: src in p.ids) && Sound(p, max, from, s)
    ensures Sound(p, max, from, ScanAll(n, p, max, s, srcs))
  {
    if srcs != [] {
      var src, rest := srcs[|srcs| - 1], srcs[..|srcs| - 1];
      ScanAllSound(n, p, max, from, s, rest);
      ScanSound(n, p, max, from, ScanAll(n, p, max, s, rest), src, ExtentsOn(n.walk, src));
    }
  }

  /** The plan conserves the pool's used slots, carries no slab past its target (a giver stays at
      or above it, a taker at or below it and within its size), and every move closes the
      distance to the targets by exactly two; so there are at most half as many moves. */
  lemma PlanIsSound(n: Node, p: Pool, max: nat, list: seq<Move>, left: nat)
    requires p.Formed()
    ensures
      var s := PlanOf(n, p, max, list, left);
      Sound(p, max, list, s) && 2 * (|s.list| - |list|) <= Gap(p.ids, UsedOf(p), TargetsOf(p)) &&
      forall id <- p.ids :: s.used[id] <= p.total[id]
  {
    var s := First(p, list, left);
    if |p.ids| >= 2 {
      ScanAllSound(n, p, max, list, s, Over(p, p.ids));
    }
    forall id <- p.ids
      ensures PlanOf(n, p, max, list, left).used[id] <= p.total[id]
    {
      TargetsFit(p, id);
    }
  }

  // ---------------------------------------------------------------- each leg once

  /** No extent is listed twice in the walk. */
  ghost predicate Walked(n: Node) {
    forall i, j :: 0 <= i < j < |n.walk| ==> n.walk[i].ext != n.walk[j].ext
  }

  function Find(walk: seq<Item>, ext: Extent): (r: Option<Item>)
    ensures r.Some? ==> r.value in walk && r.value.ext == ext
  {
    if walk == [] then None else if walk[0].ext == ext then Some(walk[0]) else Find(walk[1..], ext)
  }

  /** The leg a move is of. */
  function LegOf(walk: seq<Item>, m: Move): Option<Leg> {
    var it := Find(walk, m.ext);
    if it.Some? then LegOn(it.value.legs, m.from) else None
  }

  lemma {:induction false} FindItem(walk: seq<Item>, it: Item)
    requires it in walk && forall i, j :: 0 <= i < j < |walk| ==> walk[i].ext != walk[j].ext
    ensures Find(walk, it.ext) == Some(it)
  {
    var i :| 0 <= i < |walk| && walk[i] == it;
    if walk[0].ext == it.ext {
      assert i == 0;
    } else {
      assert walk[1..][i - 1] == it;
      FindItem(walk[1..], it);
    }
  }

  /** The moves of this pool so far: between its slabs, of legs already seen, no leg twice. */
  ghost predicate Once(n: Node, p: Pool, base: nat, s: Picture) {
    && base <= |s.list|
    && (forall i :: base <= i < |s.list| ==>
          && s.list[i].from in p.ids && s.list[i].to in p.ids
          && LegOf(n.walk, s.list[i]).Some? && LegOf(n.walk, s.list[i]).value in s.seen)
    && (forall i, j :: base <= i < j < |s.list| ==> LegOf(n.walk, s.list[i]) != LegOf(n.walk, s.list[j]))
  }

  lemma SameItem(n: Node, a: Item, b: Item)
    requires Walked(n) && a in n.walk && b in n.walk && a.ext == b.ext
    ensures a == b
  {
    FindItem(n.walk, a);
    FindItem(n.walk, b);
  }

  lemma ConsiderOnce(n: Node, p: Pool, max: nat, base: nat, s: Picture, src: SlabId, it: Item)
    requires p.Formed() && src in p.ids && (forall id <- p.ids :: id in s.used) && Walked(n) && it in n.walk &&
      Once(n, p, base, s)
    ensures Once(n, p, base, Consider(n, p, max, s, src, it))
  {
    var to := Considered(n, p, max, s, src, it);
    if to.Some? {
      FindItem(n.walk, it);
      OnceMore(n, p, base, s, Consider(n, p, max, s, src, it), Move(it.ext, src, to.value));
    }
  }

  lemma OnceMore(n: Node, p: Pool, base: nat, s: Picture, t: Picture, m: Move)
    requires Once(n, p, base, s) && m.from in p.ids && m.to in p.ids && LegOf(n.walk, m).Some?
    requires LegOf(n.walk, m).value !in s.seen && t.seen == s.seen + {LegOf(n.walk, m).value}
    requires t.list == s.list + [m]
    ensures Once(n, p, base, t)
  {
    assert forall i :: 0 <= i < |s.list| ==> t.list[i] == s.list[i];
  }

  // ---------------------------------------------------------------- where the legs end up

  ghost predicate Distinct(slabs: seq<SlabId>) {
    forall i, j :: 0 <= i < j < |slabs| ==> slabs[i] != slabs[j]
  }

  /** Known to be where they fail together. */
  ghost predicate Together(n: Node, a: SlabId, b: SlabId, rung: string) {
    DomainOf(n, a) != [] && DomainOf(n, b) != [] && SameAt(DomainOf(n, a), DomainOf(n, b), rung)
  }

  ghost predicate Spread(n: Node, slabs: seq<SlabId>, rung: string) {
    forall i, j :: 0 <= i < j < |slabs| ==> !Together(n, slabs[i], slabs[j], rung)
  }

  /** An extent's slabs after the moves of a list, each skipped unless it still applies. */
  ghost function Place(list: seq<Move>, ext: Extent, slabs: seq<SlabId>): (r: seq<SlabId>)
    ensures |r| == |slabs|
  {
    if list == [] then slabs else
    var r, m := Place(list[..|list| - 1], ext, slabs), list[|list| - 1];
    if Applies(m, ext, r) then Swap(r, m.from, m.to) else r
  }

  ghost predicate Applies(m: Move, ext: Extent, slabs: seq<SlabId>) {
    m.ext == ext && m.from in slabs && m.to !in slabs
  }

  /** Every move of the extent applies when its turn comes. */
  ghost predicate NoneSkipped(list: seq<Move>, ext: Extent, slabs: seq<SlabId>) {
    forall i :: 0 <= i < |list| && list[i].ext == ext ==> Applies(list[i], ext, Place(list[..i], ext, slabs))
  }

  /** All its legs in one pool, on slabs apart. */
  ghost predicate Home(p: Pool, it: Item) {
    (forall l <- it.legs :: l.slab in p.ids) && Distinct(SlabsOf(it.legs))
  }

  /** What a plan owes an extent. */
  ghost predicate Kept(n: Node, list: seq<Move>, it: Item) {
    var slabs := SlabsOf(it.legs);
    var rung := if it.ext.volume in n.spread then n.spread[it.ext.volume] else "drive";
    && Distinct(Place(list, it.ext, slabs))
    && (Spread(n, slabs, rung) ==> Spread(n, Place(list, it.ext, slabs), rung))
    && NoneSkipped(list, it.ext, slabs)
  }

  /** The picture is where the moves planned so far put the legs. */
  ghost predicate True(n: Node, s: Picture, it: Item) {
    && Kept(n, s.list, it)
    && Placed(s, it) == Place(s.list, it.ext, SlabsOf(it.legs))
    && forall l <- it.legs :: l !in s.seen ==> l.slab in Placed(s, it)
  }

  lemma PlaceOther(list: seq<Move>, m: Move, it: Item)
    requires m.ext != it.ext
    ensures Place(list + [m], it.ext, SlabsOf(it.legs)) == Place(list, it.ext, SlabsOf(it.legs))
    ensures NoneSkipped(list, it.ext, SlabsOf(it.legs)) ==> NoneSkipped(list + [m], it.ext, SlabsOf(it.legs))
  {
    assert (list + [m])[..|list|] == list;
    assert forall i :: 0 <= i < |list| ==> (list + [m])[..i] == list[..i];
  }

  lemma PlaceMore(list: seq<Move>, m: Move, it: Item)
    requires Applies(m, it.ext, Place(list, it.ext, SlabsOf(it.legs)))
    ensures Place(list + [m], it.ext, SlabsOf(it.legs)) == Swap(Place(list, it.ext, SlabsOf(it.legs)), m.from, m.to)
    ensures NoneSkipped(list, it.ext, SlabsOf(it.legs)) ==> NoneSkipped(list + [m], it.ext, SlabsOf(it.legs))
  {
    assert (list + [m])[..|list|] == list;
    assert forall i :: 0 <= i < |list| ==> (list + [m])[..i] == list[..i];
  }

  /** One leg to a slab that is free of the others and apart from them. */
  lemma SwapKeeps(n: Node, slabs: seq<SlabId>, src: SlabId, to: SlabId, rung: string)
    requires Distinct(slabs) && to !in slabs
    ensures Distinct(Swap(slabs, src, to))
    ensures Spread(n, slabs, rung) && (forall o <- slabs :: o != src ==> Apart(n, to, o, rung)) ==>
      Spread(n, Swap(slabs, src, to), rung)
  {
    var r := Swap(slabs, src, to);
    if Spread(n, slabs, rung) && forall o <- slabs :: o != src ==> Apart(n, to, o, rung) {
      forall i, j | 0 <= i < j < |r|
        ensures !Together(n, r[i], r[j], rung)
      {
        assert slabs[i] in slabs && slabs[j] in slabs;
      }
    }
  }

  lemma ConsiderTrue(n: Node, p: Pool, max: nat, s: Picture, src: SlabId, it: Item, jt: Item)
    requires p.Formed() && src in p.ids && (forall id <- p.ids :: id in s.used) && Walked(n)
    requires it in n.walk && jt in n.walk && Home(p, jt) && True(n, s, jt)
    ensures True(n, Consider(n, p, max, s, src, it), jt)
  {
    var t := Consider(n, p, max, s, src, it);
    var to := Considered(n, p, max, s, src, it);
    if jt.ext == it.ext {
      SameItem(n, it, jt);
      if to.Some? {
        MovedTrue(n, s, t, it, Move(it.ext, src, to.value));
      }
    } else if to.Some? {
      PlaceOther(s.list, Move(it.ext, src, to.value), jt);
    }
  }

  lemma MovedTrue(n: Node, s: Picture, t: Picture, it: Item, m: Move)
    requires True(n, s, it) && it.ext == m.ext && LegOn(it.legs, m.from).Some? && Distinct(SlabsOf(it.legs))
    requires LegOn(it.legs, m.from).value !in s.seen && t.seen == s.seen + {LegOn(it.legs, m.from).value}
    requires m.to !in Placed(s, it) && m.to != m.from && t.list == s.list + [m]
    requires forall o <- Placed(s, it) :: o != m.from ==> Apart(n, m.to, o, RungOf(n, it.ext.volume))
    requires t.placed == s.placed[it.ext := Swap(Placed(s, it), m.from, m.to)]
    ensures True(n, t, it)
  {
    PlaceMore(s.list, m, it);
    SwapKeeps(n, Placed(s, it), m.from, m.to, RungOf(n, it.ext.volume));
    forall l <- it.legs | l !in t.seen
      ensures l.slab in Placed(t, it)
    {
      StaysIn(it.legs, l, m.from);
      var k :| 0 <= k < |Placed(s, it)| && Placed(s, it)[k] == l.slab;
      assert Placed(t, it)[k] == l.slab;
    }
  }

  /** Legs on distinct slabs: another leg is on another slab. */
  lemma StaysIn(legs: seq<Leg>, l: Leg, slab: SlabId)
    requires Distinct(SlabsOf(legs)) && l in legs && LegOn(legs, slab).Some? && l != LegOn(legs, slab).value
    ensures l.slab != slab
  {
    var i :| 0 <= i < |legs| && legs[i] == l;
    var j :| 0 <= j < |legs| && legs[j] == LegOn(legs, slab).value;
    assert SlabsOf(legs)[i] == l.slab && SlabsOf(legs)[j] == slab;
  }

  lemma {:induction false} ScanPlaces(n: Node, p: Pool, max: nat, base: nat, s: Picture, src: SlabId, items: seq<Item>)
    requires p.Formed() && src in p.ids && (forall id <- p.ids :: id in s.used) && Walked(n)
    requires (forall it <- items :: it in n.walk) && Once(n, p, base, s)
    requires forall jt <- n.walk :: Home(p, jt) ==> True(n, s, jt)
    ensures
      var t := Scan(n, p, max, s, src, items);
      Once(n, p, base, t) && forall jt <- n.walk :: Home(p, jt) ==> True(n, t, jt)
  {
    if items != [] {
      var it, rest := items[|items| - 1], items[..|items| - 1];
      ScanPlaces(n, p, max, base, s, src, rest);
      var r := Scan(n, p, max, s, src, rest);
      ConsiderOnce(n, p, max, base, r, src, it);
      forall jt <- n.walk | Home(p, jt)
        ensures True(n, Consider(n, p, max, r, src, it), jt)
      {
        ConsiderTrue(n, p, max, r, src, it, jt);
      }
    }
  }

  lemma {:induction false} ScanAllPlaces(n: Node, p: Pool, max: nat, base: nat, s: Picture, srcs: seq<SlabId>)
    requires p.Formed() && (forall src <- srcs :: src in p.ids) && (forall id <- p.ids :: id in s.used) && Walked(n)
    requires Once(n, p, base, s)
    requires forall jt <- n.walk :: Home(p, jt) ==> True(n, s, jt)
    ensures
      var t := ScanAll(n, p, max, s, srcs);
      Once(n, p, base, t) && forall jt <- n.walk :: Home(p, jt) ==> True(n, t, jt)
  {
    if srcs != [] {
      var src, rest := srcs[|srcs| - 1], srcs[..|srcs| - 1];
      ScanAllPlaces(n, p, max, base, s, rest);
      ScanPlaces(n, p, max, base, ScanAll(n, p, max, s, rest), src, ExtentsOn(n.walk, src));
    }
  }

  /** No move of the extent so far. */
  ghost predicate Untouched(list: seq<Move>, ext: Extent) {
    forall m <- list :: m.ext != ext
  }

  lemma {:induction false} PlaceUntouched(list: seq<Move>, ext: Extent, slabs: seq<SlabId>)
    requires Untouched(list, ext)
    ensures Place(list, ext, slabs) == slabs
  {
    if list != [] {
      PlaceUntouched(list[..|list| - 1], ext, slabs);
    }
  }

  /** The plan of one pool keeps the legs of every extent that lives in it apart. */
  lemma PoolPlanKeepsLegsApart(n: Node, p: Pool, max: nat, list: seq<Move>, left: nat)
    requires p.Formed() && Walked(n)
    requires forall jt <- n.walk :: Home(p, jt) ==> Untouched(list, jt.ext)
    ensures
      var t := PlanOf(n, p, max, list, left);
      Once(n, p, |list|, t) && list <= t.list && forall jt <- n.walk :: Home(p, jt) ==> Kept(n, t.list, jt)
  {
    var s := First(p, list, left);
    forall jt <- n.walk | Home(p, jt)
      ensures True(n, s, jt)
    {
      PlaceUntouched(list, jt.ext, SlabsOf(jt.legs));
      forall l <- jt.legs
        ensures l.slab in SlabsOf(jt.legs)
      {
        var k :| 0 <= k < |jt.legs| && jt.legs[k] == l;
        assert SlabsOf(jt.legs)[k] == l.slab;
      }
    }
    PlanIsSound(n, p, max, list, left);
    if |p.ids| >= 2 {
      ScanAllPlaces(n, p, max, |list|, s, Over(p, p.ids));
    }
  }

  // ---------------------------------------------------------------- what a plan moves, and must move

  /** How the moves change what a slab holds. */
  ghost function Net(moves: seq<Move>, id: SlabId): int {
    if moves == [] then 0 else
    var m := moves[|moves| - 1];
    Net(moves[..|moves| - 1], id) + (if m.to == id then 1 else 0) - (if m.from == id then 1 else 0)
  }

  /** What a slab holds with these moves made. */
  ghost function After(used: map<SlabId, nat>, moves: seq<Move>, id: SlabId): int
    requires id in used
  {
    used[id] + Net(moves, id)
  }

  /** Where the moves take an extent's legs. */
  ghost function Carried(moves: seq<Move>, ext: Extent, slabs: seq<SlabId>): seq<SlabId> {
    if moves == [] then slabs else
    var m := moves[|moves| - 1];
    var r := Carried(moves[..|moves| - 1], ext, slabs);
    if m.ext == ext then Swap(r, m.from, m.to) else r
  }

  /** With these moves made, the slab is still below its share, holds no leg of the extent, and is
      apart at the volume's rung from every other leg of it. */
  ghost predicate HasRoom(n: Node, p: Pool, used: map<SlabId, nat>, share: map<SlabId, nat>, moves: seq<Move>,
        it: Item, src: SlabId, id: SlabId)
    requires id in used && id in share
  {
    var legs := Carried(moves, it.ext, SlabsOf(it.legs));
    var rung := if it.ext.volume in n.spread then n.spread[it.ext.volume] else "drive";
    && id != src && id !in legs && After(used, moves, id) < share[id]
    && forall o <- legs :: o != src && DomainOf(n, o) != [] ==> !SameAt(DomainOf(n, id), DomainOf(n, o), rung)
  }

  ghost predicate NoRoom(n: Node, p: Pool, used: map<SlabId, nat>, share: map<SlabId, nat>, moves: seq<Move>,
        it: Item, src: SlabId)
    requires forall id <- p.ids :: id in used && id in share
  {
    forall id <- p.ids :: !HasRoom(n, p, used, share, moves, it, src, id)
  }

  /** A move is of a leg of an extent that may move, off a slab still above its share, to a slab
      that has room, and no slab that has room is less full. */
  ghost predicate WellChosen(n: Node, p: Pool, used: map<SlabId, nat>, share: map<SlabId, nat>, moves: seq<Move>,
        it: Item, m: Move)
    requires forall id <- p.ids :: id in used && id in share && id in p.total
  {
    && it.ext == m.ext && LegOn(it.legs, m.from).Some? && it.ext.volume !in n.pinned
    && m.from in p.ids && m.to in p.ids && After(used, moves, m.from) > share[m.from]
    && HasRoom(n, p, used, share, moves, it, m.from, m.to)
    && forall id <- p.ids :: HasRoom(n, p, used, share, moves, it, m.from, id) ==> NoFuller(p, used, moves, m.to, id)
  }

  /** With these moves made, one slab is no fuller than another. */
  ghost predicate NoFuller(p: Pool, used: map<SlabId, nat>, moves: seq<Move>, a: SlabId, b: SlabId)
    requires a in used && b in used && a in p.total && b in p.total
  {
    After(used, moves, a) * p.total[b] <= After(used, moves, b) * p.total[a]
  }

  ghost predicate AllChosen(n: Node, p: Pool, used: map<SlabId, nat>, share: map<SlabId, nat>, moves: seq<Move>)
    requires forall id <- p.ids :: id in used && id in share && id in p.total
  {
    forall i :: 0 <= i < |moves| ==>
      exists it <- n.walk :: WellChosen(n, p, used, share, moves[..i], it, moves[i])
  }

  /** What became of an extent's leg on a slab that had too much: it may not move, it is planned
      away, or no slab had room for it when it was considered. */
  ghost predicate Answered(n: Node, p: Pool, used: map<SlabId, nat>, share: map<SlabId, nat>, moves: seq<Move>,
        it: Item, src: SlabId)
    requires forall id <- p.ids :: id in used && id in share
  {
    || it.ext.volume in n.pinned
    || (exists m <- moves :: m.ext == it.ext && m.from == src)
    || exists k :: 0 <= k <= |moves| && NoRoom(n, p, used, share, moves[..k], it, src)
  }

  /** The first walked of the extents that share this leg. */
  ghost predicate FirstWalked(walk: seq<Item>, i: nat, src: SlabId)
    requires i < |walk|
  {
    LegOn(walk[i].legs, src).Some? &&
    forall j :: 0 <= j < i ==> LegOn(walk[j].legs, src) != LegOn(walk[i].legs, src)
  }

  ghost predicate AllAnswered(n: Node, p: Pool, used: map<SlabId, nat>, share: map<SlabId, nat>, moves: seq<Move>,
        src: SlabId)
    requires forall id <- p.ids :: id in used && id in share
  {
    forall i :: 0 <= i < |n.walk| && FirstWalked(n.walk, i, src) ==>
      Answered(n, p, used, share, moves, n.walk[i], src)
  }

  /** More than a hundredth of its slots, and more than one, above its share. */
  ghost predicate TooFull(p: Pool, used: map<SlabId, nat>, share: map<SlabId, nat>, id: SlabId)
    requires id in used && id in share && id in p.total
  {
    used[id] > share[id] + 1 && used[id] > share[id] + p.total[id] / 100
  }

  /** What the moves planned for a pool of these fills and shares are: each well chosen, off slabs
      too full alone, and enough of them. */
  ghost predicate Settled(n: Node, p: Pool, used: map<SlabId, nat>, share: map<SlabId, nat>, moves: seq<Move>,
        full: bool)
    requires forall id <- p.ids :: id in used && id in share && id in p.total
  {
    && AllChosen(n, p, used, share, moves)
    && (forall m <- moves :: m.from in p.ids && TooFull(p, used, share, m.from))
    && (|p.ids| >= 2 ==> forall src <- p.ids :: TooFull(p, used, share, src) ==>
          full || After(used, moves, src) == share[src] || AllAnswered(n, p, used, share, moves, src))
  }

  /** A slab's slots in use, and its share: the least number of slots that make it as full as the
      pool. */
  ghost predicate Measured(p: Pool, used: map<SlabId, nat>, share: map<SlabId, nat>)
    requires p.Formed()
  {
    && (forall id :: id in used <==> id in p.ids) && (forall id :: id in share <==> id in p.ids)
    && (forall id <- p.ids :: used[id] == if p.total[id] > p.free[id] then p.total[id] - p.free[id] else 0)
    && var u, t := Sum(p.ids, used), Sum(p.ids, p.total);
       forall id <- p.ids :: (share[id] - 1) * t < u * p.total[id] <= share[id] * t || (t == 0 && share[id] == 0)
  }

  lemma MeasuredIs(p: Pool, used: map<SlabId, nat>, share: map<SlabId, nat>)
    requires p.Formed() && Measured(p, used, share)
    ensures used == UsedOf(p) && share == TargetsOf(p)
  {
    assert used == UsedOf(p);
    forall id <- p.ids
      ensures share[id] == TargetsOf(p)[id]
    {
      OneShare(Sum(p.ids, used), Sum(p.ids, p.total), p.total[id], share[id]);
    }
  }

  lemma OneShare(u: nat, t: nat, total: nat, q: nat)
    requires (q - 1) * t < u * total <= q * t || (t == 0 && q == 0)
    ensures q == Ceil(u * total, t)
  {
    if t > 0 {
      OneCeil(u * total, t, q);
    }
  }

  lemma OneCeil(a: nat, t: nat, q: nat)
    requires t > 0 && (q - 1) * t < a <= q * t
    ensures q == Ceil(a, t)
  {
    var c := Ceil(a, t);
    if q < c {
      MulMonotone(q, c - 1, t);
    } else if c < q {
      MulMonotone(c, q - 1, t);
    }
  }

  lemma NetMore(moves: seq<Move>, m: Move, id: SlabId)
    ensures Net(moves + [m], id) == Net(moves, id) + (if m.to == id then 1 else 0) - (if m.from == id then 1 else 0)
  {
    assert (moves + [m])[..|moves|] == moves;
  }

  lemma CarriedMore(moves: seq<Move>, m: Move, ext: Extent, slabs: seq<SlabId>)
    ensures Carried(moves + [m], ext, slabs) ==
      if m.ext == ext then Swap(Carried(moves, ext, slabs), m.from, m.to) else Carried(moves, ext, slabs)
  {
    assert (moves + [m])[..|moves|] == moves;
  }

  /** The picture is what the moves planned for the pool so far make of it. */
  ghost predicate Tracks(n: Node, p: Pool, base: nat, s: Picture)
    requires p.Formed()
  {
    && base <= |s.list|
    && (forall id <- p.ids :: id in s.used && s.used[id] == After(UsedOf(p), s.list[base..], id))
    && (forall it <- n.walk :: Placed(s, it) == Carried(s.list[base..], it.ext, SlabsOf(it.legs)))
  }

  lemma RoomIs(n: Node, p: Pool, base: nat, s: Picture, it: Item, src: SlabId, id: SlabId)
    requires p.Formed() && Tracks(n, p, base, s) && it in n.walk && id in p.ids
    ensures Fits(n, s.used, TargetsOf(p), Placed(s, it), src, RungOf(n, it.ext.volume), id) <==>
      HasRoom(n, p, UsedOf(p), TargetsOf(p), s.list[base..], it, src, id)
  {
  }

  lemma {:induction false} FillsAre(a: nat, s: nat, b: nat, t: nat)
    requires s > 0 && t > 0 && a as real / s as real <= b as real / t as real
    ensures a * t <= b * s
  {
    var x, y := a as real / s as real, b as real / t as real;
    assert x * s as real == a as real && y * t as real == b as real;
    assert (a * t) as real == x * (s as real * t as real);
    assert (b * s) as real == y * (s as real * t as real);
    assert x * (s as real * t as real) <= y * (s as real * t as real);
  }

  lemma ConsiderTracks(n: Node, p: Pool, max: nat, base: nat, s: Picture, src: SlabId, it: Item)
    requires p.Formed() && src in p.ids && Walked(n) && it in n.walk && Tracks(n, p, base, s)
    ensures Tracks(n, p, base, Consider(n, p, max, s, src, it))
  {
    var t := Consider(n, p, max, s, src, it);
    var to := Considered(n, p, max, s, src, it);
    if to.Some? {
      MoveTracks(n, p, base, s, t, it, Move(it.ext, src, to.value));
    } else {
      forall jt <- n.walk
        ensures Placed(t, jt) == Placed(s, jt)
      {
        if jt.ext == it.ext {
          SameItem(n, it, jt);
        }
      }
    }
  }

  lemma MoveTracks(n: Node, p: Pool, base: nat, s: Picture, t: Picture, it: Item, m: Move)
    requires p.Formed() && m.from in p.ids && m.to in p.ids && m.from != m.to && Walked(n) && it in n.walk
    requires Tracks(n, p, base, s) && m.ext == it.ext && t.list == s.list + [m] && s.used[m.from] > 0
    requires t.used == s.used[m.from := s.used[m.from] - 1][m.to := s.used[m.to] + 1]
    requires t.placed == s.placed[it.ext := Swap(Placed(s, it), m.from, m.to)]
    ensures Tracks(n, p, base, t)
  {
    var moves := s.list[base..];
    assert t.list[base..] == moves + [m];
    forall id <- p.ids
      ensures id in t.used && t.used[id] == After(UsedOf(p), moves + [m], id)
    {
      NetMore(moves, m, id);
    }
    forall jt <- n.walk
      ensures Placed(t, jt) == Carried(moves + [m], jt.ext, SlabsOf(jt.legs))
    {
      if jt.ext == it.ext {
        SameItem(n, it, jt);
      }
      CarriedMore(moves, m, jt.ext, SlabsOf(jt.legs));
    }
  }

  /** The move that considering an extent plans is well chosen. */
  lemma ConsiderChooses(n: Node, p: Pool, max: nat, base: nat, s: Picture, src: SlabId, it: Item)
    requires p.Formed() && src in p.ids && it in n.walk && Tracks(n, p, base, s)
    requires AllChosen(n, p, UsedOf(p), TargetsOf(p), s.list[base..])
    ensures
      var t := Consider(n, p, max, s, src, it);
      base <= |t.list| && AllChosen(n, p, UsedOf(p), TargetsOf(p), t.list[base..])
  {
    var t := Consider(n, p, max, s, src, it);
    var to := Considered(n, p, max, s, src, it);
    if to.Some? {
      var moves, m := s.list[base..], Move(it.ext, src, to.value);
      assert t.list[base..] == moves + [m];
      MoveWellChosen(n, p, max, base, s, src, it, to.value);
      OneMoreChosen(n, p, UsedOf(p), TargetsOf(p), moves, it, m);
    }
  }

  lemma OneMoreChosen(n: Node, p: Pool, used: map<SlabId, nat>, share: map<SlabId, nat>, moves: seq<Move>, it: Item,
        m: Move)
    requires (forall id <- p.ids :: id in used && id in share && id in p.total) && it in n.walk
    requires AllChosen(n, p, used, share, moves) && WellChosen(n, p, used, share, moves, it, m)
    ensures AllChosen(n, p, used, share, moves + [m])
  {
    var all := moves + [m];
    forall i | 0 <= i < |all|
      ensures exists jt <- n.walk :: WellChosen(n, p, used, share, all[..i], jt, all[i])
    {
      if i < |moves| {
        assert all[..i] == moves[..i] && all[i] == moves[i];
      } else {
        assert all[..i] == moves;
      }
    }
  }

  lemma MoveWellChosen(n: Node, p: Pool, max: nat, base: nat, s: Picture, src: SlabId, it: Item, to: SlabId)
    requires p.Formed() && src in p.ids && to in p.ids && it in n.walk && Tracks(n, p, base, s)
    requires MovesTo(n, p, max, s, Consider(n, p, max, s, src, it), src, it, to)
    ensures WellChosen(n, p, UsedOf(p), TargetsOf(p), s.list[base..], it, Move(it.ext, src, to))
  {
    var moves := s.list[base..];
    RoomIs(n, p, base, s, it, src, to);
    forall id <- p.ids | HasRoom(n, p, UsedOf(p), TargetsOf(p), moves, it, src, id)
      ensures NoFuller(p, UsedOf(p), moves, to, id)
    {
      ChosenNoFuller(n, p, base, s, it, src, to, id);
    }
  }

  lemma ChosenNoFuller(n: Node, p: Pool, base: nat, s: Picture, it: Item, src: SlabId, to: SlabId, id: SlabId)
    requires p.Formed() && src in p.ids && to in p.ids && id in p.ids && it in n.walk && Tracks(n, p, base, s)
    requires Best(n, p, s.used, TargetsOf(p), Placed(s, it), src, RungOf(n, it.ext.volume), p.ids) == Some(to)
    requires HasRoom(n, p, UsedOf(p), TargetsOf(p), s.list[base..], it, src, id)
    ensures NoFuller(p, UsedOf(p), s.list[base..], to, id)
  {
    RoomIs(n, p, base, s, it, src, id);
    forall k <- p.ids
      ensures TargetsOf(p)[k] <= p.total[k]
    {
      TargetsFit(p, k);
    }
    BestIsLessFull(n, p, s.used, TargetsOf(p), Placed(s, it), src, RungOf(n, it.ext.volume), to, id);
  }

  lemma BestIsLessFull(n: Node, p: Pool, used: map<SlabId, nat>, target: map<SlabId, nat>, legs: seq<SlabId>,
        src: SlabId, rung: string, to: SlabId, id: SlabId)
    requires forall k <- p.ids :: k in used && k in target && k in p.total && target[k] <= p.total[k]
    requires Best(n, p, used, target, legs, src, rung, p.ids) == Some(to)
    requires id in p.ids && Fits(n, used, target, legs, src, rung, id)
    ensures used[to] * p.total[id] <= used[id] * p.total[to]
  {
    BestIsTheEmptiestThatFits(n, p, used, target, legs, src, rung, p.ids);
    FillsAre(used[to], p.total[to], used[id], p.total[id]);
  }

  lemma AnsweredStays(n: Node, p: Pool, used: map<SlabId, nat>, share: map<SlabId, nat>, moves: seq<Move>,
        more: seq<Move>, it: Item, src: SlabId)
    requires (forall id <- p.ids :: id in used && id in share) && moves <= more
    requires Answered(n, p, used, share, moves, it, src)
    ensures Answered(n, p, used, share, more, it, src)
  {
    if it.ext.volume !in n.pinned {
      if m :| m in moves && m.ext == it.ext && m.from == src {
        assert m in more;
      } else {
        var k :| 0 <= k <= |moves| && NoRoom(n, p, used, share, moves[..k], it, src);
        assert more[..k] == moves[..k];
      }
    }
  }

  /** Considering an extent whose leg was not seen answers for it. */
  lemma ConsiderAnswers(n: Node, p: Pool, max: nat, base: nat, s: Picture, src: SlabId, it: Item)
    requires p.Formed() && src in p.ids && it in n.walk && Tracks(n, p, base, s) && !Stops(p, max, s, src)
    requires LegOn(it.legs, src).Some? && LegOn(it.legs, src).value !in s.seen
    ensures
      var t := Consider(n, p, max, s, src, it);
      base <= |t.list| && Answered(n, p, UsedOf(p), TargetsOf(p), t.list[base..], it, src)
  {
    var t := Consider(n, p, max, s, src, it);
    if it.ext.volume !in n.pinned {
      var to := Best(n, p, s.used, TargetsOf(p), Placed(s, it), src, RungOf(n, it.ext.volume), p.ids);
      if to.Some? {
        var m := Move(it.ext, src, to.value);
        assert t.list[base..] == s.list[base..] + [m];
        assert m in t.list[base..];
      } else {
        assert t.list == s.list;
        NoneHasRoom(n, p, base, s, src, it);
        assert t.list[base..][..|t.list| - base] == s.list[base..];
      }
    }
  }

  lemma NoneHasRoom(n: Node, p: Pool, base: nat, s: Picture, src: SlabId, it: Item)
    requires p.Formed() && src in p.ids && it in n.walk && Tracks(n, p, base, s)
    requires Best(n, p, s.used, TargetsOf(p), Placed(s, it), src, RungOf(n, it.ext.volume), p.ids).None?
    ensures NoRoom(n, p, UsedOf(p), TargetsOf(p), s.list[base..], it, src)
  {
    BestIsTheEmptiestThatFits(n, p, s.used, TargetsOf(p), Placed(s, it), src, RungOf(n, it.ext.volume), p.ids);
    forall id <- p.ids
      ensures !HasRoom(n, p, UsedOf(p), TargetsOf(p), s.list[base..], it, src, id)
    {
      RoomIs(n, p, base, s, it, src, id);
    }
  }

  /** The slab is done with: the list is full, it is no longer above its share, or these extents
      are answered for. */
  ghost predicate Quiet(n: Node, p: Pool, max: nat, base: nat, s: Picture, src: SlabId, items: seq<Item>)
    requires p.Formed() && src in p.ids && (forall id <- p.ids :: id in s.used) && base <= |s.list|
  {
    || Stops(p, max, s, src)
    || forall it <- items :: Answered(n, p, UsedOf(p), TargetsOf(p), s.list[base..], it, src)
  }

  lemma QuietStays(n: Node, p: Pool, max: nat, base: nat, s: Picture, src: SlabId, items: seq<Item>, other: SlabId,
        it: Item)
    requires p.Formed() && src in p.ids && other in p.ids && (forall id <- p.ids :: id in s.used) && base <= |s.list|
    requires Quiet(n, p, max, base, s, src, items)
    ensures
      var t := Consider(n, p, max, s, other, it);
      base <= |t.list| && Quiet(n, p, max, base, t, src, items)
  {
    var t := Consider(n, p, max, s, other, it);
    var to := Considered(n, p, max, s, other, it);
    assert s.list[base..] <= t.list[base..];
    if !Stops(p, max, s, src) {
      forall jt <- items
        ensures Answered(n, p, UsedOf(p), TargetsOf(p), t.list[base..], jt, src)
      {
        AnsweredStays(n, p, UsedOf(p), TargetsOf(p), s.list[base..], t.list[base..], jt, src);
      }
    }
  }

  /** Legs seen are on slabs scanned already, or of extents already considered. */
  ghost predicate SeenOnly(s: Picture, src: SlabId, items: seq<Item>) {
    forall l <- s.seen :: l.slab == src ==> exists it <- items :: LegOn(it.legs, src) == Some(l)
  }

  ghost predicate LegsDiffer(items: seq<Item>, src: SlabId) {
    && (forall it <- items :: LegOn(it.legs, src).Some?)
    && forall i, j :: 0 <= i < j < |items| ==> LegOn(items[i].legs, src) != LegOn(items[j].legs, src)
  }

  /** What is so of the picture while one slab's extents are scanned. */
  ghost predicate Settling(n: Node, p: Pool, max: nat, base: nat, s: Picture, src: SlabId, items: seq<Item>)
    requires p.Formed() && src in p.ids
  {
    && Tracks(n, p, base, s) && AllChosen(n, p, UsedOf(p), TargetsOf(p), s.list[base..])
    && SeenOnly(s, src, items) && Quiet(n, p, max, base, s, src, items)
  }

  lemma ConsiderSettles(n: Node, p: Pool, max: nat, base: nat, s: Picture, src: SlabId, rest: seq<Item>, it: Item)
    requires p.Formed() && src in p.ids && Walked(n) && it in n.walk
    requires Settling(n, p, max, base, s, src, rest) && LegsDiffer(rest + [it], src)
    ensures Settling(n, p, max, base, Consider(n, p, max, s, src, it), src, rest + [it])
  {
    var t := Consider(n, p, max, s, src, it);
    ConsiderTracks(n, p, max, base, s, src, it);
    ConsiderChooses(n, p, max, base, s, src, it);
    QuietStays(n, p, max, base, s, src, rest, src, it);
    SeenMore(n, p, max, s, src, it);
    assert forall o :: o in rest + [it] <==> o in rest || o == it;
    if !Stops(p, max, s, src) {
      NotSeen(s, src, rest, it);
      ConsiderAnswers(n, p, max, base, s, src, it);
    }
  }

  lemma {:induction false} ScanSettles(n: Node, p: Pool, max: nat, base: nat, s: Picture, src: SlabId,
        items: seq<Item>)
    requires p.Formed() && src in p.ids && Walked(n) && (forall it <- items :: it in n.walk)
    requires LegsDiffer(items, src) && Settling(n, p, max, base, s, src, [])
    ensures Settling(n, p, max, base, Scan(n, p, max, s, src, items), src, items)
  {
    if items != [] {
      var it, rest := items[|items| - 1], items[..|items| - 1];
      assert rest + [it] == items;
      ScanSettles(n, p, max, base, s, src, rest);
      ConsiderSettles(n, p, max, base, Scan(n, p, max, s, src, rest), src, rest, it);
    }
  }

  lemma NotSeen(s: Picture, src: SlabId, rest: seq<Item>, it: Item)
    requires LegsDiffer(rest + [it], src) && SeenOnly(s, src, rest)
    ensures LegOn(it.legs, src).Some? && LegOn(it.legs, src).value !in s.seen
  {
    assert (rest + [it])[|rest|] == it;
    forall o <- rest
      ensures LegOn(o.legs, src) != LegOn(it.legs, src)
    {
      var i :| 0 <= i < |rest| && rest[i] == o;
      assert (rest + [it])[i] == o;
    }
  }

  /** Considering an extent sees no leg but its own. */
  lemma SeenMore(n: Node, p: Pool, max: nat, s: Picture, src: SlabId, it: Item)
    requires p.Formed() && src in p.ids && forall id <- p.ids :: id in s.used
    ensures forall l <- Consider(n, p, max, s, src, it).seen :: l in s.seen || LegOn(it.legs, src) == Some(l)
  {
    var to := Considered(n, p, max, s, src, it);
  }

  lemma {:induction false} ExtentsDiffer(walk: seq<Item>, src: SlabId)
    ensures LegsDiffer(ExtentsOn(walk, src), src)
  {
    if walk != [] {
      ExtentsDiffer(walk[..|walk| - 1], src);
    }
  }

  /** The first walked of the extents that share a leg is considered. */
  lemma {:induction false} FirstIsListed(walk: seq<Item>, i: nat, src: SlabId)
    requires i < |walk| && FirstWalked(walk, i, src)
    ensures walk[i] in ExtentsOn(walk, src)
  {
    var n := |walk| - 1;
    var rest := walk[..n];
    if i < n {
      assert rest[i] == walk[i] && forall j :: 0 <= j < i ==> rest[j] == walk[j];
      FirstIsListed(rest, i, src);
    } else {
      forall o <- ExtentsOn(rest, src)
        ensures LegOn(o.legs, src) != LegOn(walk[n].legs, src)
      {
        var j :| 0 <= j < n && rest[j] == o;
        assert walk[j] == o;
      }
    }
  }

  /** Every move is off one of these slabs. */
  ghost predicate FromOnly(list: seq<Move>, base: nat, srcs: seq<SlabId>) {
    forall i :: base <= i < |list| ==> list[i].from in srcs
  }

  lemma {:induction false} ScanFromOnly(n: Node, p: Pool, max: nat, base: nat, s: Picture, src: SlabId,
        items: seq<Item>, srcs: seq<SlabId>)
    requires p.Formed() && src in p.ids && (forall id <- p.ids :: id in s.used) && base <= |s.list|
    requires FromOnly(s.list, base, srcs) && src in srcs
    ensures base <= |Scan(n, p, max, s, src, items).list| && FromOnly(Scan(n, p, max, s, src, items).list, base, srcs)
  {
    if items != [] {
      ScanFromOnly(n, p, max, base, s, src, items[..|items| - 1], srcs);
      var to := Considered(n, p, max, Scan(n, p, max, s, src, items[..|items| - 1]), src, items[|items| - 1]);
    }
  }

  lemma {:induction false} ScanKeepsQuiet(n: Node, p: Pool, max: nat, base: nat, s: Picture, src: SlabId,
        items: seq<Item>, other: SlabId, done: seq<Item>)
    requires p.Formed() && src in p.ids && other in p.ids && (forall id <- p.ids :: id in s.used) && base <= |s.list|
    requires Quiet(n, p, max, base, s, other, done)
    ensures
      var t := Scan(n, p, max, s, src, items);
      base <= |t.list| && Quiet(n, p, max, base, t, other, done)
  {
    if items != [] {
      var rest := items[..|items| - 1];
      ScanKeepsQuiet(n, p, max, base, s, src, rest, other, done);
      QuietStays(n, p, max, base, Scan(n, p, max, s, src, rest), other, done, src, items[|items| - 1]);
    }
  }

  ghost predicate AllQuiet(n: Node, p: Pool, max: nat, base: nat, s: Picture, srcs: seq<SlabId>)
    requires p.Formed() && (forall src <- srcs :: src in p.ids) && (forall id <- p.ids :: id in s.used) &&
      base <= |s.list|
  {
    forall src <- srcs :: Quiet(n, p, max, base, s, src, ExtentsOn(n.walk, src))
  }

  /** What is so of the picture once some slabs were scanned. */
  ghost predicate Scanned(n: Node, p: Pool, max: nat, base: nat, s: Picture, srcs: seq<SlabId>)
    requires p.Formed() && forall src <- srcs :: src in p.ids
  {
    && Tracks(n, p, base, s) && AllChosen(n, p, UsedOf(p), TargetsOf(p), s.list[base..])
    && (forall l <- s.seen :: l.slab in srcs) && FromOnly(s.list, base, srcs)
    && AllQuiet(n, p, max, base, s, srcs)
  }

  lemma {:induction false} ScanAllSettles(n: Node, p: Pool, max: nat, base: nat, s: Picture, srcs: seq<SlabId>)
    requires p.Formed() && (forall src <- srcs :: src in p.ids) && Walked(n) && Scanned(n, p, max, base, s, [])
    requires forall i, j :: 0 <= i < j < |srcs| ==> srcs[i] != srcs[j]
    ensures Scanned(n, p, max, base, ScanAll(n, p, max, s, srcs), srcs)
  {
    if srcs != [] {
      var src, rest := srcs[|srcs| - 1], srcs[..|srcs| - 1];
      ScanAllSettles(n, p, max, base, s, rest);
      assert rest + [src] == srcs;
      ScanOneMore(n, p, max, base, ScanAll(n, p, max, s, rest), rest, src);
    }
  }

  lemma ScanOneMore(n: Node, p: Pool, max: nat, base: nat, r: Picture, rest: seq<SlabId>, src: SlabId)
    requires p.Formed() && (forall q <- rest + [src] :: q in p.ids) && src !in rest && Walked(n)
    requires (forall q <- rest :: q in p.ids) && src in p.ids && Scanned(n, p, max, base, r, rest)
    ensures Scanned(n, p, max, base, Scan(n, p, max, r, src, ExtentsOn(n.walk, src)), rest + [src])
  {
    var items, srcs := ExtentsOn(n.walk, src), rest + [src];
    var t := Scan(n, p, max, r, src, items);
    OwnScan(n, p, max, base, r, src);
    OthersStayQuiet(n, p, max, base, r, rest, src);
    QuietMore(n, p, max, base, t, rest, src);
    ScanAddsFrom(n, p, max, base, r, rest, src, items);
    ScanSees(n, p, max, r, src, items);
  }

  lemma ScanAddsFrom(n: Node, p: Pool, max: nat, base: nat, r: Picture, rest: seq<SlabId>, src: SlabId,
        items: seq<Item>)
    requires p.Formed() && src in p.ids && (forall id <- p.ids :: id in r.used) && base <= |r.list|
    requires FromOnly(r.list, base, rest)
    ensures FromOnly(Scan(n, p, max, r, src, items).list, base, rest + [src])
  {
    assert forall i :: base <= i < |r.list| ==> r.list[i].from in rest + [src];
    ScanFromOnly(n, p, max, base, r, src, items, rest + [src]);
  }

  lemma QuietMore(n: Node, p: Pool, max: nat, base: nat, t: Picture, rest: seq<SlabId>, src: SlabId)
    requires p.Formed() && (forall q <- rest :: q in p.ids) && src in p.ids && (forall id <- p.ids :: id in t.used)
    requires base <= |t.list| && AllQuiet(n, p, max, base, t, rest)
    requires Quiet(n, p, max, base, t, src, ExtentsOn(n.walk, src))
    ensures AllQuiet(n, p, max, base, t, rest + [src])
  {
  }

  lemma OwnScan(n: Node, p: Pool, max: nat, base: nat, r: Picture, src: SlabId)
    requires p.Formed() && src in p.ids && Walked(n) && Tracks(n, p, base, r)
    requires AllChosen(n, p, UsedOf(p), TargetsOf(p), r.list[base..]) && forall l <- r.seen :: l.slab != src
    ensures
      var t := Scan(n, p, max, r, src, ExtentsOn(n.walk, src));
      && Tracks(n, p, base, t) && AllChosen(n, p, UsedOf(p), TargetsOf(p), t.list[base..])
      && Quiet(n, p, max, base, t, src, ExtentsOn(n.walk, src))
  {
    ExtentsDiffer(n.walk, src);
    ScanSettles(n, p, max, base, r, src, ExtentsOn(n.walk, src));
  }

  lemma OthersStayQuiet(n: Node, p: Pool, max: nat, base: nat, r: Picture, rest: seq<SlabId>, src: SlabId)
    requires p.Formed() && (forall q <- rest :: q in p.ids) && src in p.ids && Tracks(n, p, base, r)
    requires AllQuiet(n, p, max, base, r, rest)
    ensures
      var t := Scan(n, p, max, r, src, ExtentsOn(n.walk, src));
      base <= |t.list| && AllQuiet(n, p, max, base, t, rest)
  {
    ScanFromOnly(n, p, max, |r.list|, r, src, ExtentsOn(n.walk, src), [src]);
    forall q <- rest
      ensures Quiet(n, p, max, base, Scan(n, p, max, r, src, ExtentsOn(n.walk, src)), q, ExtentsOn(n.walk, q))
    {
      ScanKeepsQuiet(n, p, max, base, r, src, ExtentsOn(n.walk, src), q, ExtentsOn(n.walk, q));
    }
  }

  lemma {:induction false} ScanSees(n: Node, p: Pool, max: nat, s: Picture, src: SlabId, items: seq<Item>)
    requires p.Formed() && src in p.ids && forall id <- p.ids :: id in s.used
    ensures forall l <- Scan(n, p, max, s, src, items).seen :: l in s.seen || l.slab == src
  {
    if items != [] {
      ScanSees(n, p, max, s, src, items[..|items| - 1]);
      SeenMore(n, p, max, Scan(n, p, max, s, src, items[..|items| - 1]), src, items[|items| - 1]);
    }
  }

  lemma {:induction false} OverIs(p: Pool, ids: seq<SlabId>)
    requires p.Formed() && (forall id <- ids :: id in p.ids) && forall i, j :: 0 <= i < j < |ids| ==> ids[i] != ids[j]
    ensures forall id <- ids :: id in Over(p, ids) <==> TooFull(p, UsedOf(p), TargetsOf(p), id)
    ensures forall i, j :: 0 <= i < j < |Over(p, ids)| ==> Over(p, ids)[i] != Over(p, ids)[j]
  {
    if ids != [] {
      var rest := ids[..|ids| - 1];
      OverIs(p, rest);
      assert ids == rest + [ids[|ids| - 1]];
    }
  }

  /** The moves planned for a pool are well chosen, off slabs too full alone, and enough: each slab
      too full ends at its share, or the list is full, or every extent walked with a leg on it is
      answered for. */
  lemma ThePoolIsSettled(n: Node, p: Pool, max: nat, list: seq<Move>, left: nat, used: map<SlabId, nat>,
        share: map<SlabId, nat>)
    requires p.Formed() && Walked(n) && Measured(p, used, share)
    ensures
      var t := PlanOf(n, p, max, list, left);
      list <= t.list && Settled(n, p, used, share, t.list[|list|..], |t.list| >= max)
  {
    MeasuredIs(p, used, share);
    PlanIsSound(n, p, max, list, left);
    if |p.ids| >= 2 {
      EnoughIsPlanned(n, p, max, list, left);
    }
  }

  lemma EnoughIsPlanned(n: Node, p: Pool, max: nat, list: seq<Move>, left: nat)
    requires p.Formed() && Walked(n) && |p.ids| >= 2
    ensures
      var t := PlanOf(n, p, max, list, left);
      list <= t.list && Settled(n, p, UsedOf(p), TargetsOf(p), t.list[|list|..], |t.list| >= max)
  {
    PoolScanned(n, p, max, list, left);
    PlanIsSound(n, p, max, list, left);
    ScannedSettles(n, p, max, list, PlanOf(n, p, max, list, left));
  }

  lemma ScannedSettles(n: Node, p: Pool, max: nat, from: seq<Move>, t: Picture)
    requires p.Formed() && Sound(p, max, from, t) && Scanned(n, p, max, |from|, t, Over(p, p.ids))
    ensures Settled(n, p, UsedOf(p), TargetsOf(p), t.list[|from|..], |t.list| >= max)
  {
    OverIs(p, p.ids);
    MovesFrom(t.list, |from|, Over(p, p.ids));
    forall src <- p.ids | TooFull(p, UsedOf(p), TargetsOf(p), src)
      ensures |t.list| >= max || After(UsedOf(p), t.list[|from|..], src) == TargetsOf(p)[src] ||
        AllAnswered(n, p, UsedOf(p), TargetsOf(p), t.list[|from|..], src)
    {
      SlabSettled(n, p, max, |from|, from, t, src);
    }
  }

  lemma MovesFrom(list: seq<Move>, base: nat, srcs: seq<SlabId>)
    requires base <= |list| && FromOnly(list, base, srcs)
    ensures forall m <- list[base..] :: m.from in srcs
  {
    forall m <- list[base..]
      ensures m.from in srcs
    {
      var i :| 0 <= i < |list| - base && list[base..][i] == m;
      assert list[base + i] == m;
    }
  }

  lemma PoolScanned(n: Node, p: Pool, max: nat, list: seq<Move>, left: nat)
    requires p.Formed() && Walked(n) && |p.ids| >= 2
    ensures Scanned(n, p, max, |list|, PlanOf(n, p, max, list, left), Over(p, p.ids))
  {
    var s := First(p, list, left);
    OverIs(p, p.ids);
    assert s.list[|list|..] == [];
    ScanAllSettles(n, p, max, |list|, s, Over(p, p.ids));
  }

  lemma SlabSettled(n: Node, p: Pool, max: nat, base: nat, from: seq<Move>, t: Picture, src: SlabId)
    requires p.Formed() && src in p.ids && Tracks(n, p, base, t) && Sound(p, max, from, t)
    requires TooFull(p, UsedOf(p), TargetsOf(p), src)
    requires Quiet(n, p, max, base, t, src, ExtentsOn(n.walk, src))
    ensures |t.list| >= max || After(UsedOf(p), t.list[base..], src) == TargetsOf(p)[src] ||
      AllAnswered(n, p, UsedOf(p), TargetsOf(p), t.list[base..], src)
  {
    assert Between(UsedOf(p)[src], t.used[src], TargetsOf(p)[src]);
    forall i | 0 <= i < |n.walk| && FirstWalked(n.walk, i, src)
      ensures n.walk[i] in ExtentsOn(n.walk, src)
    {
      FirstIsListed(n.walk, i, src);
    }
  }

  // ---- what is counted as left

  ghost predicate CountsFrom(s: Picture, t: Picture) {
    s.seen <= t.seen && t.left + |t.list| - |t.seen| == s.left + |s.list| - |s.seen|
  }

  lemma ConsiderCounts(n: Node, p: Pool, max: nat, s: Picture, src: SlabId, it: Item)
    requires p.Formed() && src in p.ids && forall id <- p.ids :: id in s.used
    ensures CountsFrom(s, Consider(n, p, max, s, src, it))
  {
    var t := Consider(n, p, max, s, src, it);
    var leg := LegOn(it.legs, src);
    if !(Stops(p, max, s, src) || leg.None? || leg.value in s.seen) {
      assert |s.seen + {leg.value}| == |s.seen| + 1;
    }
  }

  lemma {:induction false} ScanCounts(n: Node, p: Pool, max: nat, s: Picture, src: SlabId, items: seq<Item>)
    requires p.Formed() && src in p.ids && forall id <- p.ids :: id in s.used
    ensures CountsFrom(s, Scan(n, p, max, s, src, items))
  {
    if items != [] {
      ScanCounts(n, p, max, s, src, items[..|items| - 1]);
      ConsiderCounts(n, p, max, Scan(n, p, max, s, src, items[..|items| - 1]), src, items[|items| - 1]);
    }
  }

  lemma {:induction false} ScanAllCounts(n: Node, p: Pool, max: nat, s: Picture, srcs: seq<SlabId>)
    requires p.Formed() && (forall src <- srcs :: src in p.ids) && forall id <- p.ids :: id in s.used
    ensures CountsFrom(s, ScanAll(n, p, max, s, srcs))
  {
    if srcs != [] {
      var src, rest := srcs[|srcs| - 1], srcs[..|srcs| - 1];
      ScanAllCounts(n, p, max, s, rest);
      ScanCounts(n, p, max, ScanAll(n, p, max, s, rest), src, ExtentsOn(n.walk, src));
    }
  }

  /** Every leg considered is planned away or counted as left, once. */
  lemma EachLegCounts(n: Node, p: Pool, max: nat, list: seq<Move>, left: nat)
    requires p.Formed()
    ensures
      var t := PlanOf(n, p, max, list, left);
      (t.left - left) + (|t.list| - |list|) == |t.seen|
  {
    if |p.ids| >= 2 {
      ScanAllCounts(n, p, max, First(p, list, left), Over(p, p.ids));
    }
  }

  // ---------------------------------------------------------------- the whole plan

  ghost function PlanAll(n: Node, pools: seq<Pool>, max: nat): (r: (seq<Move>, nat))
    requires forall p <- pools :: p.Formed()
  {
    if pools == [] then ([], 0) else
    var (list, left) := PlanAll(n, pools[..|pools| - 1], max);
    var s := PlanOf(n, pools[|pools| - 1], max, list, left);
    (s.list, s.left)
  }

  /** Pools are well formed and share no slab. */
  ghost predicate Pools(pools: seq<Pool>) {
    && (forall p <- pools :: p.Formed())
    && (forall i, j :: 0 <= i < j < |pools| ==> forall id <- pools[i].ids :: id !in pools[j].ids)
  }

  /** What planning the first pools keeps: every move between two slabs of one of them, no leg
      twice, and the legs of every extent that lives in one of them apart. */
  ghost predicate Planned(n: Node, pools: seq<Pool>, list: seq<Move>) {
    && (forall m <- list :: LegOf(n.walk, m).Some? && exists p <- pools :: m.from in p.ids && m.to in p.ids)
    && (forall i, j :: 0 <= i < j < |list| ==> LegOf(n.walk, list[i]) != LegOf(n.walk, list[j]))
    && (forall p <- pools, it <- n.walk :: Home(p, it) ==> Kept(n, list, it))
  }

  lemma {:induction false} KeptAfterOthers(n: Node, list: seq<Move>, more: seq<Move>, it: Item)
    requires Kept(n, list, it) && Untouched(more, it.ext)
    ensures Kept(n, list + more, it)
  {
    if more == [] {
      assert list + more == list;
    } else {
      var m := more[|more| - 1];
      KeptAfterOthers(n, list, more[..|more| - 1], it);
      assert list + more == (list + more[..|more| - 1]) + [m];
      PlaceOther(list + more[..|more| - 1], m, it);
    }
  }

  /** An extent that lives in one pool is not moved by another. */
  lemma OthersLeaveItAlone(n: Node, p: Pool, it: Item, list: seq<Move>)
    requires Walked(n) && it in n.walk && Home(p, it)
    requires forall m <- list :: LegOf(n.walk, m).Some? && m.from !in p.ids
    ensures Untouched(list, it.ext)
  {
    FindItem(n.walk, it);
  }

  lemma {:induction false} PlannedFrom(n: Node, pools: seq<Pool>, max: nat)
    requires Pools(pools) && Walked(n)
    ensures Planned(n, pools, PlanAll(n, pools, max).0) && |PlanAll(n, pools, max).0| <= max
  {
    if pools != [] {
      var rest, p := pools[..|pools| - 1], pools[|pools| - 1];
      var (list, left) := PlanAll(n, rest, max);
      assert pools == rest + [p];
      PlannedFrom(n, rest, max);
      PlannedMore(n, rest, p, max, list, left);
      WithinTheLimit(n, p, max, list, left);
    }
  }

  lemma WithinTheLimit(n: Node, p: Pool, max: nat, list: seq<Move>, left: nat)
    requires p.Formed() && |list| <= max
    ensures |PlanOf(n, p, max, list, left).list| <= max
  {
    PlanIsSound(n, p, max, list, left);
  }

  lemma PlannedMore(n: Node, rest: seq<Pool>, p: Pool, max: nat, list: seq<Move>, left: nat)
    requires Pools(rest + [p]) && Walked(n) && Planned(n, rest, list) && p.Formed()
    ensures Planned(n, rest + [p], PlanOf(n, p, max, list, left).list)
  {
    var pools := rest + [p];
    var s := PlanOf(n, p, max, list, left);
    forall r <- rest, id <- r.ids
      ensures id !in p.ids
    {
      var i :| 0 <= i < |rest| && rest[i] == r;
      assert pools[i] == r && pools[|rest|] == p;
    }
    forall it <- n.walk | Home(p, it)
      ensures Untouched(list, it.ext)
    {
      OthersLeaveItAlone(n, p, it, list);
    }
    PoolPlanKeepsLegsApart(n, p, max, list, left);
    MovesApart(n, rest, p, list, s);
    EarlierKept(n, rest, p, list, s);
  }

  lemma EarlierKept(n: Node, rest: seq<Pool>, p: Pool, list: seq<Move>, s: Picture)
    requires Walked(n) && list <= s.list && Once(n, p, |list|, s)
    requires forall r <- rest, id <- r.ids :: id !in p.ids
    requires forall r <- rest, it <- n.walk :: Home(r, it) ==> Kept(n, list, it)
    ensures forall r <- rest, it <- n.walk :: Home(r, it) ==> Kept(n, s.list, it)
  {
    var more := s.list[|list|..];
    assert s.list == list + more;
    forall r <- rest, it <- n.walk | Home(r, it)
      ensures Kept(n, s.list, it)
    {
      forall m <- more
        ensures LegOf(n.walk, m).Some? && m.from !in r.ids
      {
        var i :| 0 <= i < |more| && more[i] == m;
        assert s.list[|list| + i] == m;
      }
      OthersLeaveItAlone(n, r, it, more);
      KeptAfterOthers(n, list, more, it);
    }
  }

  lemma MovesApart(n: Node, rest: seq<Pool>, p: Pool, list: seq<Move>, s: Picture)
    requires Planned(n, rest, list) && list <= s.list && Once(n, p, |list|, s)
    requires forall r <- rest, id <- r.ids :: id !in p.ids
    ensures forall m <- s.list :: LegOf(n.walk, m).Some? && exists q <- rest + [p] :: m.from in q.ids && m.to in q.ids
    ensures forall i, j :: 0 <= i < j < |s.list| ==> LegOf(n.walk, s.list[i]) != LegOf(n.walk, s.list[j])
  {
    forall m <- s.list
      ensures LegOf(n.walk, m).Some? && exists q <- rest + [p] :: m.from in q.ids && m.to in q.ids
    {
      var i :| 0 <= i < |s.list| && s.list[i] == m;
      if i < |list| {
        assert list[i] == m && m in list;
        var q :| q in rest && m.from in q.ids && m.to in q.ids;
        assert q in rest + [p];
      } else {
        assert p in rest + [p];
      }
    }
    forall i, j | 0 <= i < j < |s.list|
      ensures LegOf(n.walk, s.list[i]) != LegOf(n.walk, s.list[j])
    {
      if i < |list| {
        assert s.list[i] == list[i] && list[i] in list;
        if j < |list| {
          assert s.list[j] == list[j];
        } else {
          var q :| q in rest && list[i].from in q.ids;
        }
      }
    }
  }

  /** A part of the plan is this pool's, settled; the rest moves nothing off its slabs. */
  ghost predicate PoolSettled(n: Node, p: Pool, max: nat, list: seq<Move>)
    requires p.Formed()
  {
    exists i, j :: 0 <= i <= j <= |list| && (forall m <- list[..i] + list[j..] :: m.from !in p.ids) &&
      SettledAs(n, p, max, list[i..j], |list| >= max)
  }

  ghost predicate SettledAs(n: Node, p: Pool, max: nat, moves: seq<Move>, full: bool)
    requires p.Formed()
  {
    forall used, share | Measured(p, used, share) :: Settled(n, p, used, share, moves, full)
  }

  lemma {:induction false} EveryPoolIsSettled(n: Node, pools: seq<Pool>, max: nat, p: Pool)
    requires Pools(pools) && Walked(n) && p in pools
    ensures PoolSettled(n, p, max, PlanAll(n, pools, max).0)
  {
    var rest, last := pools[..|pools| - 1], pools[|pools| - 1];
    var (list, left) := PlanAll(n, rest, max);
    var all := PlanAll(n, pools, max).0;
    assert pools == rest + [last];
    PlanIsSound(n, last, max, list, left);
    PlannedFrom(n, rest, max);
    MovesOfPool(n, last, max, list, left);
    if p == last {
      SettledLast(n, pools, max);
    } else {
      EveryPoolIsSettled(n, rest, max, p);
      SettledBefore(n, p, max, list, all, last);
    }
  }

  lemma MovesOfPool(n: Node, p: Pool, max: nat, list: seq<Move>, left: nat)
    requires p.Formed() && Walked(n)
    ensures
      var t := PlanOf(n, p, max, list, left);
      list <= t.list && forall m <- t.list[|list|..] :: m.from in p.ids
  {
    PlanIsSound(n, p, max, list, left);
    assert Measured(p, UsedOf(p), TargetsOf(p)) by {
      OwnMeasure(p);
    }
    ThePoolIsSettled(n, p, max, list, left, UsedOf(p), TargetsOf(p));
  }

  /** What is computed of a pool is its fills and shares. */
  lemma OwnMeasure(p: Pool)
    requires p.Formed()
    ensures Measured(p, UsedOf(p), TargetsOf(p))
  {
    forall id <- p.ids
      ensures Sum(p.ids, p.total) == 0 ==> TargetsOf(p)[id] == 0
    {
    }
  }

  lemma SettledLast(n: Node, pools: seq<Pool>, max: nat)
    requires Pools(pools) && Walked(n) && pools != []
    ensures PoolSettled(n, pools[|pools| - 1], max, PlanAll(n, pools, max).0)
  {
    var rest, p := pools[..|pools| - 1], pools[|pools| - 1];
    var (list, left) := PlanAll(n, rest, max);
    assert pools == rest + [p];
    PlannedFrom(n, rest, max);
    OffTheNextPool(n, rest, p, list);
    PoolSettledAfter(n, p, max, list, left);
  }

  lemma OffTheNextPool(n: Node, rest: seq<Pool>, p: Pool, list: seq<Move>)
    requires Pools(rest + [p]) && Planned(n, rest, list)
    ensures forall m <- list :: m.from !in p.ids
  {
    forall m <- list
      ensures m.from !in p.ids
    {
      var q :| q in rest && m.from in q.ids && m.to in q.ids;
      var i :| 0 <= i < |rest| && rest[i] == q;
      assert (rest + [p])[i] == q && (rest + [p])[|rest|] == p;
    }
  }

  lemma PoolSettledAfter(n: Node, p: Pool, max: nat, list: seq<Move>, left: nat)
    requires p.Formed() && Walked(n) && forall m <- list :: m.from !in p.ids
    ensures PoolSettled(n, p, max, PlanOf(n, p, max, list, left).list)
  {
    var all := PlanOf(n, p, max, list, left).list;
    PlanIsSound(n, p, max, list, left);
    assert all[|list|..|all|] == all[|list|..] && all[..|list|] + all[|all|..] == list;
    assert SettledAs(n, p, max, all[|list|..|all|], |all| >= max) by {
      forall used, share | Measured(p, used, share)
        ensures Settled(n, p, used, share, all[|list|..], |all| >= max)
      {
        ThePoolIsSettled(n, p, max, list, left, used, share);
      }
    }
  }

  lemma SettledBefore(n: Node, p: Pool, max: nat, list: seq<Move>, all: seq<Move>, last: Pool)
    requires p.Formed() && PoolSettled(n, p, max, list) && list <= all
    requires (forall m <- all[|list|..] :: m.from in last.ids) && forall id <- last.ids :: id !in p.ids
    ensures PoolSettled(n, p, max, all)
  {
    var i, j :| 0 <= i <= j <= |list| && (forall m <- list[..i] + list[j..] :: m.from !in p.ids) &&
      SettledAs(n, p, max, list[i..j], |list| >= max);
    assert all[i..j] == list[i..j];
    assert all[..i] + all[j..] == list[..i] + list[j..] + all[|list|..];
    assert SettledAs(n, p, max, all[i..j], |all| >= max);
  }

  // ---------------------------------------------------------------- running the moves

  type Maps = map<Extent, seq<Leg>>

  /** How a move went: copied to a slot of the destination, or given up. */
  datatype Outcome = Copied(slot: nat) | Skipped | Failed

  /** The recheck: a leg on the source, none on the destination, which is not quarantined. */
  predicate StillPlanned(maps: Maps, m: Move, quarantined: set<SlabId>) {
    && m.ext in maps && LegOn(maps[m.ext], m.from).Some?
    && m.to !in quarantined && m.to !in SlabsOf(maps[m.ext])
  }

  /** The leg rewritten in every map that names it. */
  function RunMove(maps: Maps, m: Move, quarantined: set<SlabId>, out: Outcome): Maps {
    if !StillPlanned(maps, m, quarantined) || !out.Copied? then maps else
    var leg := LegOn(maps[m.ext], m.from).value;
    map e | e in maps :: Swap(maps[e], leg, Leg(m.to, out.slot))
  }

  /** A move that is made rewrites the leg in every map that names it, and nothing else; one whose
      extent has no leg left on the source, has one on the destination already, or whose destination
      is quarantined, changes nothing. */
  lemma WhatAMoveRewrites(maps: Maps, m: Move, quarantined: set<SlabId>, out: Outcome, e: Extent, i: nat)
    requires e in maps && i < |maps[e]|
    ensures
      var after := RunMove(maps, m, quarantined, out);
      var leg := if m.ext in maps then LegOn(maps[m.ext], m.from) else None;
      && after.Keys == maps.Keys && |after[e]| == |maps[e]|
      && after[e][i] ==
         (if out.Copied? && leg == Some(maps[e][i]) && m.to !in quarantined && LegOn(maps[m.ext], m.to).None?
          then Leg(m.to, out.slot) else maps[e][i])
  {
    if m.ext in maps {
      SlabIn(maps[m.ext], m.to);
    }
  }

  ghost function RunAll(maps: Maps, list: seq<Move>, quarantined: nat -> set<SlabId>, outs: nat -> Outcome): Maps {
    if list == [] then maps else
    var k := |list| - 1;
    RunMove(RunAll(maps, list[..k], quarantined, outs), list[k], quarantined(k), outs(k))
  }

  ghost predicate Names(maps: Maps, leg: Leg) {
    exists e <- maps :: leg in maps[e]
  }

  /** Slots handed out for copies are free ones. */
  ghost predicate FreeSlots(maps: Maps, list: seq<Move>, quarantined: nat -> set<SlabId>, outs: nat -> Outcome) {
    forall i :: 0 <= i < |list| && outs(i).Copied? ==>
      !Names(RunAll(maps, list[..i], quarantined, outs), Leg(list[i].to, outs(i).slot))
  }

  ghost predicate Unshared(maps: Maps, e: Extent) {
    e in maps && forall f <- maps, l <- maps[e] :: f != e ==> l !in maps[f]
  }

  lemma RunMovePlaces(maps: Maps, m: Move, quarantined: set<SlabId>, out: Outcome, e: Extent)
    requires Unshared(maps, e) && Distinct(SlabsOf(maps[e])) && (out.Copied? ==> !Names(maps, Leg(m.to, out.slot)))
    ensures
      var after := RunMove(maps, m, quarantined, out);
      && Unshared(after, e) && Distinct(SlabsOf(after[e]))
      && SlabsOf(after[e]) == if m.ext == e && out.Copied? && m.to !in quarantined && Applies(m, e, SlabsOf(maps[e]))
                              then Swap(SlabsOf(maps[e]), m.from, m.to) else SlabsOf(maps[e])
  {
    SlabIn(maps[e], m.from);
    if StillPlanned(maps, m, quarantined) && out.Copied? {
      var leg := LegOn(maps[m.ext], m.from).value;
      var after := RunMove(maps, m, quarantined, out);
      RelabelKeepsUnshared(maps, e, m.ext, leg, Leg(m.to, out.slot));
      if m.ext == e {
        forall i | 0 <= i < |maps[e]|
          ensures maps[e][i] == leg <==> SlabsOf(maps[e])[i] == m.from
        {
          if maps[e][i] != leg {
            StaysIn(maps[e], maps[e][i], m.from);
          }
        }
        assert SlabsOf(after[e]) == Swap(SlabsOf(maps[e]), m.from, m.to);
      } else {
        assert after[e] == maps[e];
      }
    }
  }

  lemma RelabelKeepsUnshared(maps: Maps, e: Extent, of: Extent, leg: Leg, to: Leg)
    requires Unshared(maps, e) && of in maps && leg in maps[of] && !Names(maps, to)
    ensures
      var after := map f | f in maps :: Swap(maps[f], leg, to);
      Unshared(after, e) && (of != e ==> leg !in maps[e])
  {
    var after := map f | f in maps :: Swap(maps[f], leg, to);
    forall f <- after, l <- after[e] | f != e
      ensures l !in after[f]
    {
      assert of == e ==> leg !in maps[f];
      assert of != e ==> leg !in maps[e];
      var i :| 0 <= i < |maps[e]| && after[e][i] == l;
      assert maps[e][i] in maps[e];
    }
  }

  lemma SlabIn(legs: seq<Leg>, slab: SlabId)
    ensures LegOn(legs, slab).Some? <==> slab in SlabsOf(legs)
  {
    if LegOn(legs, slab).Some? {
      var i :| 0 <= i < |legs| && legs[i] == LegOn(legs, slab).value;
      assert SlabsOf(legs)[i] == slab;
    } else {
      assert forall i :: 0 <= i < |legs| ==> SlabsOf(legs)[i] == legs[i].slab && legs[i] in legs;
    }
  }

  /** Whatever the list of moves, whatever fails and whatever is quarantined since: an extent
      whose slots no other map names keeps its legs on different slabs. */
  lemma {:induction false} RunKeepsSlabsDistinct(maps: Maps, list: seq<Move>, quarantined: nat -> set<SlabId>,
        outs: nat -> Outcome, e: Extent)
    requires Unshared(maps, e) && Distinct(SlabsOf(maps[e])) && FreeSlots(maps, list, quarantined, outs)
    ensures
      var after := RunAll(maps, list, quarantined, outs);
      Unshared(after, e) && Distinct(SlabsOf(after[e])) && |after[e]| == |maps[e]|
  {
    if list != [] {
      var k := |list| - 1;
      assert forall i :: 0 <= i < k ==> list[..k][..i] == list[..i];
      RunKeepsSlabsDistinct(maps, list[..k], quarantined, outs, e);
      RunMovePlaces(RunAll(maps, list[..k], quarantined, outs), list[k], quarantined(k), outs(k), e);
    }
  }

  lemma {:induction false} RunPlaces(maps: Maps, list: seq<Move>, quarantined: nat -> set<SlabId>,
        outs: nat -> Outcome, e: Extent)
    requires Unshared(maps, e) && Distinct(SlabsOf(maps[e])) && FreeSlots(maps, list, quarantined, outs)
    requires forall i :: 0 <= i < |list| ==> outs(i).Copied? && list[i].to !in quarantined(i)
    ensures
      var after := RunAll(maps, list, quarantined, outs);
      e in after && SlabsOf(after[e]) == Place(list, e, SlabsOf(maps[e]))
  {
    if list != [] {
      var k := |list| - 1;
      assert forall i :: 0 <= i < k ==> list[..k][..i] == list[..i];
      RunKeepsSlabsDistinct(maps, list[..k], quarantined, outs, e);
      RunPlaces(maps, list[..k], quarantined, outs, e);
      RunMovePlaces(RunAll(maps, list[..k], quarantined, outs), list[k], quarantined(k), outs(k), e);
    }
  }

  /** Running the whole plan on the maps it was made from: no move of an unshared extent that
      lives in one pool is skipped, and its legs end on different slabs, apart at the volume's
      rung if they were. */
  lemma RunningThePlanKeepsLegsApart(n: Node, pools: seq<Pool>, max: nat, maps: Maps, outs: nat -> Outcome, p: Pool,
        it: Item)
    requires Pools(pools) && Walked(n) && forall i <- n.walk :: i.ext in maps && maps[i.ext] == i.legs
    requires p in pools && it in n.walk && Home(p, it) && Unshared(maps, it.ext)
    requires forall i :: outs(i).Copied?
    requires FreeSlots(maps, PlanAll(n, pools, max).0, NoneQuarantined, outs)
    ensures
      var list := PlanAll(n, pools, max).0;
      var after := RunAll(maps, list, NoneQuarantined, outs);
      && it.ext in after && Distinct(SlabsOf(after[it.ext]))
      && (Spread(n, SlabsOf(it.legs), RungOf(n, it.ext.volume)) ==>
        Spread(n, SlabsOf(after[it.ext]), RungOf(n, it.ext.volume)))
      && forall i :: 0 <= i < |list| && list[i].ext == it.ext ==>
           StillPlanned(RunAll(maps, list[..i], NoneQuarantined, outs), list[i], {})
  {
    var list := PlanAll(n, pools, max).0;
    PlannedFrom(n, pools, max);
    KeptWhenRun(n, list, maps, outs, it);
  }

  lemma KeptWhenRun(n: Node, list: seq<Move>, maps: Maps, outs: nat -> Outcome, it: Item)
    requires it.ext in maps && maps[it.ext] == it.legs && Distinct(SlabsOf(it.legs)) && Unshared(maps, it.ext)
    requires Kept(n, list, it) && FreeSlots(maps, list, NoneQuarantined, outs) && forall i :: outs(i).Copied?
    ensures
      var after := RunAll(maps, list, NoneQuarantined, outs);
      && it.ext in after && SlabsOf(after[it.ext]) == Place(list, it.ext, SlabsOf(it.legs))
      && forall i :: 0 <= i < |list| && list[i].ext == it.ext ==>
           StillPlanned(RunAll(maps, list[..i], NoneQuarantined, outs), list[i], {})
  {
    RunPlaces(maps, list, NoneQuarantined, outs, it.ext);
    forall i | 0 <= i < |list| && list[i].ext == it.ext
      ensures StillPlanned(RunAll(maps, list[..i], NoneQuarantined, outs), list[i], {})
    {
      assert forall j :: 0 <= j < i ==> list[..i][..j] == list[..j];
      RunPlaces(maps, list[..i], NoneQuarantined, outs, it.ext);
      assert Applies(list[i], it.ext, Place(list[..i], it.ext, SlabsOf(it.legs)));
      SlabIn(RunAll(maps, list[..i], NoneQuarantined, outs)[it.ext], list[i].from);
    }
  }

  function NoneQuarantined(i: nat): set<SlabId> {
    {}
  }

  /** The recheck looks at slabs, not domains: when the maps changed after the plan was made, a
      move keeps the legs apart exactly when the destination is apart from the legs that stay. */
  lemma RecheckKeepsApartIff(n: Node, maps: Maps, m: Move, q: set<SlabId>, out: Outcome, rung: string)
    requires out.Copied? && !Names(maps, Leg(m.to, out.slot)) && StillPlanned(maps, m, q)
    requires Unshared(maps, m.ext) && Distinct(SlabsOf(maps[m.ext])) && Spread(n, SlabsOf(maps[m.ext]), rung)
    ensures m.ext in RunMove(maps, m, q, out)
    ensures Spread(n, SlabsOf(RunMove(maps, m, q, out)[m.ext]), rung) <==> StaysApart(n, maps, m, rung)
  {
    RunMovePlaces(maps, m, q, out, m.ext);
    SlabIn(maps[m.ext], m.from);
    SwappedApartIff(n, SlabsOf(maps[m.ext]), m.from, m.to, rung);
  }

  /** The destination is apart from the legs that stay. */
  ghost predicate StaysApart(n: Node, maps: Maps, m: Move, rung: string)
    requires m.ext in maps
  {
    forall o <- SlabsOf(maps[m.ext]) :: o != m.from ==> !Together(n, m.to, o, rung)
  }

  lemma SwappedApartIff(n: Node, was: seq<SlabId>, from: SlabId, to: SlabId, rung: string)
    requires Distinct(was) && Spread(n, was, rung) && from in was && to !in was
    ensures Spread(n, Swap(was, from, to), rung) <==> forall o <- was :: o != from ==> !Together(n, to, o, rung)
  {
    var now := Swap(was, from, to);
    var k :| 0 <= k < |was| && was[k] == from;
    if Spread(n, now, rung) {
      forall o <- was | o != from
        ensures !Together(n, to, o, rung)
      {
        var i :| 0 <= i < |was| && was[i] == o;
        assert now[k] == to && now[i] == o;
      }
    } else {
      var i, j :| 0 <= i < j < |now| && Together(n, now[i], now[j], rung);
      assert was[i] in was && was[j] in was && !Together(n, was[i], was[j], rung);
    }
  }

  /** A move of the extent that the run makes. */
  ghost predicate Made(maps: Maps, list: seq<Move>, quarantined: nat -> set<SlabId>, outs: nat -> Outcome,
        e: Extent, k: nat)
    requires k < |list|
  {
    list[k].ext == e && outs(k).Copied? && StillPlanned(RunAll(maps, list[..k], quarantined, outs), list[k],
      quarantined(k))
  }

  ghost predicate ApartAfter(n: Node, maps: Maps, list: seq<Move>, quarantined: nat -> set<SlabId>,
        outs: nat -> Outcome,
        e: Extent, rung: string, k: nat)
    requires k <= |list|
  {
    var after := RunAll(maps, list[..k], quarantined, outs);
    e in after && Spread(n, SlabsOf(after[e]), rung)
  }

  ghost predicate MadeApart(n: Node, maps: Maps, list: seq<Move>, quarantined: nat -> set<SlabId>, outs: nat -> Outcome,
        e: Extent, rung: string, k: nat)
    requires k < |list|
  {
    Made(maps, list, quarantined, outs, e, k) ==>
      StaysApart(n, RunAll(maps, list[..k], quarantined, outs), list[k], rung)
  }

  lemma ApartMoreIff(n: Node, maps: Maps, list: seq<Move>, quarantined: nat -> set<SlabId>, outs: nat -> Outcome,
        e: Extent, rung: string, k: nat)
    requires Unshared(maps, e) && Distinct(SlabsOf(maps[e])) && FreeSlots(maps, list, quarantined, outs) && k < |list|
    requires ApartAfter(n, maps, list, quarantined, outs, e, rung, k)
    ensures ApartAfter(n, maps, list, quarantined, outs, e, rung, k + 1) <==>
      MadeApart(n, maps, list, quarantined, outs, e, rung, k)
  {
    assert forall i :: 0 <= i < k ==> list[..k][..i] == list[..i];
    RunKeepsSlabsDistinct(maps, list[..k], quarantined, outs, e);
    var was := RunAll(maps, list[..k], quarantined, outs);
    assert list[..k + 1][..k] == list[..k];
    RunMovePlaces(was, list[k], quarantined(k), outs(k), e);
    if Made(maps, list, quarantined, outs, e, k) {
      RecheckKeepsApartIff(n, was, list[k], quarantined(k), outs(k), rung);
    }
  }

  /** Whatever fails and whatever is quarantined since: an unshared extent's legs stay apart through
      the whole run if and only if each move of it that is made goes apart from the legs that stay. */
  lemma {:induction false} RunKeepsApartIff(n: Node, maps: Maps, list: seq<Move>, quarantined: nat -> set<SlabId>,
        outs: nat -> Outcome, e: Extent, rung: string, m: nat)
    requires Unshared(maps, e) && Distinct(SlabsOf(maps[e])) && FreeSlots(maps, list, quarantined, outs) && m <= |list|
    requires Spread(n, SlabsOf(maps[e]), rung)
    ensures AllApart(n, maps, list, quarantined, outs, e, rung, m) <==>
      AllMadeApart(n, maps, list, quarantined, outs, e, rung, m)
  {
    if m == 0 {
      assert list[..0] == [];
    } else {
      RunKeepsApartIff(n, maps, list, quarantined, outs, e, rung, m - 1);
      ApartOneMore(n, maps, list, quarantined, outs, e, rung, m - 1);
      if ApartAfter(n, maps, list, quarantined, outs, e, rung, m - 1) {
        ApartMoreIff(n, maps, list, quarantined, outs, e, rung, m - 1);
      }
    }
  }

  /** Apart at every point of the run's first moves. */
  ghost predicate AllApart(n: Node, maps: Maps, list: seq<Move>, quarantined: nat -> set<SlabId>,
        outs: nat -> Outcome, e: Extent, rung: string, m: nat)
    requires m <= |list|
  {
    forall k :: 0 <= k <= m ==> ApartAfter(n, maps, list, quarantined, outs, e, rung, k)
  }

  ghost predicate AllMadeApart(n: Node, maps: Maps, list: seq<Move>, quarantined: nat -> set<SlabId>,
        outs: nat -> Outcome, e: Extent, rung: string, m: nat)
    requires m <= |list|
  {
    forall k :: 0 <= k < m ==> MadeApart(n, maps, list, quarantined, outs, e, rung, k)
  }

  lemma ApartOneMore(n: Node, maps: Maps, list: seq<Move>, quarantined: nat -> set<SlabId>, outs: nat -> Outcome,
        e: Extent, rung: string, m: nat)
    requires m < |list|
    ensures AllApart(n, maps, list, quarantined, outs, e, rung, m + 1) <==>
      AllApart(n, maps, list, quarantined, outs, e, rung, m) &&
      ApartAfter(n, maps, list, quarantined, outs, e, rung, m + 1)
    ensures AllMadeApart(n, maps, list, quarantined, outs, e, rung, m + 1) <==>
      AllMadeApart(n, maps, list, quarantined, outs, e, rung, m) &&
      MadeApart(n, maps, list, quarantined, outs, e, rung, m)
  {
  }

  /** Two drives and three slabs, two of them on one drive. Extent 0's legs were on slabs 0 and 3
      when its leg on 0 was planned onto 2; the other has since moved to slab 1, on 2's drive. */
  const TwoDrives: Node :=
    Node([], map[0 := [Label("drive", "A")], 1 := [Label("drive", "B")], 2 := [Label("drive", "B")]], map[], {})
  const Since: Maps := map[Extent(7, 0) := [Leg(0, 0), Leg(1, 0)]]

  lemma TheRecheckCanPutLegsTogether()
    ensures
      var m, e := Move(Extent(7, 0), 0, 2), Extent(7, 0);
      && Spread(TwoDrives, SlabsOf(Since[e]), "drive") && StillPlanned(Since, m, {})
      && e in RunMove(Since, m, {}, Copied(5))
      && !Spread(TwoDrives, SlabsOf(RunMove(Since, m, {}, Copied(5))[e]), "drive")
  {
    var m, e := Move(Extent(7, 0), 0, 2), Extent(7, 0);
    assert KeyAt([Label("drive", "A")], "drive") == [Label("drive", "A")];
    assert KeyAt([Label("drive", "B")], "drive") == [Label("drive", "B")];
    assert SlabsOf(Since[e]) == [0, 1];
    var now := SlabsOf(RunMove(Since, m, {}, Copied(5))[e]);
    assert now == [2, 1];
    assert DomainOf(TwoDrives, 2) == DomainOf(TwoDrives, 1) == [Label("drive", "B")];
    assert Together(TwoDrives, now[0], now[1], "drive");
  }

  // ---------------------------------------------------------------- the loops

  method SumOf(ids: seq<SlabId>, m: map<SlabId, nat>) returns (s: nat)
    requires forall id <- ids :: id in m
    ensures s == Sum(ids, m)
  {
    s := 0;
    for i := 0 to |ids|
      invariant s == Sum(ids[..i], m)
    {
      assert ids[..i + 1][..i] == ids[..i];
      s := s + m[ids[i]];
    }
    assert ids[..|ids|] == ids;
  }

  method Targets(p: Pool, used: map<SlabId, nat>) returns (target: map<SlabId, nat>)
    requires p.Formed() && used == UsedOf(p)
    ensures target == TargetsOf(p)
  {
    var u := SumOf(p.ids, used);
    var t := SumOf(p.ids, p.total);
    target := map id | id in p.ids :: Ceil(u * p.total[id], t);
  }

  method Sources(p: Pool, used: map<SlabId, nat>, target: map<SlabId, nat>) returns (over: seq<SlabId>)
    requires p.Formed() && used == UsedOf(p) && target == TargetsOf(p)
    ensures over == Over(p, p.ids)
  {
    over := [];
    for i := 0 to |p.ids|
      invariant over == Over(p, p.ids[..i])
    {
      assert p.ids[..i + 1][..i] == p.ids[..i];
      var id := p.ids[i];
      if used[id] > target[id] + Slack(p.total[id]) {
        over := over + [id];
      }
    }
    assert p.ids[..|p.ids|] == p.ids;
  }

  /** The destination of one leg. */
  method Destination(n: Node, p: Pool, used: map<SlabId, nat>, target: map<SlabId, nat>, legs: seq<SlabId>,
        src: SlabId, rung: string) returns (to: Option<SlabId>)
    requires forall id <- p.ids :: id in used && id in target && id in p.total
    ensures to == Best(n, p, used, target, legs, src, rung, p.ids)
  {
    to := None;
    for i := 0 to |p.ids|
      invariant to == Best(n, p, used, target, legs, src, rung, p.ids[..i])
    {
      assert p.ids[..i + 1][..i] == p.ids[..i];
      var id := p.ids[i];
      if Fits(n, used, target, legs, src, rung, id) &&
         (to.None? || Fill(used[id], p.total[id]) < Fill(used[to.value], p.total[to.value])) {
        to := Some(id);
      }
    }
    assert p.ids[..|p.ids|] == p.ids;
  }

  /** Once the slab is at its target or the list is full, the rest of its extents change nothing. */
  lemma {:induction false} TheRestIsSkipped(n: Node, p: Pool, max: nat, s: Picture, src: SlabId, items: seq<Item>,
        k: nat)
    requires p.Formed() && src in p.ids && (forall id <- p.ids :: id in s.used) && k <= |items|
    requires Stops(p, max, Scan(n, p, max, s, src, items[..k]), src)
    ensures Scan(n, p, max, s, src, items) == Scan(n, p, max, s, src, items[..k])
  {
    if k == |items| {
      assert items[..k] == items;
    } else {
      var rest := items[..|items| - 1];
      assert rest[..k] == items[..k];
      TheRestIsSkipped(n, p, max, s, src, rest, k);
    }
  }

  lemma ScanMore(n: Node, p: Pool, max: nat, s: Picture, src: SlabId, items: seq<Item>, i: nat)
    requires p.Formed() && src in p.ids && (forall id <- p.ids :: id in s.used) && i < |items|
    ensures Scan(n, p, max, s, src, items[..i + 1]) ==
      Consider(n, p, max, Scan(n, p, max, s, src, items[..i]), src, items[i])
  {
    assert items[..i + 1][..i] == items[..i];
  }

  method ScanSlab(n: Node, p: Pool, max: nat, target: map<SlabId, nat>, was: Picture, src: SlabId) returns (s: Picture)
    requires p.Formed() && src in p.ids && (forall id <- p.ids :: id in was.used) && target == TargetsOf(p)
    ensures s == Scan(n, p, max, was, src, ExtentsOn(n.walk, src))
  {
    var items := ExtentsOn(n.walk, src);
    s := was;
    for i := 0 to |items|
      invariant forall id <- p.ids :: id in s.used
      invariant s == Scan(n, p, max, was, src, items[..i])
    {
      ScanMore(n, p, max, was, src, items, i);
      var it := items[i];
      if |s.list| >= max || s.used[src] <= target[src] {
        TheRestIsSkipped(n, p, max, was, src, items, i);
        return;
      }
      s := TakeExtent(n, p, max, target, s, src, it);
    }
    assert items[..|items|] == items;
  }

  method TakeExtent(n: Node, p: Pool, max: nat, target: map<SlabId, nat>, was: Picture, src: SlabId, it: Item)
        returns (s: Picture)
    requires p.Formed() && src in p.ids && (forall id <- p.ids :: id in was.used) && target == TargetsOf(p)
    requires !Stops(p, max, was, src)
    ensures s == Consider(n, p, max, was, src, it)
  {
    s := was;
    var leg := LegOn(it.legs, src);
    if leg.None? || leg.value in s.seen {
      return;
    }
    s := s.(seen := s.seen + {leg.value});
    if it.ext.volume in n.pinned {
      s := s.(left := s.left + 1);
      return;
    }
    s := FindPlace(n, p, target, s, src, it);
  }

  method FindPlace(n: Node, p: Pool, target: map<SlabId, nat>, was: Picture, src: SlabId, it: Item) returns (s: Picture)
    requires src in p.ids && (forall id <- p.ids :: id in was.used && id in target && id in p.total) &&
      was.used[src] > 0
    ensures s == PlaceFor(n, p, target, was, src, it)
  {
    var legs := Placed(was, it);
    s := was.(placed := was.placed[it.ext := legs]);
    var to := Destination(n, p, s.used, target, legs, src, RungOf(n, it.ext.volume));
    if to.None? {
      s := s.(left := s.left + 1);
      return;
    }
    s := PlaceLeg(s, it.ext, legs, src, to.value);
    assert s.placed == was.placed[it.ext := Swap(legs, src, to.value)];
  }

  /** The move joins the list, and the picture. */
  method PlaceLeg(was: Picture, ext: Extent, legs: seq<SlabId>, src: SlabId, to: SlabId) returns (s: Picture)
    requires src in was.used && to in was.used && was.used[src] > 0
    ensures s == was.(placed := was.placed[ext := Swap(legs, src, to)],
                      used := was.used[src := was.used[src] - 1][to := was.used[to] + 1],
                        list := was.list + [Move(ext, src, to)])
  {
    s := was.(placed := was.placed[ext := Swap(legs, src, to)]);
    var less := s.used[src := s.used[src] - 1];
    s := s.(used := less[to := was.used[to] + 1]);
    s := s.(list := s.list + [Move(ext, src, to)]);
  }

  method PlanPool(n: Node, p: Pool, max: nat, list: seq<Move>, left: nat) returns (s: Picture)
    requires p.Formed()
    ensures s == PlanOf(n, p, max, list, left)
  {
    var used := UsedOf(p);
    s := Picture(used, {}, map[], list, left);
    if |p.ids| < 2 {
      return;
    }
    var target := Targets(p, used);
    var over := Sources(p, used, target);
    s := ScanSlabs(n, p, max, target, s, over);
  }

  method ScanSlabs(n: Node, p: Pool, max: nat, target: map<SlabId, nat>, was: Picture, over: seq<SlabId>)
        returns (s: Picture)
    requires p.Formed() && (forall src <- over :: src in p.ids) && (forall id <- p.ids :: id in was.used) &&
      target == TargetsOf(p)
    ensures s == ScanAll(n, p, max, was, over)
  {
    s := was;
    for i := 0 to |over|
      invariant forall id <- p.ids :: id in s.used
      invariant s == ScanAll(n, p, max, was, over[..i])
    {
      assert over[..i + 1][..i] == over[..i];
      s := ScanSlab(n, p, max, target, s, over[i]);
    }
    assert over[..|over|] == over;
  }

  method Plan(n: Node, pools: seq<Pool>, max: nat) returns (list: seq<Move>, left: nat)
    requires forall p <- pools :: p.Formed()
    ensures (list, left) == PlanAll(n, pools, max)
    ensures Pools(pools) && Walked(n) ==> forall p <- pools :: PoolSettled(n, p, max, list)
  {
    list, left := [], 0;
    for i := 0 to |pools|
      invariant (list, left) == PlanAll(n, pools[..i], max)
    {
      assert pools[..i + 1][..i] == pools[..i];
      var s := PlanPool(n, pools[i], max, list, left);
      list, left := s.list, s.left;
    }
    assert pools[..|pools|] == pools;
    if Pools(pools) && Walked(n) {
      forall p <- pools
        ensures PoolSettled(n, p, max, list)
      {
        EveryPoolIsSettled(n, pools, max, p);
      }
    }
  }

  /** Moves made between two persists at most (src/rebalance.rs:419). */
  const BATCH := 64

  /** The move may still be made when its turn comes. */
  ghost predicate Stands(was: Maps, moves: seq<Move>, quarantined: nat -> set<SlabId>, outs: nat -> Outcome, i: nat)
    requires i < |moves|
  {
    var maps, m := RunAll(was, moves[..i], quarantined, outs), moves[i];
    && m.ext in maps && LegOn(maps[m.ext], m.from).Some? && LegOn(maps[m.ext], m.to).None?
    && m.to !in quarantined(i)
  }

  lemma StandsIs(was: Maps, moves: seq<Move>, quarantined: nat -> set<SlabId>, outs: nat -> Outcome, i: nat)
    requires i < |moves|
    ensures Stands(was, moves, quarantined, outs, i) <==>
      StillPlanned(RunAll(was, moves[..i], quarantined, outs), moves[i], quarantined(i))
  {
    var maps := RunAll(was, moves[..i], quarantined, outs);
    if moves[i].ext in maps {
      SlabIn(maps[moves[i].ext], moves[i].to);
    }
  }

  ghost function MovedAt(was: Maps, moves: seq<Move>, quarantined: nat -> set<SlabId>, outs: nat -> Outcome,
        done: nat): set<nat>
    requires done <= |moves|
  {
    set i: nat | i < done && Stands(was, moves, quarantined, outs, i) && outs(i).Copied?
  }

  ghost function FailedAt(was: Maps, moves: seq<Move>, quarantined: nat -> set<SlabId>, outs: nat -> Outcome,
        done: nat): set<nat>
    requires done <= |moves|
  {
    set i: nat | i < done && Stands(was, moves, quarantined, outs, i) && outs(i).Failed?
  }

  lemma CountOneMore(was: Maps, moves: seq<Move>, quarantined: nat -> set<SlabId>, outs: nat -> Outcome, done: nat)
    requires done < |moves|
    ensures RunAll(was, moves[..done + 1], quarantined, outs) ==
      RunMove(RunAll(was, moves[..done], quarantined, outs), moves[done], quarantined(done), outs(done))
    ensures
      var stands := StillPlanned(RunAll(was, moves[..done], quarantined, outs), moves[done], quarantined(done));
      && |MovedAt(was, moves, quarantined, outs, done + 1)| == |MovedAt(was, moves, quarantined, outs, done)| +
           (if stands && outs(done).Copied? then 1 else 0)
      && |FailedAt(was, moves, quarantined, outs, done + 1)| == |FailedAt(was, moves, quarantined, outs, done)| +
           (if stands && outs(done).Failed? then 1 else 0)
  {
    assert moves[..done + 1][..done] == moves[..done];
    var stands := Stands(was, moves, quarantined, outs, done);
    StandsIs(was, moves, quarantined, outs, done);
    OneMoreCounted(MovedAt(was, moves, quarantined, outs, done), MovedAt(was, moves, quarantined, outs, done + 1), done,
      stands && outs(done).Copied?);
    OneMoreCounted(FailedAt(was, moves, quarantined, outs, done), FailedAt(was, moves, quarantined, outs, done + 1),
      done, stands && outs(done).Failed?);
  }

  lemma OneMoreCounted(a: set<nat>, b: set<nat>, x: nat, counts: bool)
    requires x !in a && forall y :: y in b <==> y in a || (counts && y == x)
    ensures |b| == |a| + if counts then 1 else 0
  {
    assert b == if counts then a + {x} else a;
  }

  /** One move: made if the extent's leg is still as planned and the copy succeeds. */
  method Attempt(was: Maps, moves: seq<Move>, quarantined: nat -> set<SlabId>, outs: nat -> Outcome, maps: Maps,
        done: nat)
    returns (now: Maps, what: Outcome)
    requires done < |moves| && maps == RunAll(was, moves[..done], quarantined, outs)
    ensures now == RunAll(was, moves[..done + 1], quarantined, outs)
    ensures |MovedAt(was, moves, quarantined, outs, done + 1)| ==
      |MovedAt(was, moves, quarantined, outs, done)| + if what.Copied? then 1 else 0
    ensures |FailedAt(was, moves, quarantined, outs, done + 1)| ==
      |FailedAt(was, moves, quarantined, outs, done)| + if what.Failed? then 1 else 0
  {
    var m, out, q := moves[done], outs(done), quarantined(done);
    CountOneMore(was, moves, quarantined, outs, done);
    now := RunMove(maps, m, q, out);
    what := if StillPlanned(maps, m, q) then out else Skipped;
  }

  /** Run a plan until it ends or is cancelled; every move is counted as what became of it, and no
      more than a batch of freed slots waits for a persist. */
  method RunPlan(was: Maps, moves: seq<Move>, quarantined: nat -> set<SlabId>, outs: nat -> Outcome,
        cancelled: nat -> bool)
    returns (maps: Maps, done: nat, moved: nat, skipped: nat, failed: nat, persists: nat)
    ensures done <= |moves| && (done < |moves| ==> cancelled(done)) && forall i :: 0 <= i < done ==> !cancelled(i)
    ensures maps == RunAll(was, moves[..done], quarantined, outs)
    ensures moved == |MovedAt(was, moves, quarantined, outs, done)|
    ensures failed == |FailedAt(was, moves, quarantined, outs, done)|
    ensures moved + skipped + failed == done
    ensures 64 * (persists - 1) <= moved < 64 * persists
  {
    maps, done, moved, skipped, failed, persists := was, 0, 0, 0, 0, 0;
    var since := 0;
    while done < |moves| && !cancelled(done)
      invariant done <= |moves| && forall i :: 0 <= i < done ==> !cancelled(i)
      invariant maps == RunAll(was, moves[..done], quarantined, outs)
      invariant moved == |MovedAt(was, moves, quarantined, outs, done)|
      invariant failed == |FailedAt(was, moves, quarantined, outs, done)|
      invariant moved + skipped + failed == done
      invariant since < BATCH && moved == persists * BATCH + since
      decreases |moves| - done
    {
      var what;
      maps, what := Attempt(was, moves, quarantined, outs, maps, done);
      match what {
        case Copied(_) => moved, since := moved + 1, since + 1;
        case Skipped => skipped := skipped + 1;
        case Failed => failed := failed + 1;
      }
      done := done + 1;
      if since >= BATCH {
        persists, since := persists + 1, 0;
      }
    }
    persists := persists + 1;
  }
}
