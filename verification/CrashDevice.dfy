/** A block device that loses what a power cut would (src/drive/crashdev.rs): a volatile
    write cache over a durable image, FUA writes, flushes, an armed cut and torn writes. */
module CrashDevices {
  import opened Arithmetic
  import opened Options

  type byte = x: int | 0 <= x < 256

  datatype Write = Write(off: nat, data: seq<byte>)
  {
    ghost predicate Fits(n: nat) {
      off + |data| <= n
    }

    ghost predicate Covers(i: nat) {
      off <= i < off + |data|
    }

    ghost function At(i: nat): byte
      requires Covers(i)
    {
      data[i - off]
    }
  }

  /** What survives a cut for certain, and the writes that may. */
  datatype Survivors = Survivors(durable: seq<byte>, cached: seq<Write>)

  datatype State = State(
    durable: seq<byte>,
    view: seq<byte>,
    cached: seq<Write>,
    flushes: nat,
    writes: nat,
    cutAt: Option<nat>,
    cut: Option<Survivors>)

  datatype Op = Plain(w: Write) | Fua(w: Write) | Flush | Discard | CutAt(n: nat)

  ghost predicate AllFit(ws: seq<Write>, n: nat) {
    forall w <- ws :: w.Fits(n)
  }

  ghost function Patch(img: seq<byte>, w: Write): (r: seq<byte>)
    requires w.Fits(|img|)
    ensures |r| == |img|
    ensures forall i :: 0 <= i < |img| ==> r[i] == if w.Covers(i) then w.At(i) else img[i]
  {
    img[..w.off] + w.data + img[w.off + |w.data|..]
  }

  /** `img` with the writes applied in order. */
  ghost function Replay(img: seq<byte>, ws: seq<Write>): (r: seq<byte>)
    requires AllFit(ws, |img|)
    ensures |r| == |img|
  {
    if ws == [] then img else Patch(Replay(img, ws[..|ws| - 1]), ws[|ws| - 1])
  }

  ghost function ByteAfterFua(older: Write, w: Write, k: nat): byte
    requires k < |older.data|
  {
    if w.Covers(older.off + k) then w.At(older.off + k) else older.data[k]
  }

  /** An older cached write with the bytes a FUA write put over it. */
  ghost function Superseded(older: Write, w: Write): (r: Write)
    ensures r.off == older.off && |r.data| == |older.data|
    ensures forall i :: older.Covers(i) ==> r.At(i) == if w.Covers(i) then w.At(i) else older.At(i)
  {
    Write(older.off, seq(|older.data|, k requires 0 <= k < |older.data| => ByteAfterFua(older, w, k)))
  }

  ghost function SupersedeAll(ws: seq<Write>, w: Write): (r: seq<Write>)
    ensures |r| == |ws|
    ensures forall k :: 0 <= k < |ws| ==> r[k] == Superseded(ws[k], w)
  {
    seq(|ws|, k requires 0 <= k < |ws| => Superseded(ws[k], w))
  }

  /** What a crash would work from: the state at a cut that fired, else the state now. */
  function Surviving(s: State): Survivors {
    if s.cut.Some? then s.cut.value else Survivors(s.durable, s.cached)
  }

  ghost function New(image: seq<byte>): State {
    State(image, image, [], 0, 0, None, None)
  }

  ghost predicate Accepted(s: State, op: Op) {
    (op.Plain? || op.Fua?) && op.w.Fits(|s.view|)
  }

  ghost predicate Inv(s: State) {
    && |s.view| == |s.durable|
    && AllFit(s.cached, |s.durable|)
    && s.view == Replay(s.durable, s.cached)
    && (s.cut.Some? ==> |s.cut.value.durable| == |s.durable| && AllFit(s.cut.value.cached, |s.durable|))
  }

  /** A write counted, and the armed cut taken if this is the one it waits for. */
  ghost function Arrive(s: State): State {
    s.(cut := if s.cut.None? && s.cutAt == Some(s.writes) then Some(Survivors(s.durable, s.cached)) else s.cut,
       writes := s.writes + 1)
  }

  /** One call on the device. What reads see stays the durable image with the cache over it. */
  ghost function Step(s: State, op: Op): (r: State)
    requires Inv(s)
    ensures Inv(r) && |r.view| == |s.view|
  {
    match op
    case Plain(w) =>
      if !Accepted(s, op) then s else
      ReplayPush(s.durable, s.cached, w);
      Arrive(s).(view := Patch(s.view, w), cached := s.cached + [w])
    case Fua(w) =>
      if !Accepted(s, op) then s else
      FuaUnderReplay(s.durable, s.cached, w);
      Arrive(s).(view := Patch(s.view, w), durable := Patch(s.durable, w), cached := SupersedeAll(s.cached, w))
    case Flush => s.(durable := Replay(s.durable, s.cached), cached := [], flushes := s.flushes + 1)
    case Discard => s
    case CutAt(n) => s.(cutAt := Some(s.writes + n), cut := None)
  }

  ghost function Run(s: State, h: seq<Op>): (r: State)
    requires Inv(s)
    ensures Inv(r) && |r.view| == |s.view|
  {
    if h == [] then s else Step(Run(s, h[..|h| - 1]), h[|h| - 1])
  }

  ghost predicate WritesTo(op: Op, size: nat, i: nat) {
    (op.Plain? || op.Fua?) && op.w.off + |op.w.data| <= size && op.w.off <= i < op.w.off + |op.w.data|
  }

  ghost predicate NoneAfter(h: seq<Op>, k: nat, size: nat, i: nat) {
    forall j :: k < j < |h| ==> !WritesTo(h[j], size, i)
  }

  /** After any history a byte reads as the last write to it that was in range left it, and as
      the image has it where there was none. */
  lemma {:induction false} ReadsSeeTheLastWrite(image: seq<byte>, h: seq<Op>, i: nat)
    requires i < |image|
    ensures |Run(New(image), h).view| == |image|
    ensures forall k | 0 <= k < |h| && WritesTo(h[k], |image|, i) && NoneAfter(h, k, |image|, i) ::
      Run(New(image), h).view[i] == h[k].w.data[i - h[k].w.off]
    ensures (forall k :: 0 <= k < |h| ==> !WritesTo(h[k], |image|, i)) ==> Run(New(image), h).view[i] == image[i]
  {
    if h != [] {
      var n := |h| - 1;
      var before := h[..n];
      ReadsSeeTheLastWrite(image, before, i);
      var s := Run(New(image), before);
      assert Run(New(image), h) == Step(s, h[n]);
      if !WritesTo(h[n], |image|, i) {
        AStepElsewhere(s, h[n], i);
        assert forall k :: 0 <= k < n ==> before[k] == h[k];
        assert forall k: nat :: k < n && NoneAfter(h, k, |image|, i) ==> NoneAfter(before, k, |image|, i);
      }
    }
  }

  lemma AStepElsewhere(s: State, op: Op, i: nat)
    requires Inv(s) && i < |s.view| && !WritesTo(op, |s.view|, i)
    ensures Step(s, op).view[i] == s.view[i]
  {
  }

  lemma SupersedeFits(ws: seq<Write>, w: Write, n: nat)
    requires AllFit(ws, n)
    ensures AllFit(SupersedeAll(ws, w), n)
  {
    forall x | x in SupersedeAll(ws, w)
      ensures x.Fits(n)
    {
      var k :| 0 <= k < |ws| && x == SupersedeAll(ws, w)[k];
      assert ws[k] in ws;
    }
  }

  /** FUA over the durable image and over the cache is the write over what reads see. */
  lemma {:induction false} FuaUnderReplay(img: seq<byte>, ws: seq<Write>, w: Write)
    requires AllFit(ws, |img|) && w.Fits(|img|)
    ensures AllFit(SupersedeAll(ws, w), |img|)
    ensures Replay(Patch(img, w), SupersedeAll(ws, w)) == Patch(Replay(img, ws), w)
  {
    SupersedeFits(ws, w, |img|);
    if ws != [] {
      var rest, last := ws[..|ws| - 1], ws[|ws| - 1];
      FuaUnderReplay(img, rest, w);
      assert SupersedeAll(ws, w)[..|ws| - 1] == SupersedeAll(rest, w);
    }
  }

  // ---------------------------------------------------------------- crash images

  /** What became of one cached write: lost, or kept with a flag for each of its pieces. */
  type Fate = Option<seq<bool>>

  /** Pieces of a write cut at the atomic unit's boundaries. */
  ghost function PieceCount(w: Write, unit: nat): nat
    requires unit > 0
  {
    if |w.data| == 0 then 0 else
    DivMonotone(w.off, w.off + |w.data| - 1, unit);
    (w.off + |w.data| - 1) / unit - w.off / unit + 1
  }

  ghost function UnitsIn(w: Write, unit: nat, i: nat): int
    requires unit > 0
  {
    i / unit - w.off / unit
  }

  /** The piece of `w` that byte `i` is in. */
  ghost function PieceOf(w: Write, unit: nat, i: nat): (k: nat)
    requires unit > 0 && w.Covers(i)
    ensures k < PieceCount(w, unit)
  {
    DivMonotone(w.off, i, unit);
    DivMonotone(i, w.off + |w.data| - 1, unit);
    UnitsIn(w, unit, i)
  }

  ghost predicate Fated(w: Write, unit: nat, f: Fate)
    requires unit > 0
  {
    f.Some? ==> |f.value| == PieceCount(w, unit)
  }

  ghost predicate AllFated(ws: seq<Write>, unit: nat, fates: seq<Fate>) {
    unit > 0 && |fates| == |ws| && forall k :: 0 <= k < |ws| ==> Fated(ws[k], unit, fates[k])
  }

  ghost predicate Lands(w: Write, unit: nat, f: Fate, i: nat)
    requires unit > 0 && Fated(w, unit, f)
  {
    w.Covers(i) && f.Some? && f.value[PieceOf(w, unit, i)]
  }

  ghost function Land(img: seq<byte>, w: Write, unit: nat, f: Fate): (r: seq<byte>)
    requires unit > 0 && w.Fits(|img|) && Fated(w, unit, f)
    ensures |r| == |img|
    ensures forall i :: 0 <= i < |img| ==> r[i] == if Lands(w, unit, f, i) then w.At(i) else img[i]
  {
    seq(|img|, i requires 0 <= i < |img| => if Lands(w, unit, f, i) then w.At(i) else img[i])
  }

  /** The image a crash leaves when the cached writes meet these fates. */
  ghost function Image(s: Survivors, unit: nat, fates: seq<Fate>): (r: seq<byte>)
    requires AllFit(s.cached, |s.durable|) && AllFated(s.cached, unit, fates)
    ensures |r| == |s.durable|
    decreases |s.cached|
  {
    if s.cached == [] then s.durable else
    var n := |s.cached| - 1;
    Land(Image(Survivors(s.durable, s.cached[..n]), unit, fates[..n]), s.cached[n], unit, fates[n])
  }

  ghost function Whole(w: Write, unit: nat): (f: Fate)
    requires unit > 0
    ensures Fated(w, unit, f) && forall i :: w.Covers(i) ==> Lands(w, unit, f, i)
  {
    Some(seq(PieceCount(w, unit), _ => true))
  }

  /** Fates that keep, whole, just the writes flagged. */
  ghost function KeptWhole(ws: seq<Write>, unit: nat, keep: seq<bool>): (fates: seq<Fate>)
    requires unit > 0 && |keep| == |ws|
    ensures AllFated(ws, unit, fates)
  {
    seq(|ws|, k requires 0 <= k < |ws| => if keep[k] then Whole(ws[k], unit) else None)
  }

  /** The writes flagged, in order. */
  ghost function Chosen(ws: seq<Write>, keep: seq<bool>): (r: seq<Write>)
    requires |keep| == |ws|
    ensures forall w :: w in r ==> w in ws
  {
    if ws == [] then [] else
    var n := |ws| - 1;
    Chosen(ws[..n], keep[..n]) + if keep[n] then [ws[n]] else []
  }

  lemma ReplayPush(img: seq<byte>, ws: seq<Write>, w: Write)
    requires AllFit(ws, |img|) && w.Fits(|img|)
    ensures Replay(img, ws + [w]) == Patch(Replay(img, ws), w)
  {
    assert (ws + [w])[..|ws|] == ws;
  }

  /** An untorn crash image is the durable image with a subsequence of the cache applied. */
  lemma {:induction false} UntornIsReplay(s: Survivors, unit: nat, keep: seq<bool>)
    requires unit > 0 && AllFit(s.cached, |s.durable|) && |keep| == |s.cached|
    ensures Image(s, unit, KeptWhole(s.cached, unit, keep)) == Replay(s.durable, Chosen(s.cached, keep))
    decreases |s.cached|
  {
    if s.cached != [] {
      var n := |s.cached| - 1;
      var w := s.cached[n];
      var before := Survivors(s.durable, s.cached[..n]);
      var fates := KeptWhole(s.cached, unit, keep);
      var rest := Chosen(before.cached, keep[..n]);
      UntornIsReplay(before, unit, keep[..n]);
      assert fates[..n] == KeptWhole(before.cached, unit, keep[..n]);
      var was := Image(before, unit, fates[..n]);
      assert Image(s, unit, fates) == Land(was, w, unit, fates[n]);
      if keep[n] {
        ReplayPush(s.durable, rest, w);
        assert Land(was, w, unit, fates[n]) == Patch(was, w);
      } else {
        assert Chosen(s.cached, keep) == rest + [] == rest;
        assert Land(was, w, unit, fates[n]) == was;
      }
    }
  }

  ghost function Unit(i: nat, unit: nat): nat
    requires unit > 0
  {
    i / unit
  }

  /** Which writes had a kept fragment in atomic unit `u`. */
  ghost function KeptInUnit(ws: seq<Write>, unit: nat, fates: seq<Fate>, u: nat): (keep: seq<bool>)
    requires AllFated(ws, unit, fates)
    ensures |keep| == |ws|
  {
    seq(|ws|, k requires 0 <= k < |ws| =>
      exists i :: Lands(ws[k], unit, fates[k], i) && Unit(i, unit) == u)
  }

  /** Tearing never splits an atomic unit: inside each one, a torn crash image is the durable
      unit with whole fragments of a subsequence of the cached writes over it. */
  lemma {:induction false} TornImageIsUntornInEachUnit(s: Survivors, unit: nat, fates: seq<Fate>, u: nat)
    requires AllFit(s.cached, |s.durable|) && AllFated(s.cached, unit, fates)
    ensures forall i :: 0 <= i < |s.durable| && Unit(i, unit) == u ==>
      Image(s, unit, fates)[i] == Replay(s.durable, Chosen(s.cached, KeptInUnit(s.cached, unit, fates, u)))[i]
    decreases |s.cached|
  {
    if s.cached != [] {
      var n := |s.cached| - 1;
      var before := Survivors(s.durable, s.cached[..n]);
      TornImageIsUntornInEachUnit(before, unit, fates[..n], u);
      var keep := KeptInUnit(s.cached, unit, fates, u);
      var w := s.cached[n];
      assert keep[..n] == KeptInUnit(before.cached, unit, fates[..n], u);
      var rest := Chosen(before.cached, keep[..n]);
      assert keep[n] ==> (rest + [w])[..|rest|] == rest;
      assert !keep[n] ==> rest + [] == rest;
      forall i | 0 <= i < |s.durable| && Unit(i, unit) == u
        ensures Lands(w, unit, fates[n], i) <==> keep[n] && w.Covers(i)
      {
        if keep[n] && w.Covers(i) {
          var j :| Lands(w, unit, fates[n], j) && Unit(j, unit) == u;
          assert PieceOf(w, unit, i) == PieceOf(w, unit, j);
        }
      }
    }
  }

  /** Nothing kept is the durable image; everything kept untorn is what reads saw. */
  lemma KeepNothingKeepAll(s: State, unit: nat)
    requires Inv(s) && s.cut.None? && unit > 0
    ensures Image(Surviving(s), unit, KeptWhole(s.cached, unit, seq(|s.cached|, _ => false))) == s.durable
    ensures Image(Surviving(s), unit, KeptWhole(s.cached, unit, seq(|s.cached|, _ => true))) == s.view
  {
    UntornIsReplay(Surviving(s), unit, seq(|s.cached|, _ => false));
    UntornIsReplay(Surviving(s), unit, seq(|s.cached|, _ => true));
    ChooseAllOrNone(s.cached);
  }

  lemma {:induction false} ChooseAllOrNone(ws: seq<Write>)
    ensures Chosen(ws, seq(|ws|, _ => true)) == ws
    ensures Chosen(ws, seq(|ws|, _ => false)) == []
  {
    if ws != [] {
      var n := |ws| - 1;
      ChooseAllOrNone(ws[..n]);
      assert seq(|ws|, _ => true)[..n] == seq(n, _ => true);
      assert seq(|ws|, _ => false)[..n] == seq(n, _ => false);
    }
  }

  // ---------------------------------------------------------------- what is certain to survive

  /** Nothing a crash may do changes this byte: the durable byte and every cached write of it agree. */
  ghost predicate Fixed(s: Survivors, i: nat, b: byte)
    requires i < |s.durable|
  {
    s.durable[i] == b && forall k :: 0 <= k < |s.cached| && s.cached[k].Covers(i) ==> s.cached[k].At(i) == b
  }

  lemma {:induction false} FixedBytesSurvive(s: Survivors, unit: nat, fates: seq<Fate>, i: nat, b: byte)
    requires AllFit(s.cached, |s.durable|) && AllFated(s.cached, unit, fates) && i < |s.durable|
    requires Fixed(s, i, b)
    ensures Image(s, unit, fates)[i] == b
    decreases |s.cached|
  {
    if s.cached != [] {
      var n := |s.cached| - 1;
      var before := Survivors(s.durable, s.cached[..n]);
      assert Fixed(before, i, b) by {
        assert forall k :: 0 <= k < n ==> before.cached[k] == s.cached[k];
      }
      FixedBytesSurvive(before, unit, fates[..n], i, b);
    }
  }

  /** A byte reads the same in every crash image exactly when it is fixed. */
  lemma CertainIffFixed(s: Survivors, unit: nat, i: nat, b: byte)
    requires unit > 0 && AllFit(s.cached, |s.durable|) && i < |s.durable|
    ensures Fixed(s, i, b) <==>
      forall fates | AllFated(s.cached, unit, fates) :: Image(s, unit, fates)[i] == b
  {
    if Fixed(s, i, b) {
      forall fates | AllFated(s.cached, unit, fates)
        ensures Image(s, unit, fates)[i] == b
      {
        FixedBytesSurvive(s, unit, fates, i, b);
      }
    } else if s.durable[i] != b {
      var none := KeptWhole(s.cached, unit, seq(|s.cached|, _ => false));
      UntornIsReplay(s, unit, seq(|s.cached|, _ => false));
      ChooseAllOrNone(s.cached);
      assert AllFated(s.cached, unit, none) && Image(s, unit, none)[i] != b;
    } else {
      var k :| 0 <= k < |s.cached| && s.cached[k].Covers(i) && s.cached[k].At(i) != b;
      var fates := OnlyOne(s, unit, k, i);
      assert AllFated(s.cached, unit, fates) && Image(s, unit, fates)[i] != b;
    }
  }

  /** There is a crash that keeps just one chosen cached write. */
  lemma {:induction false} OnlyOne(s: Survivors, unit: nat, k: nat, i: nat) returns (fates: seq<Fate>)
    requires unit > 0 && AllFit(s.cached, |s.durable|)
    requires k < |s.cached| && s.cached[k].Covers(i) && i < |s.durable|
    ensures AllFated(s.cached, unit, fates) && Image(s, unit, fates)[i] == s.cached[k].At(i)
    decreases |s.cached|
  {
    var n := |s.cached| - 1;
    var before := Survivors(s.durable, s.cached[..n]);
    if k == n {
      var none := KeptWhole(before.cached, unit, seq(n, _ => false));
      fates := none + [Whole(s.cached[n], unit)];
      assert fates[..n] == none;
    } else {
      var some := OnlyOne(before, unit, k, i);
      fates := some + [None];
      assert fates[..n] == some;
    }
  }

  /** Byte `i`'s last write in the history was a FUA write, or a flush came after it. */
  ghost predicate Settled(h: seq<Op>, n: nat, i: nat) {
    h == [] ||
    var rest, op := h[..|h| - 1], h[|h| - 1];
    match op
    case Flush => true
    case Plain(w) => if w.Fits(n) && w.Covers(i) then false else Settled(rest, n, i)
    case Fua(w) => (w.Fits(n) && w.Covers(i)) || Settled(rest, n, i)
    case Discard => Settled(rest, n, i)
    case CutAt(_) => Settled(rest, n, i)
  }

  /** A call that does not touch the byte leaves it fixed; a FUA write or a flush fixes it. */
  lemma StepFixes(s: State, op: Op, i: nat)
    requires Inv(s) && i < |s.view|
    requires Fixed(Survivors(s.durable, s.cached), i, s.view[i]) || op.Flush? ||
      (op.Fua? && Accepted(s, op) && op.w.Covers(i))
    requires !(op.Plain? && Accepted(s, op) && op.w.Covers(i))
    ensures var e := Step(s, op); Fixed(Survivors(e.durable, e.cached), i, e.view[i])
  {
    var e := Step(s, op);
    if op.Plain? && Accepted(s, op) {
      assert forall k :: 0 <= k < |s.cached| ==> e.cached[k] == s.cached[k];
    }
  }

  lemma {:induction false} SettledIsFixed(s: State, h: seq<Op>, i: nat)
    requires Inv(s) && s.cached == [] && i < |s.view| && Settled(h, |s.view|, i)
    ensures var e := Run(s, h); Fixed(Survivors(e.durable, e.cached), i, e.view[i])
  {
    if h != [] {
      var rest, op := h[..|h| - 1], h[|h| - 1];
      if Settled(rest, |s.view|, i) {
        SettledIsFixed(s, rest, i);
      }
      StepFixes(Run(s, rest), op, i);
    }
  }

  /** Every crash image of every history agrees with reads at each settled byte. */
  lemma SettledBytesSurviveEveryCrash(image: seq<byte>, h: seq<Op>, unit: nat, fates: seq<Fate>, i: nat)
    requires i < |image| && Settled(h, |image|, i)
    requires Run(New(image), h).cut.None?
    requires AllFated(Run(New(image), h).cached, unit, fates)
    ensures Image(Surviving(Run(New(image), h)), unit, fates)[i] == Run(New(image), h).view[i]
  {
    var e := Run(New(image), h);
    SettledIsFixed(New(image), h, i);
    FixedBytesSurvive(Surviving(e), unit, fates, i, e.view[i]);
  }

  // ---------------------------------------------------------------- the armed cut

  ghost function AcceptedIn(s: State, h: seq<Op>): nat
    requires Inv(s)
  {
    if h == [] then 0 else
    var rest, op := h[..|h| - 1], h[|h| - 1];
    AcceptedIn(s, rest) + if Accepted(Run(s, rest), op) then 1 else 0
  }

  ghost predicate NoArming(h: seq<Op>) {
    forall k :: 0 <= k < |h| ==> !h[k].CutAt?
  }

  /** Up to `n` accepted writes after `cut_at(n)`, nothing is cut. */
  lemma {:induction false} NotCutYet(s: State, n: nat, h: seq<Op>)
    requires Inv(s) && s.cut.None? && s.cutAt == Some(s.writes + n)
    requires NoArming(h) && AcceptedIn(s, h) <= n
    ensures var e := Run(s, h); e.cut.None? && e.cutAt == s.cutAt && e.writes == s.writes + AcceptedIn(s, h)
  {
    if h != [] {
      NotCutYet(s, n, h[..|h| - 1]);
    }
  }

  /** Once the armed cut has fired, no later write, FUA write or flush changes what a crash works from. */
  lemma {:induction false} AfterTheCutNothingChanges(s: State, h: seq<Op>)
    requires Inv(s) && s.cut.Some? && NoArming(h)
    ensures Surviving(Run(s, h)) == Surviving(s) && Run(s, h).cut == s.cut
  {
    if h != [] {
      AfterTheCutNothingChanges(s, h[..|h| - 1]);
    }
  }

  /** `CutAt(n)` was the last thing done to this device. */
  ghost predicate Armed(s: State, n: nat) {
    Inv(s) && s.cut.None? && s.cutAt == Some(s.writes + n)
  }

  /** The armed cut keeps the state just before the write it waited for. With
      `AfterTheCutNothingChanges`, that is what every later crash works from. */
  lemma CutTakesTheStateAtArrival(s: State, n: nat, before: seq<Op>, op: Op)
    requires Armed(s, n) && NoArming(before)
    requires AcceptedIn(s, before) == n && Accepted(Run(s, before), op)
    ensures Surviving(Step(Run(s, before), op)) == Survivors(Run(s, before).durable, Run(s, before).cached)
    ensures Step(Run(s, before), op).cut.Some?
  {
    NotCutYet(s, n, before);
  }

  // ---------------------------------------------------------------- the device

  lemma ImagePush(durable: seq<byte>, ws: seq<Write>, unit: nat, fates: seq<Fate>, k: nat)
    requires AllFit(ws, |durable|) && AllFated(ws, unit, fates) && k < |ws|
    ensures Image(Survivors(durable, ws[..k + 1]), unit, fates[..k + 1])
      == Land(Image(Survivors(durable, ws[..k]), unit, fates[..k]), ws[k], unit, fates[k])
    ensures TornIn(fates[..k + 1]) == TornIn(fates[..k]) + if Torn(fates[k]) then 1 else 0
  {
    assert ws[..k + 1][..k] == ws[..k] && fates[..k + 1][..k] == fates[..k];
  }

  /** How a cut tears the writes it keeps. */
  datatype Tear = Untorn | Prefix | Scatter

  /** What the generator answers for one cached write: kept or not, torn or not, how far a
      prefix reaches, which pieces of a scatter land. */
  datatype Draw = Draw(keep: bool, tears: bool, reach: nat, lands: nat -> bool)

  function Mask(tear: Tear, d: Draw, pieces: nat): (m: seq<bool>)
    ensures |m| == pieces
  {
    if tear.Prefix? && pieces > 1 && d.tears then
      var n := 1 + d.reach % (pieces - 1);
      seq(pieces, i => i < n)
    else if tear.Scatter? && pieces > 1 && d.tears then
      seq(pieces, i requires 0 <= i => d.lands(i))
    else
      seq(pieces, _ => true)
  }

  ghost function FateDrawn(w: Write, unit: nat, tear: Tear, d: Draw): (f: Fate)
    requires unit > 0
    ensures Fated(w, unit, f)
  {
    if d.keep then Some(Mask(tear, d, PieceCount(w, unit))) else None
  }

  ghost function FatesDrawn(ws: seq<Write>, unit: nat, tear: Tear, draws: nat -> Draw): (fates: seq<Fate>)
    requires unit > 0
    ensures |fates| == |ws| && forall k :: 0 <= k < |ws| ==> fates[k] == FateDrawn(ws[k], unit, tear, draws(k))
    ensures AllFated(ws, unit, fates)
  {
    seq(|ws|, k requires 0 <= k < |ws| => FateDrawn(ws[k], unit, tear, draws(k)))
  }

  ghost predicate Torn(f: Fate) {
    f.Some? && false in f.value
  }

  ghost function TornIn(fates: seq<Fate>): nat {
    if fates == [] then 0 else TornIn(fates[..|fates| - 1]) + if Torn(fates[|fates| - 1]) then 1 else 0
  }

  /** A prefix tear lands at least one piece and loses at least one, as many as are drawn; a
      scatter lands the pieces drawn; an untorn write lands whole. */
  lemma MasksByMode(tear: Tear, d: Draw, pieces: nat)
    requires pieces > 0
    ensures tear.Untorn? || !d.tears || pieces == 1 ==> false !in Mask(tear, d, pieces)
    ensures tear.Prefix? && d.tears && d.reach + 1 < pieces ==>
      forall i :: 0 <= i < pieces ==> (Mask(tear, d, pieces)[i] <==> i <= d.reach)
    ensures tear.Scatter? && d.tears && pieces > 1 ==> forall i :: 0 <= i < pieces ==>
      Mask(tear, d, pieces)[i] == d.lands(i)
    ensures tear.Prefix? && d.tears && pieces > 1 ==>
      Mask(tear, d, pieces)[0] && !Mask(tear, d, pieces)[pieces - 1] &&
      forall i, j :: 0 <= i < j < pieces && Mask(tear, d, pieces)[j] ==> Mask(tear, d, pieces)[i]
  {
  }

  /** A crash that tears nothing leaves the writes it keeps, in order, over the durable image. */
  lemma AnUntornCrash(s: Survivors, unit: nat, draws: nat -> Draw)
    requires unit > 0 && AllFit(s.cached, |s.durable|)
    ensures Image(s, unit, FatesDrawn(s.cached, unit, Untorn, draws)) ==
      Replay(s.durable, Chosen(s.cached, seq(|s.cached|, k requires k >= 0 => draws(k).keep)))
  {
    var keep := seq(|s.cached|, k requires k >= 0 => draws(k).keep);
    assert FatesDrawn(s.cached, unit, Untorn, draws) == KeptWhole(s.cached, unit, keep);
    UntornIsReplay(s, unit, keep);
  }

  /** A write's pieces at the atomic unit's boundaries: piece `k` is exactly the bytes of the
      write in the `k`th unit it touches. */
  method Pieces(w: Write, unit: nat) returns (p: seq<(nat, nat)>)
    requires unit > 0
    ensures |p| == PieceCount(w, unit)
    ensures forall k :: 0 <= k < |p| ==> w.off <= p[k].0 < p[k].1 <= w.off + |w.data|
    ensures forall i, k :: w.Covers(i) && 0 <= k < |p| ==> (p[k].0 <= i < p[k].1 <==> PieceOf(w, unit, i) == k)
  {
    p := [];
    var at, end := w.off, w.off + |w.data|;
    while at < end
      invariant w.off <= at <= end
      invariant at == w.off ==> p == []
      invariant at < end ==> UnitsIn(w, unit, at) == |p|
      invariant w.off < at == end ==> |p| == PieceCount(w, unit)
      invariant forall k :: 0 <= k < |p| ==> w.off <= p[k].0 < p[k].1 <= at
      invariant forall i, k :: w.off <= i < at && 0 <= k < |p| ==>
        (p[k].0 <= i < p[k].1 <==> UnitsIn(w, unit, i) == k)
      invariant forall i :: w.off <= i < at ==> UnitsIn(w, unit, i) < |p|
      decreases end - at
    {
      var e := NextCut(w, unit, at);
      p := p + [(at, e)];
      at := e;
    }
  }

  /** The end of the piece that starts at `at`: the next boundary, or the end of the write. */
  method NextCut(w: Write, unit: nat, at: nat) returns (e: nat)
    requires unit > 0 && w.Covers(at)
    ensures at < e <= w.off + |w.data|
    ensures forall i :: at <= i < e ==> UnitsIn(w, unit, i) == UnitsIn(w, unit, at)
    ensures e < w.off + |w.data| ==> UnitsIn(w, unit, e) == UnitsIn(w, unit, at) + 1
    ensures e == w.off + |w.data| ==> UnitsIn(w, unit, at) + 1 == PieceCount(w, unit)
  {
    var next := Boundary(at, unit);
    e := if next < w.off + |w.data| then next else w.off + |w.data|;
    BoundaryIsNext(at, unit);
    assert e < w.off + |w.data| ==> e == next;
    assert (e - 1) / unit == at / unit;
  }

  /** The first unit boundary after a byte. */
  function Boundary(at: nat, unit: nat): nat
    requires unit > 0
  {
    (at / unit + 1) * unit
  }

  lemma BoundaryIsNext(at: nat, unit: nat)
    requires unit > 0
    ensures at < Boundary(at, unit) && Boundary(at, unit) / unit == at / unit + 1
    ensures forall i :: at <= i < Boundary(at, unit) ==> i / unit == at / unit
  {
    var q := at / unit;
    DivFloor(at, unit);
    MulStep(q + 1, unit);
    DivIs(Boundary(at, unit), q + 1, unit);
    forall i | at <= i < Boundary(at, unit)
      ensures i / unit == q
    {
      DivIs(i, q, unit);
    }
  }

  method CopyInto(a: array<byte>, off: nat, buf: seq<byte>)
    requires Write(off, buf).Fits(a.Length)
    modifies a
    ensures a[..] == Patch(old(a[..]), Write(off, buf))
  {
    forall i | 0 <= i < |buf| {
      a[off + i] := buf[i];
    }
  }

  /** One cached write with the overlap copied over it. */
  method Overwritten(older: Write, w: Write) returns (r: Write)
    ensures r == Superseded(older, w)
  {
    var a, b := older.off, older.off + |older.data|;
    var start, end := w.off, w.off + |w.data|;
    var lo := if a > start then a else start;
    var hi := if b < end then b else end;
    if lo >= hi {
      assert older.data == Superseded(older, w).data;
      return older;
    }
    var data := older.data[..lo - a] + w.data[lo - start..hi - start] + older.data[hi - a..];
    assert data == Superseded(older, w).data;
    r := Write(older.off, data);
  }

  method ReplayInto(a: array<byte>, ws: seq<Write>)
    requires AllFit(ws, a.Length)
    modifies a
    ensures a[..] == Replay(old(a[..]), ws)
  {
    for k := 0 to |ws|
      invariant a[..] == Replay(old(a[..]), ws[..k])
    {
      ReplayPush(old(a[..]), ws[..k], ws[k]);
      assert ws[..k] + [ws[k]] == ws[..k + 1];
      CopyInto(a, ws[k].off, ws[k].data);
    }
    assert ws[..|ws|] == ws;
  }

  class CrashDevice {
    /** What a write tears at. */
    const atomic: nat
    /** What survives a power cut for certain. */
    const durable: array<byte>
    /** What reads see. */
    const view: array<byte>
    /** Writes since the last flush, in order. */
    var cached: seq<Write>
    var flushes: nat
    var writes: nat
    var cutAt: Option<nat>
    var cut: Option<Survivors>
    /** Writes the crash that made this device tore. */
    var torn: nat

    ghost function Abs(): State
      reads this, durable, view
    {
      State(durable[..], view[..], cached, flushes, writes, cutAt, cut)
    }

    ghost predicate Valid()
      reads this, durable, view
    {
      atomic > 0 && durable != view && Inv(Abs())
    }

    constructor FromImage(image: seq<byte>, atomic: nat, torn: nat)
      requires atomic > 0
      ensures Valid() && fresh(durable) && fresh(view)
      ensures Abs() == New(image) && this.atomic == atomic && this.torn == torn
    {
      this.atomic := atomic;
      durable := new byte[|image|](i requires 0 <= i < |image| => image[i]);
      view := new byte[|image|](i requires 0 <= i < |image| => image[i]);
      cached, flushes, writes, cutAt, cut := [], 0, 0, None, None;
      this.torn := torn;
      new;
      assert durable[..] == image && view[..] == image;
    }

    method Read(offset: nat, len: nat) returns (r: Option<seq<byte>>)
      requires Valid()
      ensures r.Some? <==> offset + len <= |Abs().view|
      ensures r.Some? ==> r.value == Abs().view[offset..offset + len]
    {
      if offset + len > view.Length {
        return None;
      }
      r := Some(view[offset..offset + len]);
    }

    /** A plain write: seen by reads at once, durable only at a flush. */
    method WritePlain(offset: nat, buf: seq<byte>) returns (ok: bool)
      requires Valid()
      modifies this, view
      ensures ok <==> offset + |buf| <= view.Length
      ensures view[..] == if ok then old(view[..])[..offset] + buf + old(view[..])[offset + |buf|..] else old(view[..])
      ensures cached == if ok then old(cached) + [Write(offset, buf)] else old(cached)
      ensures Abs() == Step(old(Abs()), Plain(Write(offset, buf)))
      ensures Valid()
      ensures torn == old(torn)
    {
      if offset + |buf| > view.Length {
        return false;
      }
      TakeArmedCut();
      writes := writes + 1;
      CopyInto(view, offset, buf);
      cached := cached + [Write(offset, buf)];
      ok := true;
    }

    /** The power goes as the write arrives: it is not in the cache. */
    method TakeArmedCut()
      modifies this`cut
      ensures cut == if old(cut).None? && cutAt == Some(writes) then Some(Survivors(durable[..], cached)) else old(cut)
    {
      if cut.None? && cutAt == Some(writes) {
        cut := Some(Survivors(durable[..], cached));
      }
    }

    /** A FUA write: durable when it returns, over any older cached write of the same bytes. */
    method WriteFua(offset: nat, buf: seq<byte>) returns (ok: bool)
      requires Valid()
      modifies this, view, durable
      ensures ok <==> offset + |buf| <= view.Length
      ensures view[..] == if ok then old(view[..])[..offset] + buf + old(view[..])[offset + |buf|..] else old(view[..])
      ensures durable[..] == if ok then old(durable[..])[..offset] + buf + old(durable[..])[offset + |buf|..]
        else old(durable[..])
      ensures Abs() == Step(old(Abs()), Fua(Write(offset, buf)))
      ensures Valid()
      ensures torn == old(torn)
    {
      var end := offset + |buf|;
      if end > view.Length {
        return false;
      }
      TakeArmedCut();
      writes := writes + 1;
      SupersedeCached(Write(offset, buf));
      CopyInto(view, offset, buf);
      CopyInto(durable, offset, buf);
      ok := true;
    }

    /** Each cached write takes the new bytes where the two overlap. */
    method SupersedeCached(w: Write)
      modifies this`cached
      ensures cached == SupersedeAll(old(cached), w)
    {
      ghost var was := cached;
      for k := 0 to |cached|
        invariant |cached| == |was|
        invariant forall j :: 0 <= j < k ==> cached[j] == Superseded(was[j], w)
        invariant forall j :: k <= j < |was| ==> cached[j] == was[j]
      {
        var now := Overwritten(cached[k], w);
        cached := cached[k := now];
      }
      assert cached == SupersedeAll(was, w);
    }

    method FlushCache()
      requires Valid()
      modifies this, durable
      ensures view[..] == old(view[..]) && durable[..] == old(view[..]) && cached == []
      ensures flushes == old(flushes) + 1
      ensures Abs() == Step(old(Abs()), Flush) && torn == old(torn)
      ensures Valid()
    {
      var ws := cached;
      cached := [];
      ReplayInto(durable, ws);
      flushes := flushes + 1;
    }

    /** Cut the power as the `n`th write from now arrives. */
    method ArmCut(n: nat)
      requires Valid()
      modifies this`cutAt, this`cut
      ensures Valid()
      ensures view[..] == old(view[..]) && durable[..] == old(durable[..]) && cut == None
      ensures Abs() == Step(old(Abs()), CutAt(n)) && torn == old(torn)
    {
      cutAt := Some(writes + n);
      cut := None;
    }

    /** Cut the power: a new device holding the durable image with what the draws keep of the
        cache, torn as `tear` says. */
    method CrashWith(tear: Tear, draws: nat -> Draw) returns (after: CrashDevice)
      requires Valid()
      ensures fresh(after) && after.Valid() && after.atomic == atomic
      ensures after.Abs() == New(Image(Surviving(Abs()), atomic,
        FatesDrawn(Surviving(Abs()).cached, atomic, tear, draws)))
      ensures after.torn == TornIn(FatesDrawn(Surviving(Abs()).cached, atomic, tear, draws))
      ensures tear.Untorn? && cut.None? ==>
        after.view[..] == Replay(durable[..], Chosen(cached, seq(|cached|, k requires k >= 0 => draws(k).keep)))
    {
      if tear.Untorn? {
        AnUntornCrash(Surviving(Abs()), atomic, draws);
      }
      var from := if cut.Some? then cut.value else Survivors(durable[..], cached);
      var image, n := BuildImage(from, atomic, tear, draws);
      after := new CrashDevice.FromImage(image[..], atomic, n);
    }
  }

  method BuildImage(from: Survivors, unit: nat, tear: Tear, draws: nat -> Draw) returns (image: array<byte>, n: nat)
    requires unit > 0 && AllFit(from.cached, |from.durable|)
    ensures fresh(image)
    ensures image[..] == Image(from, unit, FatesDrawn(from.cached, unit, tear, draws))
    ensures n == TornIn(FatesDrawn(from.cached, unit, tear, draws))
  {
    var ws := from.cached;
    ghost var fates := FatesDrawn(ws, unit, tear, draws);
    image := new byte[|from.durable|](i requires 0 <= i < |from.durable| => from.durable[i]);
    n := 0;
    assert image[..] == from.durable;
    for k := 0 to |ws|
      invariant fresh(image) && image.Length == |from.durable|
      invariant image[..] == Image(Survivors(from.durable, ws[..k]), unit, fates[..k])
      invariant n == TornIn(fates[..k])
    {
      ImagePush(from.durable, ws, unit, fates, k);
      if draws(k).keep {
        var pieces := Pieces(ws[k], unit);
        var kept := Mask(tear, draws(k), |pieces|);
        if false in kept {
          n := n + 1;
        }
        LandPieces(image, ws[k], unit, pieces, kept);
      }
    }
    assert ws[..|ws|] == ws && fates[..|ws|] == fates;
  }

  /** Copy the kept pieces of one write into the image. */
  method LandPieces(image: array<byte>, w: Write, unit: nat, pieces: seq<(nat, nat)>, kept: seq<bool>)
    requires unit > 0 && w.Fits(image.Length) && |pieces| == |kept| == PieceCount(w, unit)
    requires forall k :: 0 <= k < |pieces| ==> w.off <= pieces[k].0 < pieces[k].1 <= w.off + |w.data|
    requires forall i, k :: w.Covers(i) && 0 <= k < |pieces| ==>
      (pieces[k].0 <= i < pieces[k].1 <==> PieceOf(w, unit, i) == k)
    modifies image
    ensures image[..] == Land(old(image[..]), w, unit, Some(kept))
  {
    ghost var base := image[..];
    assert base == Land(base, w, unit, Some(FirstKept(kept, 0)));
    for j := 0 to |pieces|
      invariant image[..] == Land(base, w, unit, Some(FirstKept(kept, j)))
    {
      var (a, b) := pieces[j];
      PieceLands(base, w, unit, kept, j, a, b);
      if kept[j] {
        CopyInto(image, a, w.data[a - w.off..b - w.off]);
      }
    }
    assert FirstKept(kept, |kept|) == kept;
  }

  /** The first `j` flags, the rest lost. */
  ghost function FirstKept(kept: seq<bool>, j: nat): (m: seq<bool>)
    ensures |m| == |kept|
  {
    seq(|kept|, k requires 0 <= k < |kept| => k < j && kept[k])
  }

  lemma PieceLands(base: seq<byte>, w: Write, unit: nat, kept: seq<bool>, j: nat, a: nat, b: nat)
    requires unit > 0 && w.Fits(|base|) && |kept| == PieceCount(w, unit) && j < |kept|
    requires w.off <= a < b <= w.off + |w.data|
    requires forall i: nat :: w.Covers(i) ==> (a <= i < b <==> PieceOf(w, unit, i) == j)
    ensures Land(base, w, unit, Some(FirstKept(kept, j + 1))) ==
      if kept[j] then Patch(Land(base, w, unit, Some(FirstKept(kept, j))), Write(a, w.data[a - w.off..b - w.off]))
      else Land(base, w, unit, Some(FirstKept(kept, j)))
  {
    var was := Land(base, w, unit, Some(FirstKept(kept, j)));
    var now := Land(base, w, unit, Some(FirstKept(kept, j + 1)));
    var piece := Write(a, w.data[a - w.off..b - w.off]);
    forall i | 0 <= i < |base|
      ensures now[i] == if kept[j] && piece.Covers(i) then piece.At(i) else was[i]
    {
    }
    if kept[j] {
      assert now == Patch(was, piece);
    } else {
      assert now == was;
    }
  }
}
