/** The boot's log on the network (src/logcast.rs): files followed a line at a time, a bounded
    backlog, and destinations that come and go and are told what they missed. A `char` stands
    for a byte. */
module Logcast {
  import opened Arithmetic
  import opened Options

  type Text = string

  // ---------------------------------------------------------------- splitting into lines

  /** The whole lines of some bytes, and the unterminated rest. */
  function Split(b: Text): (seq<Text>, Text)
    decreases |b|
  {
    var i := NewLine(b);
    if i == |b| then ([], b) else
    var (lines, rest) := Split(b[i + 1..]);
    ([b[..i]] + lines, rest)
  }

  /** No line holds a line's end, nor does the rest. */
  lemma {:induction false} NoNewLineInside(b: Text)
    ensures '\n' !in Split(b).1 && forall l <- Split(b).0 :: '\n' !in l
    decreases |b|
  {
    var i := NewLine(b);
    if i < |b| {
      NoNewLineInside(b[i + 1..]);
    }
  }

  function NewLine(b: Text): (i: nat)
    ensures i <= |b| && '\n' !in b[..i] && (i < |b| ==> b[i] == '\n')
  {
    if b == [] || b[0] == '\n' then 0 else
    var i := NewLine(b[1..]);
    assert b[..i + 1] == [b[0]] + b[1..][..i];
    i + 1
  }

  lemma NewLineIs(b: Text, n: nat)
    requires n < |b| && b[n] == '\n' && '\n' !in b[..n]
    ensures NewLine(b) == n
  {
    assert !(NewLine(b) > n);
    assert !(NewLine(b) < n);
  }

  function Join(lines: seq<Text>, rest: Text): Text {
    if lines == [] then rest else lines[0] + ['\n'] + Join(lines[1..], rest)
  }

  /** Splitting loses nothing, and no other lines join to the same bytes. */
  lemma {:induction false} SplitInvertsJoin(lines: seq<Text>, rest: Text)
    requires '\n' !in rest && forall l <- lines :: '\n' !in l
    ensures Split(Join(lines, rest)) == (lines, rest)
  {
    var b := Join(lines, rest);
    if lines == [] {
      assert NewLine(b) == |b|;
    } else {
      SplitInvertsJoin(lines[1..], rest);
      var n := |lines[0]|;
      assert b[n] == '\n' && b[..n] == lines[0] && b[n + 1..] == Join(lines[1..], rest);
      NewLineIs(b, n);
      assert [lines[0]] + lines[1..] == lines;
    }
  }

  lemma {:induction false} JoinInvertsSplit(b: Text)
    ensures Join(Split(b).0, Split(b).1) == b
    decreases |b|
  {
    var i := NewLine(b);
    if i < |b| {
      var (lines, rest) := Split(b[i + 1..]);
      JoinInvertsSplit(b[i + 1..]);
      SplitStep(b, i);
      JoinFirst(b[..i], lines, rest);
      CutAt(b, i);
    }
  }

  lemma CutAt(b: Text, i: nat)
    requires i < |b| && b[i] == '\n'
    ensures b == b[..i] + ['\n'] + b[i + 1..]
  {
  }

  lemma JoinFirst(l: Text, lines: seq<Text>, rest: Text)
    ensures Join([l] + lines, rest) == l + ['\n'] + Join(lines, rest)
  {
    assert ([l] + lines)[1..] == lines;
  }

  lemma {:induction false} JoinMore(lines: seq<Text>, more: seq<Text>, rest: Text)
    ensures Join(lines, Join(more, rest)) == Join(lines + more, rest)
  {
    if lines == [] {
      assert lines + more == more;
    } else {
      JoinMore(lines[1..], more, rest);
      assert (lines + more)[1..] == lines[1..] + more;
    }
  }

  lemma {:induction false} JoinThen(lines: seq<Text>, rest: Text, b: Text)
    ensures Join(lines, rest) + b == Join(lines, rest + b)
  {
    if lines != [] {
      JoinThen(lines[1..], rest, b);
      assert Join(lines, rest) + b == lines[0] + ['\n'] + (Join(lines[1..], rest) + b);
    }
  }

  /** Splitting what is left over together with what comes next is splitting it all. */
  lemma SplitInPieces(a: Text, b: Text)
    ensures Split(a + b) == (Split(a).0 + Split(Split(a).1 + b).0, Split(Split(a).1 + b).1)
  {
    var (lines, rest) := Split(a);
    var (more, left) := Split(rest + b);
    JoinInvertsSplit(a);
    JoinInvertsSplit(rest + b);
    JoinThen(lines, rest, b);
    JoinMore(lines, more, left);
    NoNewLineInside(a);
    NoNewLineInside(rest + b);
    SplitInvertsJoin(lines + more, left);
  }

  function TrimCr(l: Text): Text {
    if l != [] && l[|l| - 1] == '\r' then TrimCr(l[..|l| - 1]) else l
  }

  /** The carriage returns at the end of a line go, and nothing else. */
  lemma {:induction false} TrimCrIs(l: Text)
    ensures TrimCr(l) <= l && (TrimCr(l) != [] ==> TrimCr(l)[|TrimCr(l)| - 1] != '\r')
    ensures forall i :: |TrimCr(l)| <= i < |l| ==> l[i] == '\r'
  {
    if l != [] && l[|l| - 1] == '\r' {
      TrimCrIs(l[..|l| - 1]);
    }
  }

  function Trimmed(lines: seq<Text>): (r: seq<Text>)
    ensures |r| == |lines| && forall i :: 0 <= i < |r| ==> r[i] == TrimCr(lines[i])
  {
    seq(|lines|, i requires 0 <= i < |lines| => TrimCr(lines[i]))
  }

  lemma PiecesTrimmed(a: Text, b: Text)
    ensures
      var more := Split(Split(a).1 + b);
      Trimmed(Split(a).0) + Trimmed(more.0) == Trimmed(Split(a + b).0) && more.1 == Split(a + b).1
  {
    SplitInPieces(a, b);
    var more := Split(Split(a).1 + b);
    assert Trimmed(Split(a).0 + more.0) == Trimmed(Split(a).0) + Trimmed(more.0);
  }

  lemma SplitStep(b: Text, i: nat)
    requires i == NewLine(b) < |b|
    ensures Split(b) == ([b[..i]] + Split(b[i + 1..]).0, Split(b[i + 1..]).1)
  {
  }

  lemma TrimStep(out: seq<Text>, l: Text, rest: seq<Text>)
    ensures out + Trimmed([l] + rest) == (out + [TrimCr(l)]) + Trimmed(rest)
  {
    assert Trimmed([l] + rest) == [TrimCr(l)] + Trimmed(rest);
  }

  // ---------------------------------------------------------------- following a file

  /** Bytes taken in one read at most. */
  const CAP: nat := 0x40_0000

  /** Where a read begins: at the start again when the file has become shorter. */
  function From(offset: nat, file: Text): nat {
    if |file| < offset then 0 else offset
  }

  function Chunk(offset: nat, file: Text): Text {
    var from := From(offset, file);
    if |file| - from <= CAP then file[from..] else file[from..from + CAP]
  }

  /** A read takes the next 4 MiB, or what there is. */
  lemma ChunkIs(offset: nat, file: Text)
    requires offset <= |file|
    ensures Chunk(offset, file) <= file[offset..] && |Chunk(offset, file)| == Lesser(0x40_0000, |file| - offset)
    ensures Chunk(|file| + 1, file) == Chunk(0, file)
  {
  }

  class Follow {
    var offset: nat
    var partial: Text
    /** The bytes read since the file was last begun, or its end last counted as a line. */
    ghost var read: Text
    /** The lines they gave. */
    ghost var given: seq<Text>

    ghost predicate Valid()
      reads this
    {
      given == Trimmed(Split(read).0) && partial == Split(read).1
    }

    constructor ()
      ensures Valid() && offset == 0 && read == []
    {
      offset, partial, read, given := 0, [], [], [];
    }

    /** Whatever whole lines were added; with `last` the rest too, as it is. */
    method Read(file: Text, last: bool) returns (out: seq<Text>)
      requires Valid()
      modifies this
      ensures Valid()
      ensures offset == (if |file| < old(offset) then 0 else old(offset)) + |Chunk(old(offset), file)|
      ensures
        var before := if |file| < old(offset) then [] else old(read);
        var (lines, rest) := Split(Split(before).1 + Chunk(old(offset), file));
        && read == (if last then [] else before + Chunk(old(offset), file))
        && out == Trimmed(lines) + if last && rest != [] then [rest] else []
    {
      Fill(file);
      PiecesTrimmed(read[..|read| - |Chunk(old(offset), file)|], Chunk(old(offset), file));
      out := TakeLines();
      given := given + out;
      if last {
        out := EndLine(out);
      }
    }

    /** The end of the file counts as a line. */
    method EndLine(lines: seq<Text>) returns (out: seq<Text>)
      modifies this`partial, this`read, this`given
      ensures Valid() && read == [] && out == lines + if old(partial) != [] then [old(partial)] else []
    {
      out := lines;
      if partial != [] {
        out := out + [partial];
        partial := [];
      }
      read, given := [], [];
    }

    /** Read on, from the start again if the file was emptied. */
    method Fill(file: Text)
      requires Valid()
      modifies this
      ensures offset == From(old(offset), file) + |Chunk(old(offset), file)|
      ensures
        var before := if |file| < old(offset) then [] else old(read);
        && read == before + Chunk(old(offset), file)
        && partial == Split(before).1 + Chunk(old(offset), file)
        && given == Trimmed(Split(before).0)
        && read[..|read| - |Chunk(old(offset), file)|] == before
    {
      if |file| < offset {
        offset, partial, read, given := 0, [], [], [];
      }
      var buf := if |file| - offset <= CAP then file[offset..] else file[offset..offset + CAP];
      offset := offset + |buf|;
      read := read + buf;
      partial := partial + buf;
    }

    /** Move the whole lines out of `partial`. */
    method TakeLines() returns (out: seq<Text>)
      modifies this`partial
      ensures out == Trimmed(Split(old(partial)).0) && partial == Split(old(partial)).1
    {
      out := [];
      var i := NewLine(partial);
      while i < |partial|
        invariant i == NewLine(partial)
        invariant out + Trimmed(Split(partial).0) == Trimmed(Split(old(partial)).0)
        invariant Split(partial).1 == Split(old(partial)).1
        decreases |partial|
      {
        SplitStep(partial, i);
        TrimStep(out, partial[..i], Split(partial[i + 1..]).0);
        out := out + [TrimCr(partial[..i])];
        partial := partial[i + 1..];
        i := NewLine(partial);
      }
    }
  }

  /** How far a file is read, the lines it gave, and what is left over. */
  datatype Progress = Progress(offset: nat, given: seq<Text>, partial: Text)

  /** One read of a file that only grows to `data`, when it is `len` long. */
  ghost function ReadAt(data: Text, p: Progress, len: nat): (q: Progress)
    requires p.offset <= len <= |data|
    ensures q.offset <= len
  {
    var chunk := Chunk(p.offset, data[..len]);
    var more := Split(p.partial + chunk);
    Progress(p.offset + |chunk|, p.given + Trimmed(more.0), more.1)
  }

  ghost predicate Grows(data: Text, lens: seq<nat>) {
    && (forall i :: 0 <= i < |lens| ==> lens[i] <= |data|)
    && (forall i, j :: 0 <= i < j < |lens| ==> lens[i] <= lens[j])
  }

  /** All the reads, at those lengths. */
  ghost function Reads(data: Text, lens: seq<nat>): (p: Progress)
    requires Grows(data, lens)
    ensures p.offset <= if lens == [] then 0 else lens[|lens| - 1]
  {
    if lens == [] then Progress(0, [], []) else
    var n := |lens| - 1;
    ReadAt(data, Reads(data, lens[..n]), lens[n])
  }

  ghost predicate IsSplit(data: Text, p: Progress)
    requires p.offset <= |data|
  {
    p.given == Trimmed(Split(data[..p.offset]).0) && p.partial == Split(data[..p.offset]).1
  }

  lemma ReadKeepsSplit(data: Text, p: Progress, len: nat)
    requires p.offset <= len <= |data| && IsSplit(data, p)
    ensures IsSplit(data, ReadAt(data, p, len))
  {
    ChunkFollows(p.offset, data, len);
    PiecesTrimmed(data[..p.offset], Chunk(p.offset, data[..len]));
  }

  lemma ChunkFollows(offset: nat, data: Text, len: nat)
    requires offset <= len <= |data|
    ensures
      var chunk := Chunk(offset, data[..len]);
      && offset + |chunk| <= len && data[..offset] + chunk == data[..offset + |chunk|]
      && (|chunk| == CAP || offset + |chunk| == len)
  {
  }

  /** However the file grew between reads, and however large: the lines given so far are those of
      the bytes read so far, and what is left over is the line not yet ended. */
  lemma {:induction false} StreamingIsSplitting(data: Text, lens: seq<nat>)
    requires Grows(data, lens)
    ensures IsSplit(data, Reads(data, lens))
  {
    if lens == [] {
      assert data[..0] == [];
    } else {
      var n := |lens| - 1;
      StreamingIsSplitting(data, lens[..n]);
      ReadKeepsSplit(data, Reads(data, lens[..n]), lens[n]);
    }
  }

  /** Reads one after the other of a file that has stopped growing. */
  ghost predicate ReadOn(data: Text, ps: seq<Progress>) {
    && ps != [] && (forall p <- ps :: p.offset <= |data|)
    && forall k :: 0 < k < |ps| ==> ps[k] == ReadAt(data, ps[k - 1], |data|)
  }

  /** It is read to its end, 4 MiB at a time. */
  lemma {:induction false} ItCatchesUp(data: Text, ps: seq<Progress>)
    requires ReadOn(data, ps)
    ensures ps[|ps| - 1].offset == Lesser(ps[0].offset + (|ps| - 1) * 0x40_0000, |data|)
  {
    var n := |ps| - 1;
    if n > 0 {
      assert ps[..n][n - 1] == ps[n - 1];
      ItCatchesUp(data, ps[..n]);
      ReadAtEnd(data, ps[n - 1]);
      OneMoreBlock(ps[0].offset, n, 0x40_0000, |data|);
    }
  }

  lemma OneMoreBlock(from: nat, times: nat, block: nat, end: nat)
    requires times > 0
    ensures Lesser(Lesser(from + (times - 1) * block, end) + block, end) == Lesser(from + times * block, end)
  {
    assert times * block == (times - 1) * block + block;
  }

  lemma ReadAtEnd(data: Text, p: Progress)
    requires p.offset <= |data|
    ensures ReadAt(data, p, |data|).offset == Lesser(p.offset + CAP, |data|)
  {
    assert data[..|data|] == data;
  }

  // ---------------------------------------------------------------- copies of the console's lines

  const COPIES_KEPT: nat := 4096

  predicate StartsWith(l: Text, p: Text) {
    p <= l
  }

  predicate Contains(l: Text, p: Text) {
    exists i :: 0 <= i <= |l| && p <= l[i..]
  }

  /** The follower's note for a collapsed run. */
  predicate FollowerNote(l: Text) {
    StartsWith(l, "  ... and ") && Contains(l, " more line(s) like that")
  }

  /** It begins "  ... and " and holds " more line(s) like that". */
  ghost predicate IsNote(l: Text) {
    "  ... and " <= l && exists i :: 0 <= i <= |l| && " more line(s) like that" <= l[i..]
  }

  lemma NoteIs(l: Text)
    ensures FollowerNote(l) <==> IsNote(l)
  {
  }

  function IndexOf(q: seq<Text>, l: Text): (i: nat)
    ensures i <= |q| && l !in q[..i] && (i < |q| ==> q[i] == l) && (i == |q| <==> l !in q)
  {
    if q == [] || q[0] == l then 0 else
    var i := IndexOf(q[1..], l);
    assert q[..i + 1] == [q[0]] + q[1..][..i];
    i + 1
  }

  /** Lines of the copied file whose copy is still to come: at most so many, oldest first. */
  function Wait(q: seq<Text>, l: Text): seq<Text> {
    var r := q + [l];
    if |r| > COPIES_KEPT then r[|r| - COPIES_KEPT..] else r
  }

  /** Whether a line read is kept, and the copies then still to come. */
  function KeepOne(copied: Option<Text>, q: seq<Text>, tag: Text, l: Text): (bool, seq<Text>) {
    if copied.None? then (true, q)
    else if tag == copied.value then (true, Wait(q, l))
    else if FollowerNote(l) then (false, q)
    else if IndexOf(q, l) < |q| then (false, q[..IndexOf(q, l)] + q[IndexOf(q, l) + 1..])
    else (true, q)
  }

  function Kept(copied: Option<Text>, q: seq<Text>, lines: seq<(Text, Text)>): (seq<(Text, Text)>, seq<Text>) {
    if lines == [] then ([], q) else
    var (kept, r) := Kept(copied, q, lines[..|lines| - 1]);
    var x := lines[|lines| - 1];
    var (keep, left) := KeepOne(copied, r, x.0, x.1);
    (if keep then kept + [x] else kept, left)
  }

  function CountCopied(copied: Text, lines: seq<(Text, Text)>, l: Text): nat {
    if lines == [] then 0 else
    CountCopied(copied, lines[..|lines| - 1], l) + if lines[|lines| - 1] == (copied, l) then 1 else 0
  }

  /** Lines of other files with this text, and of those the ones kept. */
  function CountOthers(copied: Text, lines: seq<(Text, Text)>, l: Text): nat {
    if lines == [] then 0 else
    CountOthers(copied, lines[..|lines| - 1], l) +
    if lines[|lines| - 1].0 != copied && lines[|lines| - 1].1 == l then 1 else 0
  }

  lemma WaitCounts(q: seq<Text>, l: Text, t: Text)
    requires |q| <= COPIES_KEPT
    ensures |Wait(q, l)| <= COPIES_KEPT
    ensures multiset(Wait(q, l))[t] <= multiset(q)[t] + if t == l then 1 else 0
  {
    var r := q + [l];
    if |r| > COPIES_KEPT {
      var k := |r| - COPIES_KEPT;
      assert r == r[..k] + r[k..];
      assert multiset(r) == multiset(r[..k]) + multiset(r[k..]);
    }
    assert multiset(r) == multiset(q) + multiset{l};
  }

  lemma RemoveCounts(q: seq<Text>, i: nat)
    requires i < |q|
    ensures multiset(q[..i] + q[i + 1..]) == multiset(q) - multiset{q[i]}
  {
    assert q == q[..i] + [q[i]] + q[i + 1..];
  }

  lemma CountLast(copied: Text, kept: seq<(Text, Text)>, x: (Text, Text), t: Text)
    ensures CountOthers(copied, kept + [x], t) ==
      CountOthers(copied, kept, t) + if x.0 != copied && x.1 == t then 1 else 0
    ensures CountCopied(copied, kept + [x], t) == CountCopied(copied, kept, t) + if x == (copied, t) then 1 else 0
  {
    assert (kept + [x])[..|kept|] == kept;
  }

  lemma KeepOneCounts(copied: Text, q: seq<Text>, tag: Text, l: Text, t: Text)
    requires |q| <= COPIES_KEPT
    ensures
      var (keep, r) := KeepOne(Some(copied), q, tag, l);
      && |r| <= COPIES_KEPT
      && (tag == copied ==> keep && multiset(r)[t] <= multiset(q)[t] + if t == l then 1 else 0)
      && (tag != copied && !FollowerNote(t) ==> multiset(r)[t] + (if t == l && !keep then 1 else 0) <= multiset(q)[t])
  {
    if tag == copied {
      WaitCounts(q, l, t);
    } else if !FollowerNote(l) && IndexOf(q, l) < |q| {
      RemoveCounts(q, IndexOf(q, l));
    }
  }

  /** No line but a follower's note is held back more often than the copied file produced its
      text: what is kept of it and what the copied file has still to be matched with make up for
      every line of another file. And the copied file itself is kept whole. */
  lemma {:induction false} NoTextIsHeldBackTooOften(copied: Text, lines: seq<(Text, Text)>, t: Text)
    ensures
      var (kept, q) := Kept(Some(copied), [], lines);
      && |q| <= 4096
      && CountCopied(copied, kept, t) == CountCopied(copied, lines, t)
      && (!IsNote(t) ==>
            CountOthers(copied, lines, t) + multiset(q)[t] <= CountOthers(copied, kept, t) +
              CountCopied(copied, lines, t))
  {
    if lines != [] {
      var rest, x := lines[..|lines| - 1], lines[|lines| - 1];
      NoTextIsHeldBackTooOften(copied, rest, t);
      var (kept, q) := Kept(Some(copied), [], rest);
      CountLast(copied, kept, x, t);
      CountLast(copied, rest, x, t);
      assert lines == rest + [x];
      KeepOneCounts(copied, q, x.0, x.1, t);
      NoteIs(t);
    }
  }

  /** Copies of a text still to come: one more each time the copied file has it, one less each time
      another file does, and never fewer than none. */
  ghost function Due(copied: Text, lines: seq<(Text, Text)>, t: Text): nat {
    if lines == [] then 0 else
    var d, x := Due(copied, lines[..|lines| - 1], t), lines[|lines| - 1];
    if x.1 != t then d else if x.0 == copied then d + 1 else if d == 0 then 0 else d - 1
  }

  ghost function CopiedLines(copied: Text, lines: seq<(Text, Text)>): nat {
    if lines == [] then 0 else
    CopiedLines(copied, lines[..|lines| - 1]) + if lines[|lines| - 1].0 == copied then 1 else 0
  }

  lemma {:induction false} AwaitedAreDue(copied: Text, lines: seq<(Text, Text)>, t: Text)
    requires CopiedLines(copied, lines) <= 4096 && !IsNote(t)
    ensures
      var q := Kept(Some(copied), [], lines).1;
      |q| <= CopiedLines(copied, lines) && multiset(q)[t] == Due(copied, lines, t)
  {
    if lines != [] {
      var rest, x := lines[..|lines| - 1], lines[|lines| - 1];
      var q := Kept(Some(copied), [], rest).1;
      AwaitedAreDue(copied, rest, t);
      NoteIs(x.1);
      NoteIs(t);
      if x.0 == copied {
        assert multiset(q + [x.1]) == multiset(q) + multiset{x.1};
      } else if !FollowerNote(x.1) && IndexOf(q, x.1) < |q| {
        RemoveCounts(q, IndexOf(q, x.1));
        assert x.1 in multiset(q);
      } else if x.1 == t {
        assert t !in q && multiset(q)[t] == 0;
      }
    }
  }

  /** While no more than 4096 lines were copied, the next line is held back exactly when it is of
      another file and is a follower's note, or its text is one a copy is still to come of. */
  lemma WhatIsHeldBack(copied: Text, lines: seq<(Text, Text)>, x: (Text, Text))
    requires CopiedLines(copied, lines) <= 4096
    ensures Kept(Some(copied), [], lines + [x]).0 == Kept(Some(copied), [], lines).0 +
      if x.0 != copied && (IsNote(x.1) || Due(copied, lines, x.1) > 0) then [] else [x]
  {
    KeptMore(Some(copied), lines, x);
    NoteIs(x.1);
    var (kept, q) := Kept(Some(copied), [], lines);
    assert kept + [] == kept;
    if !IsNote(x.1) {
      AwaitedAreDue(copied, lines, x.1);
      assert x.1 in q <==> multiset(q)[x.1] > 0;
    }
  }

  /** Past 4096 the copy awaited the longest is forgotten. */
  lemma TheOldestIsForgotten(q: seq<Text>, l: Text)
    requires |q| <= 4096
    ensures Wait(q, l) == if |q| < 4096 then q + [l] else q[1..] + [l]
  {
    if |q| == 4096 {
      assert (q + [l])[1..] == q[1..] + [l];
    }
  }

  /** With no file copied every line is kept. */
  lemma {:induction false} AllAreKept(lines: seq<(Text, Text)>)
    ensures Kept(None, [], lines) == (lines, [])
  {
    if lines != [] {
      AllAreKept(lines[..|lines| - 1]);
      assert lines[..|lines| - 1] + [lines[|lines| - 1]] == lines;
    }
  }

  // ---------------------------------------------------------------- the backlog

  const KEEP_LINES: nat := 100_000
  const KEEP_BYTES: nat := 0x100_0000

  datatype Line = Line(tag: Text, msg: Text)

  function Bytes(lines: seq<Line>): nat {
    if lines == [] then 0 else Bytes(lines[1..]) + |lines[0].msg| + |lines[0].tag|
  }

  lemma {:induction false} BytesPush(lines: seq<Line>, l: Line)
    ensures Bytes(lines + [l]) == Bytes(lines) + |l.msg| + |l.tag|
  {
    if lines != [] {
      BytesPush(lines[1..], l);
      assert (lines + [l])[1..] == lines[1..] + [l];
    }
  }

  predicate Fits(lines: seq<Line>) {
    |lines| <= KEEP_LINES && Bytes(lines) <= KEEP_BYTES
  }

  /** How many of the oldest go. */
  function Evict(lines: seq<Line>): (k: nat)
    ensures k <= |lines|
  {
    if Fits(lines) then 0 else Evict(lines[1..]) + 1
  }

  /** As many as must for the rest to fit, and no more. */
  lemma {:induction false} NoMoreGoThanMust(lines: seq<Line>)
    ensures |lines[Evict(lines)..]| <= 100_000 && Bytes(lines[Evict(lines)..]) <= 0x100_0000
    ensures forall j :: 0 <= j < Evict(lines) ==> |lines[j..]| > 100_000 || Bytes(lines[j..]) > 0x100_0000
  {
    assert lines[0..] == lines;
    if !Fits(lines) {
      NoMoreGoThanMust(lines[1..]);
      assert lines[1..][Evict(lines[1..])..] == lines[Evict(lines)..];
      forall j | 0 < j < Evict(lines)
        ensures |lines[j..]| > 100_000 || Bytes(lines[j..]) > 0x100_0000
      {
        assert lines[j..] == lines[1..][j - 1..];
      }
    }
  }

  lemma EvictStep(lines: seq<Line>)
    requires !Fits(lines)
    ensures lines != [] && Evict(lines) == 1 + Evict(lines[1..])
    ensures Bytes(lines) == Bytes(lines[1..]) + |lines[0].msg| + |lines[0].tag|
  {
  }

  lemma EvictNone(lines: seq<Line>)
    requires Fits(lines)
    ensures Evict(lines) == 0
  {
  }

  // ---------------------------------------------------------------- the destinations

  /** What a destination is sent: a line, or how many it missed. */
  datatype Frame = Sent(line: Line) | Lost(count: nat)

  /** From position `at` of the whole log, where one more frame leads; `None` when it is a line
      that is not there. */
  ghost function Onward(log: seq<Line>, at: nat, f: Frame): (r: Option<nat>)
    ensures r.Some? ==> r.value <= |log|
  {
    if f.Sent? then
      if at < |log| && log[at] == f.line then Some(at + 1) else None
    else
      if f.count > 0 && at + f.count <= |log| then Some(at + f.count) else None
  }

  /** Reading what was sent from the beginning of the whole log: where it ends. */
  ghost function Follows(log: seq<Line>, wire: seq<Frame>): (at: Option<nat>)
    ensures at.Some? ==> at.value <= |log|
  {
    if wire == [] then Some(0) else
    var was := Follows(log, wire[..|wire| - 1]);
    if was.None? then None else Onward(log, was.value, wire[|wire| - 1])
  }

  function SentIn(wire: seq<Frame>): nat {
    if wire == [] then 0 else SentIn(wire[..|wire| - 1]) + if wire[|wire| - 1].Sent? then 1 else 0
  }

  function LostIn(wire: seq<Frame>): nat {
    if wire == [] then 0 else LostIn(wire[..|wire| - 1]) + if wire[|wire| - 1].Lost? then wire[|wire| - 1].count else 0
  }

  /** The positions of the log a destination was sent, in the order they were. */
  ghost function Positions(log: seq<Line>, wire: seq<Frame>): (p: seq<nat>)
    requires Follows(log, wire).Some?
    ensures |p| == SentIn(wire)
    ensures forall i :: 0 <= i < |p| ==> p[i] < Follows(log, wire).value
  {
    if wire == [] then [] else
    var p := Positions(log, wire[..|wire| - 1]);
    if wire[|wire| - 1].Sent? then p + [Follows(log, wire[..|wire| - 1]).value] else p
  }

  /** A destination is sent a strictly increasing run of the log, never a line twice, and is told
      of every one it missed: what it has passed is what it was sent and what it was told is lost. */
  lemma {:induction false} WhatADestinationIsSent(log: seq<Line>, wire: seq<Frame>)
    requires Follows(log, wire).Some?
    ensures Follows(log, wire).value == SentIn(wire) + LostIn(wire)
    ensures Increasing(Positions(log, wire))
  {
    if wire != [] {
      var less := wire[..|wire| - 1];
      WhatADestinationIsSent(log, less);
      IncreasingMore(Positions(log, less), Follows(log, less).value);
    }
  }

  ghost predicate Increasing(p: seq<nat>) {
    forall i, j :: 0 <= i < j < |p| ==> p[i] < p[j]
  }

  lemma IncreasingMore(p: seq<nat>, n: nat)
    requires Increasing(p) && forall i :: 0 <= i < |p| ==> p[i] < n
    ensures Increasing(p + [n])
  {
  }

  /** The lines it got are the lines at those positions. */
  ghost function LinesOf(wire: seq<Frame>): seq<Line> {
    if wire == [] then [] else
    LinesOf(wire[..|wire| - 1]) + if wire[|wire| - 1].Sent? then [wire[|wire| - 1].line] else []
  }

  lemma {:induction false} TheLinesAreThose(log: seq<Line>, wire: seq<Frame>)
    requires Follows(log, wire).Some?
    ensures |LinesOf(wire)| == |Positions(log, wire)|
    ensures forall i :: 0 <= i < |LinesOf(wire)| ==> LinesOf(wire)[i] == log[Positions(log, wire)[i]]
  {
    if wire != [] {
      TheLinesAreThose(log, wire[..|wire| - 1]);
    }
  }

  lemma {:induction false} LongerLog(log: seq<Line>, more: seq<Line>, wire: seq<Frame>)
    ensures Follows(log, wire).Some? ==> Follows(log + more, wire) == Follows(log, wire)
  {
    if wire != [] {
      LongerLog(log, more, wire[..|wire| - 1]);
    }
  }

  lemma FollowsMore(log: seq<Line>, wire: seq<Frame>, f: Frame)
    requires Follows(log, wire).Some?
    ensures Follows(log, wire + [f]) == Onward(log, Follows(log, wire).value, f)
    ensures SentIn(wire + [f]) == SentIn(wire) + if f.Sent? then 1 else 0
  {
    assert (wire + [f])[..|wire|] == wire;
  }

  lemma FollowsSent(log: seq<Line>, wire: seq<Frame>, at: nat)
    requires Follows(log, wire) == Some(at) && at < |log|
    ensures Follows(log, wire + [Sent(log[at])]) == Some(at + 1) && SentIn(wire + [Sent(log[at])]) == SentIn(wire) + 1
  {
    FollowsMore(log, wire, Sent(log[at]));
  }

  lemma FollowsLost(log: seq<Line>, wire: seq<Frame>, at: nat, n: nat)
    requires Follows(log, wire) == Some(at) && n > 0 && at + n <= |log|
    ensures Follows(log, wire + [Lost(n)]) == Some(at + n) && SentIn(wire + [Lost(n)]) == SentIn(wire)
  {
    FollowsMore(log, wire, Lost(n));
  }

  /** How many of each. */
  ghost predicate Tallies(q: seq<Text>, tally: map<Text, nat>) {
    && (forall t <- tally :: tally[t] > 0 && tally[t] == multiset(q)[t])
    && (forall t <- q :: t in tally)
  }

  lemma TallyMore(q: seq<Text>, tally: map<Text, nat>, l: Text)
    requires Tallies(q, tally)
    ensures Tallies(q + [l], tally[l := (if l in tally then tally[l] else 0) + 1])
  {
    assert multiset(q + [l]) == multiset(q) + multiset{l};
    assert l !in tally ==> l !in multiset(q);
  }

  lemma TallyLess(q: seq<Text>, tally: map<Text, nat>, i: nat)
    requires Tallies(q, tally) && i < |q|
    ensures q[i] in tally && tally[q[i]] > 0
    ensures Tallies(q[..i] + q[i + 1..], if tally[q[i]] == 1 then tally - {q[i]} else tally[q[i] := tally[q[i]] - 1])
  {
    var l, r := q[i], q[..i] + q[i + 1..];
    RemoveCounts(q, i);
    forall t <- r
      ensures t in (if tally[l] == 1 then tally - {l} else tally[l := tally[l] - 1])
    {
      assert t in multiset(r) && t in q;
    }
  }

  datatype Dest = Dest(next: nat, started: bool, sent: nat)

  ghost predicate Serves(log: seq<Line>, d: Dest, wire: seq<Frame>) {
    Follows(log, wire) == Some(d.next) && d.sent == SentIn(wire)
  }

  class Logcast {
    var lines: seq<Line>
    var bytes: nat
    /** The sequence number of `lines[0]`. */
    var base: nat
    var dests: seq<Dest>
    var copies: seq<Text>
    var copiesBy: map<Text, nat>
    const copied: Option<Text>
    /** Every line read of the files, in the order they were looked at, and those kept. */
    ghost var read: seq<(Text, Text)>
    ghost var kept: seq<(Text, Text)>
    /** Every line ever taken, and what each destination was sent. */
    ghost var log: seq<Line>
    ghost var wires: seq<seq<Frame>>

    ghost predicate Buffered()
      reads this`lines, this`bytes, this`base, this`log
    {
      base <= |log| && lines == log[base..] && bytes == Bytes(lines) && Fits(lines)
    }

    ghost predicate Counted()
      reads this`copies, this`copiesBy
    {
      |copies| <= COPIES_KEPT && Tallies(copies, copiesBy)
    }

    /** The copies awaited and the lines kept are those of everything read so far. */
    ghost predicate Accounted()
      reads this`copies, this`read, this`kept
    {
      Kept(copied, [], read) == (kept, copies)
    }

    ghost predicate Served()
      reads this`log, this`dests, this`wires
    {
      |wires| == |dests| && forall i :: 0 <= i < |dests| ==> Serves(log, dests[i], wires[i])
    }

    ghost predicate Valid()
      reads this
    {
      Buffered() && Counted() && Accounted() && Served()
    }

    /** However the lines came, batch after batch: no line but a follower's note is held back more
        often than the copied file produced its text, and the copied file is kept whole. */
    lemma NoneIsHeldBackTooOften(t: Text)
      requires Valid() && copied.Some?
      ensures CountCopied(copied.value, kept, t) == CountCopied(copied.value, read, t)
      ensures !IsNote(t) ==>
        CountOthers(copied.value, read, t) + multiset(copies)[t] <=
          CountOthers(copied.value, kept, t) + CountCopied(copied.value, read, t)
    {
      NoTextIsHeldBackTooOften(copied.value, read, t);
    }

    constructor (copied: Option<Text>)
      ensures Valid() && log == [] && dests == [] && read == [] && this.copied == copied
    {
      this.copied := copied;
      lines, bytes, base, dests, copies, copiesBy, log, wires := [], 0, 0, [], [], map[], [], [];
      read, kept := [], [];
    }

    /** A collector settled, however late: it starts at the log's first line. */
    method AddDest()
      requires Valid()
      modifies this`dests, this`wires
      ensures Valid() && |dests| == |old(dests)| + 1 && dests[..|old(dests)|] == old(dests) &&
        wires[..|old(dests)|] == old(wires)
      ensures dests[|old(dests)|] == Dest(0, false, 0)
    {
      dests, wires := dests + [Dest(0, false, 0)], wires + [[]];
    }

    /** `syslog=off`. */
    method Off()
      requires Valid()
      modifies this`dests, this`wires
      ensures Valid() && dests == []
    {
      dests, wires := [], [];
    }

    /** Take a line; the oldest go while there are too many, and only then. */
    method Push(tag: Text, msg: Text)
      requires Valid()
      modifies this`lines, this`bytes, this`base, this`log
      ensures Valid() && log == old(log) + [Line(tag, msg)]
      ensures
        var all := old(lines) + [Line(tag, msg)];
        lines == all[Evict(all)..] && base == old(base) + Evict(all)
    {
      BytesPush(lines, Line(tag, msg));
      bytes := bytes + |msg| + |tag|;
      lines := lines + [Line(tag, msg)];
      log := log + [Line(tag, msg)];
      EvictOldest();
      StillFollows(old(log), [Line(tag, msg)]);
    }

    method EvictOldest()
      requires base <= |log| && lines == log[base..] && bytes == Bytes(lines)
      modifies this`lines, this`bytes, this`base
      ensures Buffered()
      ensures lines == old(lines)[Evict(old(lines))..] && base == old(base) + Evict(old(lines))
    {
      ghost var was, from := lines, base;
      while |lines| > KEEP_LINES || bytes > KEEP_BYTES
        invariant from <= base <= |log| && lines == log[base..] && bytes == Bytes(lines)
        invariant Evict(was) == base - from + Evict(lines)
        decreases |lines|
      {
        EvictStep(lines);
        assert lines[1..] == log[base + 1..];
        bytes := bytes - (|lines[0].msg| + |lines[0].tag|);
        lines := lines[1..];
        base := base + 1;
      }
      EvictNone(lines);
      assert log[from..][base - from..] == log[base..];
    }

    lemma StillFollows(was: seq<Line>, more: seq<Line>)
      requires log == was + more && |wires| == |dests|
      requires forall i :: 0 <= i < |dests| ==> Serves(was, dests[i], wires[i])
      ensures Served()
    {
      forall i | 0 <= i < |dests|
        ensures Serves(log, dests[i], wires[i])
      {
        LongerLog(was, more, wires[i]);
      }
    }

    /** One less copy to wait for. */
    method ForgetCopy(l: Text)
      requires l in copiesBy && copiesBy[l] > 0
      modifies this`copiesBy
      ensures copiesBy == if old(copiesBy)[l] == 1 then old(copiesBy) - {l}
        else old(copiesBy)[l := old(copiesBy)[l] - 1]
    {
      copiesBy := copiesBy[l := copiesBy[l] - 1];
      if copiesBy[l] == 0 {
        copiesBy := copiesBy - {l};
        assert copiesBy == old(copiesBy) - {l};
      }
    }

    /** A line of the copied file: its copy is waited for. */
    method AwaitCopy(l: Text)
      requires Counted()
      modifies this`copies, this`copiesBy
      ensures Counted() && copies == Wait(old(copies), l)
    {
      TallyMore(copies, copiesBy, l);
      copies := copies + [l];
      copiesBy := copiesBy[l := (if l in copiesBy then copiesBy[l] else 0) + 1];
      if |copies| > COPIES_KEPT {
        ForgetOldest();
      }
    }

    method ForgetOldest()
      requires copies != [] && Tallies(copies, copiesBy)
      modifies this`copies, this`copiesBy
      ensures copies == old(copies)[1..] && Tallies(copies, copiesBy)
    {
      TallyLess(copies, copiesBy, 0);
      assert copies[..0] + copies[1..] == copies[1..];
      ForgetCopy(copies[0]);
      copies := copies[1..];
    }

    /** The console's copy of a line already kept. */
    method DropCopy(l: Text)
      requires Counted() && l in copies
      modifies this`copies, this`copiesBy
      ensures Counted() && copies == old(copies)[..IndexOf(old(copies), l)] + old(copies)[IndexOf(old(copies), l) + 1..]
    {
      var i := IndexOf(copies, l);
      TallyLess(copies, copiesBy, i);
      ForgetCopy(l);
      copies := copies[..i] + copies[i + 1..];
    }

    /** What the files added, the copied file's lines first. */
    method TakeAll(batches: seq<(Text, seq<Text>)>)
      requires Valid()
      modifies this`lines, this`bytes, this`base, this`log, this`copies, this`copiesBy, this`read, this`kept
      ensures Valid() && read == old(read) + CopiedFirst(copied, batches)
      ensures
        var (more, waiting) := Kept(copied, old(copies), CopiedFirst(copied, batches));
        copies == waiting && kept == old(kept) + more && log == old(log) + AsLines(more)
    {
      var taken := InOrder(copied, batches);
      KeptJoins(copied, [], read, taken);
      TakeEach(taken);
    }

    method TakeEach(taken: seq<(Text, Text)>)
      requires Valid()
      modifies this`lines, this`bytes, this`base, this`log, this`copies, this`copiesBy, this`read, this`kept
      ensures Valid() && read == old(read) + taken
      ensures TakenSince(old(log), old(kept))
    {
      ghost var was, had, before := log, read, kept;
      for i := 0 to |taken|
        invariant Valid() && read == had + taken[..i] && TakenSince(was, before)
      {
        TakeOne(taken[i].0, taken[i].1, was, before);
        assert taken[..i + 1] == taken[..i] + [taken[i]];
      }
      assert taken[..|taken|] == taken;
    }

    /** The log has grown by what was kept. */
    ghost predicate TakenSince(was: seq<Line>, before: seq<(Text, Text)>)
      reads this`log, this`kept
    {
      before <= kept && log == was + AsLines(kept[|before|..])
    }

    method TakeOne(tag: Text, l: Text, ghost was: seq<Line>, ghost before: seq<(Text, Text)>)
      requires Valid() && TakenSince(was, before)
      modifies this`lines, this`bytes, this`base, this`log, this`copies, this`copiesBy, this`read, this`kept
      ensures Valid() && read == old(read) + [(tag, l)] && TakenSince(was, before)
    {
      KeptMore(copied, read, (tag, l));
      var keep := Keep(tag, l);
      read := read + [(tag, l)];
      if keep {
        AsLinesMore(was, kept, |before|, (tag, l));
        kept := kept + [(tag, l)];
        Push(tag, l);
      }
    }

    /** Whether a line is kept: a line of the copied file is, and its copy is awaited; of the others
        a follower's note is not, nor a copy awaited. */
    method Keep(tag: Text, l: Text) returns (keep: bool)
      requires Counted()
      modifies this`copies, this`copiesBy
      ensures Counted() && (keep, copies) == KeepOne(copied, old(copies), tag, l)
    {
      if copied.Some? {
        if tag == copied.value {
          AwaitCopy(l);
        } else if FollowerNote(l) {
          return false;
        } else if l in copiesBy && copiesBy[l] > 0 {
          DropCopy(l);
          return false;
        }
      }
      return true;
    }

    /** Send what each reachable destination has not had, and note the ones newly reached. */
    method Send(reach: seq<bool>, named: bool, notes: seq<Text>)
      requires Valid() && |reach| == |notes| == |dests|
      modifies this`lines, this`bytes, this`base, this`log, this`dests, this`wires
      ensures Valid()
      ensures dests == if named then DestsAfter(old(dests), reach, old(log), old(base), |reach|) else old(dests)
      ensures wires == if named then WiresAfter(old(wires), old(dests), reach, old(log), old(base), |reach|)
        else old(wires)
      ensures log == old(log) + if named then AsNotes(StartNotes(old(dests), reach, notes)) else []
      ensures |dests| == |wires| == |reach| && forall i :: 0 <= i < |reach| ==>
        if named && reach[i] then dests[i].next == |old(log)| && dests[i].started && old(wires[i]) <= wires[i]
        else dests[i] == old(dests[i]) && wires[i] == old(wires[i])
    {
      if !named {
        return;
      }
      var said := SendEach(reach, notes);
      PushAll(said);
    }

    method SendEach(reach: seq<bool>, notes: seq<Text>) returns (said: seq<Text>)
      requires Buffered() && Served() && |reach| == |notes| == |dests|
      modifies this`dests, this`wires
      ensures Served()
      ensures dests == DestsAfter(old(dests), reach, log, base, |reach|)
      ensures wires == WiresAfter(old(wires), old(dests), reach, log, base, |reach|)
      ensures said == StartNotes(old(dests), reach, notes)
    {
      ghost var before, sent := dests, wires;
      assert forall j :: 0 <= j < |dests| ==> Serves(log, dests[j], wires[j]);
      said := [];
      assert SentUpTo(before, sent, reach, 0);
      for i := 0 to |dests|
        invariant |dests| == |before| && SentUpTo(before, sent, reach, i)
        invariant said == StartNotes(before[..i], reach[..i], notes[..i])
      {
        NotesMore(before, reach, notes, i);
        if reach[i] && !dests[i].started {
          said := said + [notes[i]];
        }
        SendNth(before, sent, reach, i);
      }
      assert before[..|before|] == before && reach[..|reach|] == reach && notes[..|notes|] == notes;
    }

    /** The first `i` were sent what they had not had, where they can be reached. */
    ghost predicate SentUpTo(before: seq<Dest>, sent: seq<seq<Frame>>, reach: seq<bool>, i: nat)
      reads this
    {
      && |before| == |sent| == |reach| && base <= |log| && (forall d <- before :: d.next <= |log|)
      && dests == DestsAfter(before, reach, log, base, i)
      && wires == WiresAfter(sent, before, reach, log, base, i)
      && Served()
    }

    method SendNth(ghost before: seq<Dest>, ghost sent: seq<seq<Frame>>, reach: seq<bool>, i: nat)
      requires Buffered() && i < |reach| && SentUpTo(before, sent, reach, i)
      modifies this`dests, this`wires
      ensures SentUpTo(before, sent, reach, i + 1)
    {
      DestsMore(before, reach, log, base, i);
      WiresMore(sent, before, reach, log, base, i);
      if reach[i] {
        SendOne(i);
      }
    }

    method PushAll(said: seq<Text>)
      requires Valid()
      modifies this`lines, this`bytes, this`base, this`log
      ensures Valid() && log == old(log) + AsNotes(said)
    {
      ghost var was := log;
      for i := 0 to |said|
        invariant Valid() && log == was + AsNotes(said[..i])
      {
        AsNotesMore(was, said, i);
        Push(SELF_TAG, said[i]);
      }
      assert said[..|said|] == said;
    }

    method SendOne(i: nat)
      requires Buffered() && Served() && i < |dests|
      modifies this`dests, this`wires
      ensures Served()
      ensures dests == old(dests)[i := Reached(old(dests)[i], log, base)]
      ensures wires == old(wires)[i := old(wires)[i] + CatchUp(log, base, old(dests)[i].next)]
    {
      var d := dests[i];
      assert Serves(log, d, wires[i]);
      CatchUpFollows(log, wires[i], base, d.next);
      ghost var frames;
      d, frames := Deliver(d);
      dests := dests[i := d];
      wires := wires[i := wires[i] + frames];
    }

    /** One destination: how much it missed, then every line it has not had. */
    method Deliver(was: Dest) returns (d: Dest, ghost frames: seq<Frame>)
      requires Buffered() && was.next <= |log|
      ensures d == Reached(was, log, base) && frames == CatchUp(log, base, was.next)
    {
      var next, sent := was.next, was.sent;
      frames := [];
      if next < base {
        frames := [Lost(base - next)];
        next := base;
      }
      ghost var told := frames;
      var start := next - base;
      for k := start to |lines|
        invariant sent == was.sent + k - start && frames == told + Frames(lines[start..k])
      {
        assert Frames(lines[start..k + 1]) == Frames(lines[start..k]) + [Sent(lines[k])];
        frames := frames + [Sent(lines[k])];
        sent := sent + 1;
      }
      assert lines[start..|lines|] == log[next..];
      d := Dest(base + |lines|, true, sent);
    }

    /** Whether every destination has had every line, or was told it is lost. */
    method Drained() returns (done: bool)
      requires Valid()
      ensures done <==> forall i :: 0 <= i < |dests| ==> Follows(log, wires[i]) == Some(|log|)
    {
      var end := base + |lines|;
      for i := 0 to |dests|
        invariant forall j :: 0 <= j < i ==> Follows(log, wires[j]) == Some(|log|)
      {
        assert Serves(log, dests[i], wires[i]);
        if dests[i].next < end {
          return false;
        }
      }
      done := true;
    }
  }

  const SELF_TAG: Text := "stormblock-logcast"

  function Frames(lines: seq<Line>): (r: seq<Frame>)
    ensures |r| == |lines| && forall i :: 0 <= i < |r| ==> r[i] == Sent(lines[i])
  {
    seq(|lines|, i requires 0 <= i < |lines| => Sent(lines[i]))
  }

  /** How many lines are gone, then the ones that are not. */
  function CatchUp(log: seq<Line>, base: nat, next: nat): seq<Frame>
    requires base <= |log| && next <= |log|
  {
    if next < base then [Lost(base - next)] + Frames(log[base..]) else Frames(log[next..])
  }

  lemma {:induction false} FollowsFrames(log: seq<Line>, wire: seq<Frame>, k: nat)
    requires Follows(log, wire).Some? && Follows(log, wire).value <= k <= |log|
    ensures
      var now := wire + Frames(log[Follows(log, wire).value..k]);
      Follows(log, now) == Some(k) && SentIn(now) == SentIn(wire) + k - Follows(log, wire).value
    decreases k
  {
    var from := Follows(log, wire).value;
    if k == from {
      assert wire + Frames(log[from..k]) == wire;
    } else {
      FollowsFrames(log, wire, k - 1);
      FramesMore(log, wire, from, k);
      FollowsSent(log, wire + Frames(log[from..k - 1]), k - 1);
    }
  }

  lemma FramesMore(log: seq<Line>, wire: seq<Frame>, from: nat, k: nat)
    requires from < k <= |log|
    ensures wire + Frames(log[from..k]) == (wire + Frames(log[from..k - 1])) + [Sent(log[k - 1])]
  {
    assert Frames(log[from..k]) == Frames(log[from..k - 1]) + [Sent(log[k - 1])];
  }

  /** Caught up, a destination is at the end of the log. */
  lemma CatchUpFollows(log: seq<Line>, wire: seq<Frame>, base: nat, next: nat)
    requires base <= |log| && Follows(log, wire) == Some(next)
    ensures
      var now := wire + CatchUp(log, base, next);
      Follows(log, now) == Some(|log|) && SentIn(now) == SentIn(wire) + |log| - if next < base then base else next
  {
    if next < base {
      var told := wire + [Lost(base - next)];
      FollowsLost(log, wire, next, base - next);
      FollowsToTheEnd(log, told, base);
      Joined(wire, Lost(base - next), Frames(log[base..]));
    } else {
      FollowsToTheEnd(log, wire, next);
    }
  }

  lemma Joined(a: seq<Frame>, f: Frame, b: seq<Frame>)
    ensures a + ([f] + b) == (a + [f]) + b
  {
  }

  lemma FollowsToTheEnd(log: seq<Line>, wire: seq<Frame>, from: nat)
    requires Follows(log, wire) == Some(from)
    ensures Follows(log, wire + Frames(log[from..])) == Some(|log|) &&
      SentIn(wire + Frames(log[from..])) == SentIn(wire) + |log| - from
  {
    FollowsFrames(log, wire, |log|);
    assert log[from..|log|] == log[from..];
  }

  lemma NotesMore(dests: seq<Dest>, reach: seq<bool>, notes: seq<Text>, i: nat)
    requires |reach| == |notes| == |dests| && i < |dests|
    ensures StartNotes(dests[..i + 1], reach[..i + 1], notes[..i + 1]) ==
      StartNotes(dests[..i], reach[..i], notes[..i]) + if reach[i] && !dests[i].started then [notes[i]] else []
  {
    assert dests[..i + 1][..i] == dests[..i] && reach[..i + 1][..i] == reach[..i] && notes[..i + 1][..i] == notes[..i];
  }

  function Reached(d: Dest, log: seq<Line>, base: nat): Dest
    requires base <= |log| && d.next <= |log|
  {
    Dest(|log|, true, d.sent + |log| - if d.next < base then base else d.next)
  }

  /** The destinations once the first `k` were sent what they had not had. */
  ghost function DestsAfter(dests: seq<Dest>, reach: seq<bool>, log: seq<Line>, base: nat, k: nat): (r: seq<Dest>)
    requires |reach| == |dests| && base <= |log| && forall d <- dests :: d.next <= |log|
    ensures |r| == |dests|
    ensures forall j :: 0 <= j < |r| ==> r[j] == if j < k && reach[j] then Reached(dests[j], log, base) else dests[j]
  {
    seq(|dests|, j requires 0 <= j < |dests| => if j < k && reach[j] then Reached(dests[j], log, base) else dests[j])
  }

  ghost function WiresAfter(wires: seq<seq<Frame>>, dests: seq<Dest>, reach: seq<bool>, log: seq<Line>, base: nat,
        k: nat): (r: seq<seq<Frame>>)
    requires |wires| == |reach| == |dests| && base <= |log| && forall d <- dests :: d.next <= |log|
    ensures |r| == |wires|
    ensures forall j :: 0 <= j < |r| ==>
      r[j] == if j < k && reach[j] then wires[j] + CatchUp(log, base, dests[j].next) else wires[j]
  {
    seq(|wires|, j requires 0 <= j < |wires| =>
      if j < k && reach[j] then wires[j] + CatchUp(log, base, dests[j].next) else wires[j])
  }

  lemma DestsMore(dests: seq<Dest>, reach: seq<bool>, log: seq<Line>, base: nat, k: nat)
    requires |reach| == |dests| && base <= |log| && k < |dests| && forall d <- dests :: d.next <= |log|
    ensures
      var d := DestsAfter(dests, reach, log, base, k);
      d[k] == dests[k] &&
      DestsAfter(dests, reach, log, base, k + 1) == if reach[k] then d[k := Reached(dests[k], log, base)] else d
  {
  }

  lemma WiresMore(wires: seq<seq<Frame>>, dests: seq<Dest>, reach: seq<bool>, log: seq<Line>, base: nat, k: nat)
    requires |wires| == |reach| == |dests| && base <= |log| && k < |dests| && forall d <- dests :: d.next <= |log|
    ensures
      var w := WiresAfter(wires, dests, reach, log, base, k);
      w[k] == wires[k] &&
      WiresAfter(wires, dests, reach, log, base, k + 1) ==
        if reach[k] then w[k := wires[k] + CatchUp(log, base, dests[k].next)] else w
  {
    var next := wires[k] + CatchUp(log, base, dests[k].next);
    var v, w := WiresAfter(wires, dests, reach, log, base, k + 1), WiresAfter(wires, dests, reach, log, base, k);
    assert forall j :: 0 <= j < |w| && j != k ==> v[j] == w[j];
    assert v[k] == if reach[k] then next else w[k];
  }

  function AsNotes(said: seq<Text>): (r: seq<Line>)
    ensures |r| == |said| && forall i :: 0 <= i < |r| ==> r[i] == Line(SELF_TAG, said[i])
  {
    seq(|said|, i requires 0 <= i < |said| => Line(SELF_TAG, said[i]))
  }

  lemma AsNotesMore(was: seq<Line>, said: seq<Text>, i: nat)
    requires i < |said|
    ensures was + AsNotes(said[..i + 1]) == (was + AsNotes(said[..i])) + [Line(SELF_TAG, said[i])]
  {
    assert AsNotes(said[..i + 1]) == AsNotes(said[..i]) + [Line(SELF_TAG, said[i])];
  }

  function StartNotes(dests: seq<Dest>, reach: seq<bool>, notes: seq<Text>): seq<Text>
    requires |reach| == |notes| == |dests|
  {
    if dests == [] then [] else
    var n := |dests| - 1;
    StartNotes(dests[..n], reach[..n], notes[..n]) + if reach[n] && !dests[n].started then [notes[n]] else []
  }

  /** A note is made of each destination first reached, and of no other. */
  lemma {:induction false} NotesAreOfTheNew(dests: seq<Dest>, reach: seq<bool>, notes: seq<Text>)
    requires |reach| == |notes| == |dests|
    ensures forall i :: 0 <= i < |dests| && reach[i] && !dests[i].started ==>
      notes[i] in StartNotes(dests, reach, notes)
    ensures (forall i :: 0 <= i < |dests| && reach[i] ==> dests[i].started) ==> StartNotes(dests, reach, notes) == []
  {
    if dests != [] {
      var n := |dests| - 1;
      NotesAreOfTheNew(dests[..n], reach[..n], notes[..n]);
      assert forall i :: 0 <= i < n ==>
        dests[..n][i] == dests[i] && reach[..n][i] == reach[i] && notes[..n][i] == notes[i];
    }
  }

  function AsLines(kept: seq<(Text, Text)>): (r: seq<Line>)
    ensures |r| == |kept| && forall i :: 0 <= i < |r| ==> r[i] == Line(kept[i].0, kept[i].1)
  {
    seq(|kept|, i requires 0 <= i < |kept| => Line(kept[i].0, kept[i].1))
  }

  function Tagged(tag: Text, lines: seq<Text>): (r: seq<(Text, Text)>)
    ensures |r| == |lines| && forall i :: 0 <= i < |r| ==> r[i] == (tag, lines[i])
  {
    seq(|lines|, i requires 0 <= i < |lines| => (tag, lines[i]))
  }

  /** The lines of the copied file, or of the others, file by file. */
  function Of(copied: Option<Text>, ofCopied: bool, batches: seq<(Text, seq<Text>)>): seq<(Text, Text)> {
    if batches == [] then [] else
    var (tag, lines) := batches[|batches| - 1];
    Of(copied, ofCopied, batches[..|batches| - 1]) + if (Some(tag) == copied) == ofCopied
      then Tagged(tag, lines) else []
  }

  function CopiedFirst(copied: Option<Text>, batches: seq<(Text, seq<Text>)>): seq<(Text, Text)> {
    Of(copied, true, batches) + Of(copied, false, batches)
  }

  /** The texts of one file's lines. */
  ghost function Texts(lines: seq<(Text, Text)>, tag: Text): seq<Text> {
    if lines == [] then [] else
    Texts(lines[..|lines| - 1], tag) + if lines[|lines| - 1].0 == tag then [lines[|lines| - 1].1] else []
  }

  ghost function Added(batches: seq<(Text, seq<Text>)>, tag: Text): seq<Text> {
    if batches == [] then [] else
    Added(batches[..|batches| - 1], tag) + if batches[|batches| - 1].0 == tag then batches[|batches| - 1].1 else []
  }

  lemma {:induction false} TextsJoin(a: seq<(Text, Text)>, b: seq<(Text, Text)>, tag: Text)
    ensures Texts(a + b, tag) == Texts(a, tag) + Texts(b, tag)
  {
    if b == [] {
      assert a + b == a && Texts(a, tag) + [] == Texts(a, tag);
    } else {
      TextsJoin(a, b[..|b| - 1], tag);
      assert (a + b)[..|a + b| - 1] == a + b[..|b| - 1];
    }
  }

  lemma {:induction false} TextsOfOne(of: Text, lines: seq<Text>, tag: Text)
    ensures Texts(Tagged(of, lines), tag) == if of == tag then lines else []
  {
    if lines != [] {
      var rest := lines[..|lines| - 1];
      TextsOfOne(of, rest, tag);
      assert Tagged(of, lines)[..|lines| - 1] == Tagged(of, rest);
      assert rest + [lines[|lines| - 1]] == lines;
    }
  }

  lemma {:induction false} TextsOf(copied: Option<Text>, ofCopied: bool, batches: seq<(Text, seq<Text>)>, tag: Text)
    ensures Texts(Of(copied, ofCopied, batches), tag) ==
      if (Some(tag) == copied) == ofCopied then Added(batches, tag) else []
  {
    if batches != [] {
      var rest := batches[..|batches| - 1];
      var (of, lines) := batches[|batches| - 1];
      TextsOf(copied, ofCopied, rest, tag);
      TextsOfOne(of, lines, tag);
      AddedMore(batches, tag);
      if (Some(of) == copied) == ofCopied {
        assert Of(copied, ofCopied, batches) == Of(copied, ofCopied, rest) + Tagged(of, lines);
        TextsJoin(Of(copied, ofCopied, rest), Tagged(of, lines), tag);
      } else {
        assert Of(copied, ofCopied, batches) == Of(copied, ofCopied, rest);
      }
    }
  }

  lemma {:induction false} TagsOf(copied: Option<Text>, ofCopied: bool, batches: seq<(Text, seq<Text>)>)
    ensures forall x <- Of(copied, ofCopied, batches) :: (Some(x.0) == copied) == ofCopied
  {
    if batches != [] {
      var (of, lines) := batches[|batches| - 1];
      TagsOf(copied, ofCopied, batches[..|batches| - 1]);
      assert forall x <- Tagged(of, lines) :: x.0 == of;
    }
  }

  lemma AddedMore(batches: seq<(Text, seq<Text>)>, tag: Text)
    requires batches != []
    ensures Added(batches, tag) == Added(batches[..|batches| - 1], tag) +
      if batches[|batches| - 1].0 == tag then batches[|batches| - 1].1 else []
  {
  }

  /** The copied file's lines come before all others. */
  lemma CopiedComeFirst(copied: Option<Text>, batches: seq<(Text, seq<Text>)>)
    ensures
      var r := CopiedFirst(copied, batches);
      forall i, j :: 0 <= i < |r| && 0 <= j < |r| && Some(r[i].0) == copied && Some(r[j].0) != copied ==> i < j
  {
    var r, a, b := CopiedFirst(copied, batches), Of(copied, true, batches), Of(copied, false, batches);
    TagsOf(copied, true, batches);
    TagsOf(copied, false, batches);
    forall i | 0 <= i < |r|
      ensures Some(r[i].0) == copied <==> i < |a|
    {
      if i < |a| {
        assert r[i] == a[i];
      } else {
        assert r[i] == b[i - |a|];
      }
    }
  }

  /** Each file's lines are those it added, in order. */
  lemma EachFileInOrder(copied: Option<Text>, batches: seq<(Text, seq<Text>)>, tag: Text)
    ensures Texts(CopiedFirst(copied, batches), tag) == Added(batches, tag)
  {
    TextsOf(copied, true, batches, tag);
    TextsOf(copied, false, batches, tag);
    TextsJoin(Of(copied, true, batches), Of(copied, false, batches), tag);
  }

  method InOrder(copied: Option<Text>, batches: seq<(Text, seq<Text>)>) returns (r: seq<(Text, Text)>)
    ensures r == CopiedFirst(copied, batches)
  {
    var first: seq<(Text, Text)>, others: seq<(Text, Text)> := [], [];
    for i := 0 to |batches|
      invariant first == Of(copied, true, batches[..i]) && others == Of(copied, false, batches[..i])
    {
      assert batches[..i + 1][..i] == batches[..i];
      var (tag, lines) := batches[i];
      if Some(tag) == copied {
        first := first + Tagged(tag, lines);
      } else {
        others := others + Tagged(tag, lines);
      }
    }
    assert batches[..|batches|] == batches;
    r := first + others;
  }

  lemma KeptMore(copied: Option<Text>, lines: seq<(Text, Text)>, x: (Text, Text))
    ensures
      var (kept, q) := Kept(copied, [], lines);
      var (keep, left) := KeepOne(copied, q, x.0, x.1);
      Kept(copied, [], lines + [x]) == (if keep then kept + [x] else kept, left)
  {
    assert (lines + [x])[..|lines|] == lines;
  }

  lemma AsLinesMore(was: seq<Line>, kept: seq<(Text, Text)>, n: nat, x: (Text, Text))
    requires n <= |kept|
    ensures was + AsLines((kept + [x])[n..]) == (was + AsLines(kept[n..])) + [Line(x.0, x.1)]
  {
    assert (kept + [x])[n..] == kept[n..] + [x];
    assert AsLines(kept[n..] + [x]) == AsLines(kept[n..]) + [Line(x.0, x.1)];
  }

  /** What is kept of more lines is kept on from the copies still awaited. */
  lemma {:induction false} KeptJoins(copied: Option<Text>, q: seq<Text>, a: seq<(Text, Text)>, b: seq<(Text, Text)>)
    ensures
      var (kept, r) := Kept(copied, q, a);
      var (more, left) := Kept(copied, r, b);
      Kept(copied, q, a + b) == (kept + more, left)
  {
    if b == [] {
      assert a + b == a && Kept(copied, q, a).0 + [] == Kept(copied, q, a).0;
    } else {
      var rest, x := b[..|b| - 1], b[|b| - 1];
      KeptJoins(copied, q, a, rest);
      assert (a + b)[..|a + b| - 1] == a + rest && (a + b)[|a + b| - 1] == x;
      var (kept, r) := Kept(copied, q, a);
      var more := Kept(copied, r, rest).0;
      assert (kept + more) + [x] == kept + (more + [x]);
    }
  }
}
