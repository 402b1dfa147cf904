/** Direct I/O (src/drive/direct.rs:163-219, 257-345): short reads and writes continued until they
    are whole, and the thread that keeps a ring's requests. */
module Direct {
  import opened Arithmetic
  import opened Options

  type byte = x: int | 0 <= x < 256

  // ---------------------------------------------------------------- short transfers

  /** What a submitted request comes back with. A failed write may have written a beginning. */
  datatype Reply = Done(count: nat) | Failed(wrote: nat)

  function Patch(image: seq<byte>, at: nat, data: seq<byte>): (r: seq<byte>)
    requires at + |data| <= |image|
    ensures |r| == |image|
    ensures forall i :: 0 <= i < |r| ==> r[i] == if at <= i < at + |data| then data[i - at] else image[i]
  {
    image[..at] + data + image[at + |data|..]
  }

  /** What the first requests moved between them, had the device taken all they say. */
  ghost function Total(replies: nat -> Reply, k: nat): nat {
    if k == 0 then 0 else
    Total(replies, k - 1) + match replies(k - 1) case Done(n) => n case Failed(n) => n
  }

  /** How much of what it was given a request moves. */
  function Moved(r: Reply, len: nat): (n: nat)
    ensures n <= len
  {
    Lesser(if r.Done? then r.count else r.wrote, len)
  }

  class Device {
    var image: seq<byte>

    constructor (image: seq<byte>)
      ensures this.image == image
    {
      this.image := image;
    }

    /** The device takes no more than it was given. */
    method SubmitWrite(offset: nat, data: seq<byte>, reply: Reply) returns (n: Option<nat>)
      requires offset + |data| <= |image|
      modifies this
      ensures n == if reply.Done? then Some(Moved(reply, |data|)) else None
      ensures image == Patch(old(image), offset, data[..Moved(reply, |data|)])
    {
      var k := Moved(reply, |data|);
      image := Patch(image, offset, data[..k]);
      n := if reply.Done? then Some(k) else None;
    }

    /** The rest of the caller's buffer, from where it stopped. */
    method WriteOn(ghost was: seq<byte>, offset: nat, buf: seq<byte>, n: nat, reply: Reply) returns (m: Option<nat>)
      requires offset + |buf| <= |was| && n <= |buf| && image == Patch(was, offset, buf[..n])
      modifies this
      ensures m == if reply.Done? then Some(Moved(reply, |buf| - n)) else None
      ensures image == Patch(was, offset, buf[..n + Moved(reply, |buf| - n)])
    {
      var rest := buf[n..];
      m := SubmitWrite(offset + n, rest, reply);
      PatchOn(was, offset, buf, n, Moved(reply, |rest|));
    }

    /** Every request before the last succeeded, each but the first got somewhere, and none got to
        the end. */
    static ghost predicate ShortOf(replies: nat -> Reply, len: nat, asked: nat) {
      && (forall j :: 0 <= j < asked - 1 ==> replies(j).Done? && (j > 0 ==> replies(j).count > 0))
      && (forall j :: 1 <= j < asked ==> Total(replies, j) < len)
    }

    /** The last request failed, or was a retry that wrote nothing. */
    static ghost predicate Stuck(replies: nat -> Reply, asked: nat)
      requires asked >= 1
    {
      replies(asked - 1).Failed? || (asked > 1 && replies(asked - 1).count == 0)
    }

    /** Write all of a buffer, going on from where a short write stopped, always with the caller's
        bytes. It succeeds exactly when no request fails and every retry gets somewhere until all
        is written; then the range is the buffer, and otherwise a beginning of it is. Nothing else
        changes. (`asked` and `written` count requests and bytes for the contract.) */
    method WriteAll(offset: nat, buf: seq<byte>, replies: nat -> Reply) returns (ok: bool, asked: nat, written: nat)
      requires offset + |buf| <= |image|
      modifies this
      ensures asked >= 1 && ShortOf(replies, |buf|, asked)
      ensures ok <==> !Stuck(replies, asked)
      ensures written == Lesser(Total(replies, asked), |buf|) && (ok ==> written == |buf|)
      ensures image == Patch(old(image), offset, buf[..written])
    {
      ghost var was := image;
      var first := SubmitWrite(offset, buf, replies(0));
      if first.None? {
        return false, 1, Moved(replies(0), |buf|);
      }
      ok, asked, written := WriteRest(was, offset, buf, replies, first.value);
    }

    /** After the first request the loop goes on. */
    method WriteRest(ghost was: seq<byte>, offset: nat, buf: seq<byte>, replies: nat -> Reply, first: nat)
      returns (ok: bool, asked: nat, written: nat)
      requires offset + |buf| <= |was| && first <= |buf| && image == Patch(was, offset, buf[..first])
      requires replies(0).Done? && first == Moved(replies(0), |buf|)
      modifies this
      ensures asked >= 1 && ShortOf(replies, |buf|, asked)
      ensures ok <==> !Stuck(replies, asked)
      ensures written == Lesser(Total(replies, asked), |buf|) && (ok ==> written == |buf|)
      ensures image == Patch(was, offset, buf[..written])
    {
      var n := first;
      asked, written := 1, n;
      while n < |buf|
        invariant asked >= 1 && ShortOf(replies, |buf|, asked) && !Stuck(replies, asked)
        invariant n == Lesser(Total(replies, asked), |buf|)
        invariant written == n && image == Patch(was, offset, buf[..n])
        decreases |buf| - n
      {
        var reply := replies(asked);
        var m := WriteOn(was, offset, buf, n, reply);
        written := n + Moved(reply, |buf| - n);
        asked := asked + 1;
        if m.None? || m.value == 0 {
          return false, asked, written;
        }
        n := n + m.value;
      }
      return true, asked, n;
    }

    /** What a request brings of the range, when it does not fail: no more than was asked for, nor
        than there is. */
    method SubmitRead(offset: nat, len: nat, reply: Reply) returns (chunk: Option<seq<byte>>)
      ensures chunk.None? <==> reply.Failed?
      ensures chunk.Some? ==>
        && |chunk.value| == Lesser(Moved(reply, len), if offset < |image| then |image| - offset else 0)
        && forall i :: 0 <= i < |chunk.value| ==> chunk.value[i] == image[offset + i]
    {
      if reply.Failed? {
        return None;
      }
      var left := if offset < |image| then |image| - offset else 0;
      var at := Lesser(offset, |image|);
      chunk := Some(image[at..at + Lesser(Moved(reply, len), left)]);
    }

    /** Read a range, going on from where a short read stopped. A request that fails fails the read.
        Otherwise what came is the device's, and the rest zeros; and the rest is what is past the
        device's end, unless a request before the end brought nothing, which ends the read early.
        (`asked` and `got` count requests and bytes for the contract.) */
    method Read(offset: nat, len: nat, replies: nat -> Reply) returns (out: Option<seq<byte>>, asked: nat, got: nat)
      ensures out.None? <==> asked > 0 && replies(asked - 1).Failed?
      ensures forall j :: 0 <= j < asked - 1 ==> replies(j).Done? && replies(j).count > 0
      ensures out.Some? ==> |out.value| == len && got <= len && (got > 0 ==> offset + got <= |image|)
      ensures out.Some? ==> forall i :: 0 <= i < len ==> out.value[i] == if i < got then image[offset + i] else 0
      ensures out.Some? && got < len && offset + got < |image| ==> asked > 0 && replies(asked - 1) == Done(0)
    {
      var buf: seq<byte> := seq(len, _ => 0);
      asked, got := 0, 0;
      while got < len
        invariant got <= len && |buf| == len && (got > 0 ==> offset + got <= |image|)
        invariant forall i :: 0 <= i < len ==> buf[i] == if i < got then image[offset + i] else 0
        invariant forall j :: 0 <= j < asked ==> replies(j).Done? && replies(j).count > 0
        decreases len - got
      {
        var reply := replies(asked);
        var chunk := SubmitRead(offset + got, len - got, reply);
        asked := asked + 1;
        if chunk.None? {
          return None, asked, got;
        }
        var n := |chunk.value|;
        buf := buf[..got] + chunk.value + buf[got + n..];
        if n == 0 {
          break;
        }
        got := got + n;
      }
      out := Some(buf);
    }
  }

  lemma PatchOn(was: seq<byte>, offset: nat, buf: seq<byte>, n: nat, m: nat)
    requires offset + |buf| <= |was| && n + m <= |buf|
    ensures Patch(Patch(was, offset, buf[..n]), offset + n, buf[n..][..m]) == Patch(was, offset, buf[..n + m])
  {
  }

  // ---------------------------------------------------------------- the ring's thread

  /** Tags repeat after this many; the wake-up's is beyond them. */
  const TAGS: nat := 0xFFFF_FFFF_FFFF_FFFE
  const WAKE: nat := 0xFFFF_FFFF_FFFF_FFFF
  const EIO: int := 5

  /** What waiting for the ring comes to. */
  datatype Submitted = Completions(done: seq<(nat, int)>) | Interrupted | Broken

  /** Where a request is. One that is answered was so once, and stays so. */
  datatype Place = Waiting | Flying(tag: nat) | Answered(res: int)

  function TagOf(n: nat): (t: nat)
    ensures t < TAGS
  {
    n % TAGS
  }

  lemma NextTag(issued: nat)
    ensures (TagOf(issued) + 1) % TAGS == TagOf(issued + 1)
  {
  }

  lemma SameTag(a: nat, b: nat)
    requires TagOf(a) == TagOf(b) && a <= b && b - a < TAGS
    ensures a == b
  {
  }

  function Numbers(from: nat, count: nat): (r: seq<nat>)
    ensures |r| == count && forall i :: 0 <= i < count ==> r[i] == from + i
  {
    seq(count, i requires 0 <= i < count => from + i)
  }

  lemma NumbersTail(from: nat, count: nat)
    requires count > 0
    ensures Numbers(from, count)[0] == from && Numbers(from, count)[1..] == Numbers(from + 1, count - 1)
  {
  }

  /** Every request received is in exactly one place: in flight under one tag, answered, or
      waiting, and those waiting are the last received. */
  ghost predicate Placed(waiting: nat, inflight: map<nat, nat>, places: map<nat, Place>, received: nat) {
    && waiting <= received
    && (forall op: nat :: op in places <==> op < received)
    && (forall op <- places :: places[op].Waiting? <==> op >= received - waiting)
    && (forall t <- inflight :: inflight[t] in places && places[inflight[t]] == Flying(t))
    && (forall op <- places :: places[op].Flying? ==> places[op].tag in inflight && inflight[places[op].tag] == op)
  }

  /** Once answered, always, with the same answer. */
  ghost predicate AnswersStay(was: map<nat, Place>, now: map<nat, Place>) {
    forall op <- was :: op in now && (was[op].Answered? ==> now[op] == was[op])
  }

  ghost predicate AllAnswered(places: map<nat, Place>) {
    forall op <- places :: places[op].Answered?
  }

  /** Nothing moved but what was answered with an error, and that was not answered before. */
  ghost predicate FailedOrSame(was: map<nat, Place>, now: map<nat, Place>) {
    now.Keys == was.Keys && forall op <- was :: now[op] == was[op] || (now[op] == Answered(-5) && !was[op].Answered?)
  }

  lemma FailOne(n: nat, f: map<nat, nat>, w: map<nat, Place>, received: nat, t: nat, was: map<nat, Place>)
    requires Placed(n, f, w, received) && t in f && FailedOrSame(was, w)
    ensures Placed(n, f - {t}, w[f[t] := Answered(-EIO)], received) && FailedOrSame(was, w[f[t] := Answered(-EIO)])
  {
    assert w[f[t]] == Flying(t);
  }

  lemma TakeKeeps(n: nat, f: map<nat, nat>, w: map<nat, Place>, received: nat, t: nat)
    requires Placed(n, f, w, received) && n > 0 && t !in f
    ensures
      var op: nat := received - n;
      op in w && Placed(n - 1, f[t := op], w[op := Flying(t)], received) && AnswersStay(w, w[op := Flying(t)])
  {
  }

  /** The first of those waiting goes in flight. */
  lemma LaunchKeeps(pending: seq<nat>, f: map<nat, nat>, w: map<nat, Place>, received: nat, t: nat)
    requires pending != [] && |pending| <= received && pending == Numbers(received - |pending|, |pending|)
    requires Placed(|pending|, f, w, received) && t !in f
    ensures
      var op, rest := pending[0], pending[1..];
      && rest == Numbers(received - |rest|, |rest|)
      && Placed(|rest|, f[t := op], w[op := Flying(t)], received) && AnswersStay(w, w[op := Flying(t)])
  {
    TakeKeeps(|pending|, f, w, received, t);
    NumbersTail(received - |pending|, |pending|);
  }

  /** What a batch of completions answers: each tag's request once, and those of no request
      (the wake-up's, one already answered) nothing. */
  function Reaped(inflight: map<nat, nat>, places: map<nat, Place>, done: seq<(nat, int)>)
    : (map<nat, nat>, map<nat, Place>)
  {
    if done == [] then (inflight, places) else
    var (f, w) := Reaped(inflight, places, done[..|done| - 1]);
    var (tag, res) := done[|done| - 1];
    if tag != WAKE && tag in f then (f - {tag}, w[f[tag] := Answered(res)]) else (f, w)
  }

  lemma {:induction false} ReapedKeeps(n: nat, inflight: map<nat, nat>, places: map<nat, Place>, received: nat,
        done: seq<(nat, int)>)
    requires Placed(n, inflight, places, received)
    ensures
      var (f, w) := Reaped(inflight, places, done);
      Placed(n, f, w, received) && AnswersStay(places, w) && forall t <- f :: t in inflight && f[t] == inflight[t]
  {
    if done != [] {
      ReapedKeeps(n, inflight, places, received, done[..|done| - 1]);
    }
  }

  /** A request in flight is answered by the first completion of its tag. */
  lemma {:induction false} EachGetsItsOwnResult(n: nat, inflight: map<nat, nat>, places: map<nat, Place>,
        received: nat, done: seq<(nat, int)>, i: nat)
    requires Placed(n, inflight, places, received) && i < |done| && done[i].0 != WAKE && done[i].0 in inflight
    requires forall j :: 0 <= j < i ==> done[j].0 != done[i].0
    ensures
      var w := Reaped(inflight, places, done).1;
      inflight[done[i].0] in w && w[inflight[done[i].0]] == Answered(done[i].1)
    decreases |done|
  {
    var rest := done[..|done| - 1];
    var op := inflight[done[i].0];
    ReapedKeeps(n, inflight, places, received, rest);
    if i < |rest| {
      EachGetsItsOwnResult(n, inflight, places, received, rest, i);
      var (f, w) := Reaped(inflight, places, rest);
    } else {
      NotYetReaped(inflight, places, rest, done[i].0);
    }
  }

  lemma {:induction false} NotYetReaped(inflight: map<nat, nat>, places: map<nat, Place>, done: seq<(nat, int)>,
        tag: nat)
    requires tag in inflight && forall j :: 0 <= j < |done| ==> done[j].0 != tag
    ensures tag in Reaped(inflight, places, done).0 && Reaped(inflight, places, done).0[tag] == inflight[tag]
  {
    if done != [] {
      NotYetReaped(inflight, places, done[..|done| - 1], tag);
    }
  }

  /** Requests are numbered as they are received. */
  class RingThread {
    var pending: seq<nat>
    var inflight: map<nat, nat>
    var next: nat
    var hungUp: bool
    var exited: bool
    ghost var received: nat
    ghost var places: map<nat, Place>
    /** Tags taken so far, and which of them each request in flight has. */
    ghost var issued: nat
    ghost var born: map<nat, nat>

    ghost predicate InPlace()
      reads this`pending, this`inflight, this`places, this`received
    {
      |pending| <= received && pending == Numbers(received - |pending|, |pending|) &&
        Placed(|pending|, inflight, places, received)
    }

    ghost predicate Tagged()
      reads this`inflight, this`issued, this`born, this`next
    {
      next == TagOf(issued) && forall t <- inflight :: t in born && born[t] < issued && t == TagOf(born[t])
    }

    ghost predicate Valid()
      reads this
    {
      InPlace() && Tagged() && (exited ==> Finished())
    }

    /** Nothing outstanding: every request received was answered. */
    ghost predicate Finished()
      reads this
    {
      hungUp && pending == [] && inflight == map[] && AllAnswered(places)
    }

    constructor ()
      ensures Valid() && received == 0 && !hungUp && !exited
    {
      pending, inflight, next, hungUp, exited := [], map[], 0, false, false;
      received, places, issued, born := 0, map[], 0, map[];
    }

    /** No request is in flight for as many tags as there are. */
    ghost predicate TagsSuffice(more: nat)
      reads this`inflight, this`issued, this`born
    {
      more < TAGS && forall t <- inflight :: t in born ==> issued + more - born[t] < TAGS
    }

    /** One turn of the thread: take what came in, hand it to the ring, wait, and answer what is
        done. It ends only when it is hung up and has nothing outstanding. */
    method Turn(ops: seq<nat>, hangs: bool, room: nat, submitted: Submitted)
      requires Valid() && !exited && ops == Numbers(received, |ops|) && (hungUp ==> ops == [] && hangs)
      requires TagsSuffice(|pending| + |ops|)
      modifies this
      ensures Valid() && AnswersStay(old(places), places) && received == old(received) + |ops|
      ensures exited ==> hangs && AllAnswered(places) && forall op: nat :: op < received ==> op in places
      ensures submitted.Broken? && !exited ==> pending == [] && inflight == map[] && !hungUp
      ensures exited <==> hangs && (submitted.Broken? || (old(pending) == [] && ops == [] && old(inflight) == map[]))
    {
      TakeIn(ops, hangs, room);
      if hungUp && inflight == map[] && pending == [] {
        exited := true;
        return;
      }
      Answer(submitted);
    }

    /** What came in, and as much of it as the ring has room for handed on. */
    method TakeIn(ops: seq<nat>, hangs: bool, room: nat)
      requires Valid() && !exited && ops == Numbers(received, |ops|) && TagsSuffice(|pending| + |ops|)
      modifies this`pending, this`hungUp, this`received, this`places, this`inflight, this`next, this`issued, this`born
      ensures Valid() && AnswersStay(old(places), places) && hungUp == hangs && received == old(received) + |ops|
      ensures inflight == map[] && pending == [] <==> old(pending) == [] && ops == [] && old(inflight) == map[]
    {
      Receive(ops, hangs);
      SubmitPending(room);
    }

    method Answer(submitted: Submitted)
      requires Valid() && !exited
      modifies this`pending, this`inflight, this`places, this`exited
      ensures Valid() && AnswersStay(old(places), places) && exited == (submitted.Broken? && hungUp)
      ensures submitted.Broken? ==> pending == [] && inflight == map[]
    {
      match submitted
      case Interrupted =>
      case Broken =>
        FailAll();
        if hungUp {
          exited := true;
        }
      case Completions(done) =>
        Reap(done);
    }

    /** What came in since the last turn; the channel is empty when it says it is hung up. */
    method Receive(ops: seq<nat>, hangs: bool)
      requires Valid() && !exited && ops == Numbers(received, |ops|)
      modifies this`pending, this`hungUp, this`received, this`places
      ensures Valid() && AnswersStay(old(places), places) && hungUp == hangs && received == old(received) + |ops|
      ensures pending == old(pending) + ops
    {
      pending := pending + ops;
      places := map op: nat | op < received + |ops| :: if op < received then places[op] else Waiting;
      received := received + |ops|;
      hungUp := hangs;
    }

    /** Waiting requests go to the ring in the order they came, each with the next tag, until it
        is full; the tag of one it did not take is spent all the same, and the request stays the
        first. */
    method SubmitPending(room: nat)
      requires Valid() && !exited && TagsSuffice(|pending|)
      modifies this`pending, this`inflight, this`next, this`issued, this`born, this`places
      ensures Valid() && AnswersStay(old(places), places)
      ensures |pending| == |old(pending)| - Lesser(room, |old(pending)|) &&
        (room > 0 && old(pending) != [] ==> inflight != map[])
      ensures old(pending) == [] ==> inflight == old(inflight)
      ensures issued == old(issued) + |old(pending)| - |pending| + if pending != [] then 1 else 0
    {
      var k := 0;
      while pending != []
        invariant Valid() && !exited && TagsSuffice(|pending|) && AnswersStay(old(places), places)
        invariant k == |old(pending)| - |pending| <= room && issued == old(issued) + k
        invariant k > 0 ==> inflight != map[]
        invariant k == 0 ==> inflight == old(inflight)
        decreases |pending|
      {
        if k == room {
          SpendTag();
          return;
        }
        TakeUp();
        k := k + 1;
      }
    }

    /** The tag of a request the ring did not take. */
    method SpendTag()
      requires Valid()
      modifies this`next, this`issued
      ensures Valid() && issued == old(issued) + 1
    {
      NextTag(issued);
      next := (next + 1) % TAGS;
      issued := issued + 1;
    }

    /** The first waiting request goes in flight under a tag no other has. */
    method TakeUp()
      requires Valid() && !exited && pending != [] && TagsSuffice(|pending|)
      modifies this`pending, this`inflight, this`next, this`issued, this`born, this`places
      ensures Valid() && TagsSuffice(|pending|) && AnswersStay(old(places), places)
      ensures |pending| == |old(pending)| - 1 && issued == old(issued) + 1
      ensures TagOf(old(issued)) !in old(inflight) && inflight == old(inflight)[TagOf(old(issued)) := old(pending)[0]]
      ensures inflight != map[]
    {
      var tag := next;
      if tag in inflight {
        SameTag(born[tag], issued);
      }
      SpendTag();
      Launch(tag);
    }

    method Launch(tag: nat)
      requires InPlace() && Tagged() && pending != [] && tag !in inflight && issued > 0 && tag == TagOf(issued - 1)
      modifies this`pending, this`inflight, this`born, this`places
      ensures InPlace() && Tagged() && AnswersStay(old(places), places)
      ensures |pending| == |old(pending)| - 1 && born == old(born)[tag := issued - 1]
      ensures inflight == old(inflight)[tag := old(pending)[0]] && tag in inflight
    {
      var op := pending[0];
      LaunchKeeps(pending, inflight, places, received, tag);
      pending := pending[1..];
      inflight := inflight[tag := op];
      places, born := places[op := Flying(tag)], born[tag := issued - 1];
    }

    /** The ring broke: every request is answered with an error. */
    method FailAll()
      requires Valid() && !exited
      modifies this`pending, this`inflight, this`places
      ensures Valid() && AnswersStay(old(places), places) && pending == [] && inflight == map[]
      ensures AllAnswered(places) && FailedOrSame(old(places), places)
    {
      FailFlying();
      FailWaiting();
    }

    method FailFlying()
      requires InPlace() && Tagged()
      modifies this`inflight, this`places
      ensures InPlace() && Tagged() && inflight == map[] && FailedOrSame(old(places), places)
    {
      var left := inflight;
      inflight := map[];
      while left != map[]
        modifies this`places
        invariant Placed(|pending|, left, places, received) && FailedOrSame(old(places), places)
        decreases |left|
      {
        var t :| t in left;
        FailOne(|pending|, left, places, received, t, old(places));
        places := places[left[t] := Answered(-EIO)];
        left := left - {t};
      }
    }

    method FailWaiting()
      requires InPlace() && inflight == map[]
      modifies this`pending, this`places
      ensures InPlace() && pending == [] && AllAnswered(places) && FailedOrSame(old(places), places)
    {
      ghost var from := received - |pending|;
      for i := 0 to |pending|
        invariant places.Keys == old(places).Keys
        invariant forall op <- places :: places[op] == if from <= op < from + i then Answered(-EIO) else old(places)[op]
      {
        places := places[pending[i] := Answered(-EIO)];
      }
      pending := [];
    }

    /** Answer what is done. */
    method Reap(done: seq<(nat, int)>)
      requires Valid() && !exited
      modifies this`inflight, this`places
      ensures Valid() && AnswersStay(old(places), places)
      ensures (inflight, places) == Reaped(old(inflight), old(places), done)
    {
      for i := 0 to |done|
        invariant (inflight, places) == Reaped(old(inflight), old(places), done[..i])
      {
        assert done[..i + 1][..i] == done[..i];
        var (tag, res) := done[i];
        if tag != WAKE && tag in inflight {
          places := places[inflight[tag] := Answered(res)];
          inflight := inflight - {tag};
        }
      }
      assert done[..|done|] == done;
      ReapedKeeps(|pending|, old(inflight), old(places), received, done);
    }
  }
}
