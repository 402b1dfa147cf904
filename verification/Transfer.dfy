/** Resumed transfers over the retry loop, and redirects (src/http.rs:436-515, 558-638). */
module Transfer {
  import opened Arithmetic
  import opened Options
  import opened Retry

  type byte = x: int | 0 <= x < 256

  /** What a request is answered with: nothing or an answer worth another try, a refusal, or a
      body, from the byte asked for (206) or from the start (200), of which so many bytes come;
      it ends cleanly only when all of them have. `kept`: whoever the bytes are for took them. */
  datatype Answer =
    | NoAnswer
    | Refused
    | Body(resumed: bool, sent: nat, clean: bool, kept: bool)

  /** One attempt: its answer, how long it took, and the draw for the wait after it. */
  datatype Turn = Turn(answer: Answer, took: nat, draw: nat)

  function From(resource: seq<byte>, a: Answer, have: nat): nat
    requires a.Body?
  {
    if a.resumed && have <= |resource| then have else 0
  }

  /** The bytes of one body. */
  function Frames(resource: seq<byte>, a: Answer, have: nat): (r: seq<byte>)
    requires a.Body?
  {
    var from := From(resource, a, have);
    resource[from..][..Lesser(a.sent, |resource| - from)]
  }

  /** Whether the body came to its end: a clean end is the resource's. */
  predicate Ended(resource: seq<byte>, a: Answer, have: nat)
    requires a.Body?
  {
    a.clean && From(resource, a, have) + |Frames(resource, a, have)| == |resource|
  }

  /** How an attempt ended, seen from the retry loop. */
  function Failure(resource: seq<byte>, a: Answer, have: nat): (f: Option<Class>) {
    match a
    case NoAnswer => Some(Transient)
    case Refused => Some(Permanent)
    case Body(_, _, _, kept) => if !kept then Some(Permanent) else if Ended(resource, a, have)
      then None else Some(Transient)
  }

  // ---------------------------------------------------------------- into a channel

  /** A server that starts over cannot be continued into a channel. */
  predicate Stopped(a: Answer, have: nat) {
    a.Body? && have > 0 && !a.resumed
  }

  function ChannelTry(resource: seq<byte>, t: Turn, have: nat): Try
    requires have <= |resource|
  {
    if Stopped(t.answer, have) then Try(Some(Permanent), have, have, t.took, t.draw) else
    var got := if t.answer.Body? then |Frames(resource, t.answer, have)| else 0;
    Try(Failure(resource, t.answer, have), have, have + got, t.took, t.draw)
  }

  /** The bytes a body brings, from where it starts. */
  ghost function Brought(resource: seq<byte>, a: Answer, from: nat): nat
    requires a.Body? && from <= |resource|
  {
    Lesser(a.sent, |resource| - from)
  }

  /** What the retry loop is told of an attempt to go on from what was delivered: how far it got, and
      how it failed. A refusal, a body nobody takes and a server that starts over are given up on; no
      answer, and a body cut short or ended short, are tried again. */
  ghost predicate Tells(resource: seq<byte>, t: Turn, try: Try) {
    && try.before <= |resource| && try.took == t.took && try.draw == t.draw
    && match t.answer
       case NoAnswer => try.after == try.before && try.failed == Some(Transient)
       case Refused => try.after == try.before && try.failed == Some(Permanent)
       case Body(resumed, _, clean, kept) =>
         if !resumed && try.before > 0 then try.after == try.before && try.failed == Some(Permanent)
         else
           && try.after == try.before + Brought(resource, t.answer, try.before)
           && try.failed == (if !kept then Some(Permanent)
                             else if clean && try.after == |resource| then None else Some(Transient))
  }

  lemma ChannelTryTells(resource: seq<byte>, t: Turn, have: nat)
    requires have <= |resource|
    ensures Tells(resource, t, ChannelTry(resource, t, have)) && ChannelTry(resource, t, have).before == have
  {
  }

  ghost predicate AllTell(resource: seq<byte>, turns: seq<Turn>, tries: seq<Try>)
    requires |tries| <= |turns|
  {
    forall k :: 0 <= k < |tries| ==> Tells(resource, turns[k], tries[k])
  }

  lemma OneMoreTells(resource: seq<byte>, turns: seq<Turn>, tries: seq<Try>, have: nat)
    requires |tries| < |turns| && AllTell(resource, turns, tries) && have <= |resource|
    ensures AllTell(resource, turns, tries + [ChannelTry(resource, turns[|tries|], have)])
  {
    ChannelTryTells(resource, turns[|tries|], have);
  }

  /** How a transfer ends with its last attempt. */
  ghost function Ending(last: Try): Outcome {
    match last.failed
    case None => Succeeded
    case Some(kind) => Failed(kind)
  }

  /** Get a resource into a channel, for as long as the server's answers are told. What was
      delivered is always a beginning of the resource, whatever drops and restarts there were, and
      on success all of it. */
  method GetToChannel(resource: seq<byte>, p: Policy, turns: seq<Turn>)
    returns (r: Option<Outcome>, delivered: seq<byte>, ghost tries: seq<Try>)
    ensures delivered <= resource
    ensures r == Some(Succeeded) ==> delivered == resource
    ensures |tries| <= |turns| && (r.None? ==> |tries| == |turns|)
    ensures Onward(tries, |delivered|) && AllTell(resource, turns, tries)
    ensures r.Some? && tries != [] ==> r.value == Ending(tries[|tries| - 1])
    ensures r.None? ==> StateAt(p, true, tries, |tries|).Some?
    ensures r.Some? ==>
      tries != [] && StateAt(p, true, tries, |tries| - 1).Some? && StateAt(p, true, tries, |tries|).None?
  {
    delivered, tries := [], [];
    var now, c := 0, Count(0, 0, 0);
    var k := 0;
    while k < |turns|
      invariant k <= |turns| && |tries| == k && delivered <= resource && c.start <= now
      invariant StateAt(p, true, tries, k) == Some(Running(c, now))
      invariant Onward(tries, |delivered|) && AllTell(resource, turns, tries)
      decreases |turns| - k
    {
      var t := turns[k];
      var have := |delivered|;
      var try := ChannelTry(resource, t, have);
      OneMoreTells(resource, turns, tries, have);
      TriesMore(p, tries, try, Running(c, now));
      if t.answer.Body? && !Stopped(t.answer, have) {
        delivered := delivered + Frames(resource, t.answer, have);
      }
      ghost var was := Running(c, now);
      tries := tries + [try];
      k := k + 1;
      c := Begun(c);
      now := now + t.took;
      if try.failed.None? {
        return Some(Succeeded), delivered, tries;
      }
      var next := AfterFailure(p, true, try, c, now, was);
      if next.None? {
        return Some(Failed(try.failed.value)), delivered, tries;
      }
      c, now := next.value.count, next.value.now;
    }
    r := None;
  }

  /** Attempts that each go on from where the last one stopped. */
  ghost predicate Onward(tries: seq<Try>, reached: nat) {
    if tries == [] then reached == 0 else
    var t := tries[|tries| - 1];
    t.before <= t.after == reached && Onward(tries[..|tries| - 1], t.before)
  }

  lemma {:induction false} RestartsGetSomewhere(tries: seq<Try>, reached: nat)
    requires Onward(tries, reached)
    ensures Restarts(true, tries) <= reached
  {
    if tries != [] {
      RestartsGetSomewhere(tries[..|tries| - 1], tries[|tries| - 1].before);
    }
  }

  /** So a transfer into a channel always ends: it makes no more attempts than the tries, and as
      many less one again for each byte of the resource. */
  lemma AChannelTransferEnds(resource: seq<byte>, p: Policy, tries: seq<Try>, reached: nat)
    requires tries != [] && Onward(tries, reached) && reached <= |resource| &&
      StateAt(p, true, tries, |tries| - 1).Some?
    ensures |tries| <= Tries(p) + |resource| * (Tries(p) - 1)
  {
    CallsAreBounded(p, true, tries, |tries| - 1);
    assert tries[..|tries|] == tries;
    RestartsGetSomewhere(tries, reached);
    MulMonotone(Restarts(true, tries), |resource|, Tries(p) - 1);
  }

  lemma TriesMore(p: Policy, tries: seq<Try>, t: Try, s: Running)
    requires StateAt(p, true, tries, |tries|) == Some(s) && s.count.start <= s.now
    ensures StateAt(p, true, tries + [t], |tries|) == Some(s) &&
      StateAt(p, true, tries + [t], |tries| + 1) == Next(p, true, s, t)
  {
    SameBefore(p, tries, t, |tries|);
  }

  lemma {:induction false} SameBefore(p: Policy, tries: seq<Try>, t: Try, k: nat)
    requires k <= |tries|
    ensures StateAt(p, true, tries + [t], k) == StateAt(p, true, tries, k)
  {
    if k > 0 {
      SameBefore(p, tries, t, k - 1);
    }
  }

  // ---------------------------------------------------------------- into a file

  /** The file, and the progress the retry loop watches. */
  datatype Target = Target(file: Option<seq<byte>>, held: nat)

  function Content(f: Target): seq<byte> {
    if f.file.Some? then f.file.value else []
  }

  /** An attempt appends to what is there when the server goes on from it, and else starts over. */
  function FileAfter(resource: seq<byte>, t: Turn, f: Target): Target {
    if !t.answer.Body? then f else
    var have := |Content(f)|;
    var got := Frames(resource, t.answer, have);
    var file := (if t.answer.resumed && have > 0 then Content(f) else []) + got;
    Target(Some(file), if got == [] then f.held else |file|)
  }

  function FileTry(resource: seq<byte>, t: Turn, f: Target): Try {
    Try(Failure(resource, t.answer, |Content(f)|), f.held, FileAfter(resource, t, f).held, t.took, t.draw)
  }

  /** What an attempt does to the file, and what the retry loop is told of it. */
  lemma WhatAFileTurnDoes(resource: seq<byte>, t: Turn, f: Target)
    requires Content(f) <= resource
    ensures
      var g, try, have := FileAfter(resource, t, f), FileTry(resource, t, f), |Content(f)|;
      && try.before == f.held && try.after == g.held && try.took == t.took && try.draw == t.draw
      && match t.answer
         case NoAnswer => g == f && try.failed == Some(Transient)
         case Refused => g == f && try.failed == Some(Permanent)
         case Body(resumed, _, clean, kept) =>
           var from := if resumed then have else 0;
           var end := from + Brought(resource, t.answer, from);
           && g.file == Some(resource[..end]) && g.held == (if end == from then f.held else end)
           && try.failed == (if !kept then Some(Permanent)
                             else if clean && end == |resource| then None else Some(Transient))
  {
    if t.answer.Body? {
      FileIs(resource, t, f);
    }
  }

  ghost function FileAt(resource: seq<byte>, start: Target, turns: seq<Turn>): Target {
    if turns == [] then start else
    FileAfter(resource, turns[|turns| - 1], FileAt(resource, start, turns[..|turns| - 1]))
  }

  ghost function FileTries(resource: seq<byte>, start: Target, turns: seq<Turn>): (r: seq<Try>)
    ensures |r| == |turns|
  {
    if turns == [] then [] else
    var n := |turns| - 1;
    FileTries(resource, start, turns[..n]) + [FileTry(resource, turns[n], FileAt(resource, start, turns[..n]))]
  }

  /** What a file holds stays a beginning of the resource. */
  lemma FileStaysABeginning(resource: seq<byte>, t: Turn, f: Target)
    requires Content(f) <= resource
    ensures Content(FileAfter(resource, t, f)) <= resource
    ensures FileTry(resource, t, f).failed.None? ==> FileAfter(resource, t, f).file == Some(resource)
  {
    if t.answer.Body? {
      FileIs(resource, t, f);
      assert resource[..|resource|] == resource;
    }
  }

  lemma FileIs(resource: seq<byte>, t: Turn, f: Target)
    requires Content(f) <= resource && t.answer.Body?
    ensures
      var from, got := From(resource, t.answer, |Content(f)|), Frames(resource, t.answer, |Content(f)|);
      from + |got| <= |resource| && FileAfter(resource, t, f).file == Some(resource[..from + |got|])
  {
    var have := |Content(f)|;
    var from, got := From(resource, t.answer, have), Frames(resource, t.answer, have);
    assert Content(f) == resource[..have] && resource[..from] + got == resource[..from + |got|];
    assert from == 0 ==> resource[..from] == [];
  }

  /** A download that goes on from what a file holds makes it the resource exactly when the file
      held a beginning of it: over a file left by something else it does not, and succeeds. */
  lemma ResumingIsRightIff(resource: seq<byte>, t: Turn, f: Target)
    requires t.answer.Body? && t.answer.resumed && 0 < |Content(f)| <= |resource| &&
      FileTry(resource, t, f).failed.None?
    ensures FileAfter(resource, t, f).file == Some(resource) <==> Content(f) <= resource
  {
    var have := |Content(f)|;
    var got := Frames(resource, t.answer, have);
    assert got == resource[have..];
    var whole := Content(f) + got;
    assert FileAfter(resource, t, f).file == Some(whole);
    assert Content(f) <= resource <==> Content(f) == resource[..have];
    assert whole[..have] == Content(f) && resource == resource[..have] + resource[have..];
  }

  /** Get a resource into a file, for as long as the server's answers are told. The file always
      holds a beginning of the resource; on success it holds all of it, and when it gives up the
      file is removed. */
  method GetToFile(resource: seq<byte>, p: Policy, turns: seq<Turn>, was: Option<seq<byte>>)
    returns (r: Option<Outcome>, file: Option<seq<byte>>, calls: nat)
    requires was.Some? ==> was.value <= resource
    ensures file.Some? ==> file.value <= resource
    ensures r == Some(Succeeded) ==> file == Some(resource)
    ensures r.Some? && r.value.Failed? ==> file == None
    ensures calls <= |turns| && (r.None? ==> calls == |turns| && file == FileAt(resource, Target(was, 0), turns).file)
    ensures r.Some? && calls > 0 ==>
      r.value == Ending(FileTry(resource, turns[calls - 1], FileAt(resource, Target(was, 0), turns[..calls - 1])))
    ensures
      var tries := FileTries(resource, Target(was, 0), turns[..calls]);
      && (r.None? ==> StateAt(p, true, tries, calls).Some?)
      && (r.Some? ==> calls > 0 && StateAt(p, true, tries, calls - 1).Some? && StateAt(p, true, tries, calls).None?)
  {
    ghost var begin := Target(was, 0);
    var f := Target(was, 0);
    var now, c := 0, Count(0, 0, 0);
    calls := 0;
    while calls < |turns|
      invariant calls <= |turns| && c.start <= now
      invariant Content(f) <= resource && f == FileAt(resource, begin, turns[..calls])
      invariant StateAt(p, true, FileTries(resource, begin, turns[..calls]), calls) == Some(Running(c, now))
      decreases |turns| - calls
    {
      var t := turns[calls];
      var try := FileTry(resource, t, f);
      FileStaysABeginning(resource, t, f);
      FileMore(resource, p, begin, turns, calls, Running(c, now));
      f := FileAfter(resource, t, f);
      ghost var from := Running(c, now);
      calls := calls + 1;
      c := Begun(c);
      now := now + t.took;
      if try.failed.None? {
        return Some(Succeeded), f.file, calls;
      }
      var next := AfterFailure(p, true, try, c, now, from);
      if next.None? {
        return Some(Failed(try.failed.value)), None, calls;
      }
      c, now := next.value.count, next.value.now;
    }
    assert turns[..|turns|] == turns;
    return None, f.file, calls;
  }

  lemma FileMore(resource: seq<byte>, p: Policy, begin: Target, turns: seq<Turn>, k: nat, s: Running)
    requires k < |turns| && s.count.start <= s.now && StateAt(p, true, FileTries(resource, begin, turns[..k]), k) ==
      Some(s)
    ensures
      var tries, f := FileTries(resource, begin, turns[..k + 1]), FileAt(resource, begin, turns[..k]);
      && StateAt(p, true, tries, k) == Some(s)
      && StateAt(p, true, tries, k + 1) == Next(p, true, s, FileTry(resource, turns[k], f))
      && FileAt(resource, begin, turns[..k + 1]) == FileAfter(resource, turns[k], f)
  {
    assert turns[..k + 1][..k] == turns[..k];
    var t := FileTry(resource, turns[k], FileAt(resource, begin, turns[..k]));
    TriesMore(p, FileTries(resource, begin, turns[..k]), t, s);
  }

  // ---------------------------------------------------------------- when a file transfer ends

  /** The server starts over: what the file holds is thrown away. */
  predicate StartsOver(t: Turn, f: Target) {
    t.answer.Body? && !t.answer.resumed && Content(f) != []
  }

  ghost function Overs(resource: seq<byte>, start: Target, turns: seq<Turn>): nat {
    if turns == [] then 0 else
    var n := |turns| - 1;
    Overs(resource, start, turns[..n]) + if StartsOver(turns[n], FileAt(resource, start, turns[..n])) then 1 else 0
  }

  lemma {:induction false} FileAtBegins(resource: seq<byte>, start: Target, turns: seq<Turn>)
    requires Content(start) <= resource
    ensures Content(FileAt(resource, start, turns)) <= resource
  {
    if turns != [] {
      var n := |turns| - 1;
      FileAtBegins(resource, start, turns[..n]);
      FileStaysABeginning(resource, turns[n], FileAt(resource, start, turns[..n]));
    }
  }

  /** What one attempt gains: a restart of the retries costs a byte more in the file, or a start
      over, which throws away no more than the resource. */
  lemma ATurnGains(resource: seq<byte>, t: Turn, f: Target)
    requires Content(f) <= resource
    ensures
      var restarts := if FileTry(resource, t, f).failed == Some(Transient) &&
        FileTry(resource, t, f).after > FileTry(resource, t, f).before then 1 else 0;
      |Content(f)| + restarts <= |Content(FileAfter(resource, t, f))| + if StartsOver(t, f) then |resource| else 0
  {
    if t.answer.Body? {
      FileIs(resource, t, f);
    }
  }

  lemma {:induction false} RestartsArePaidFor(resource: seq<byte>, start: Target, turns: seq<Turn>)
    requires Content(start) <= resource
    ensures
      Restarts(true, FileTries(resource, start, turns)) + |Content(start)| <=
        |Content(FileAt(resource, start, turns))| + |resource| * Overs(resource, start, turns)
  {
    if turns != [] {
      var n := |turns| - 1;
      RestartsArePaidFor(resource, start, turns[..n]);
      FileAtBegins(resource, start, turns[..n]);
      ATurnGains(resource, turns[n], FileAt(resource, start, turns[..n]));
      LastRestart(resource, start, turns);
      Distributes(|resource|, Overs(resource, start, turns[..n]));
    }
  }

  lemma LastRestart(resource: seq<byte>, start: Target, turns: seq<Turn>)
    requires turns != []
    ensures
      var n := |turns| - 1;
      var try := FileTry(resource, turns[n], FileAt(resource, start, turns[..n]));
      Restarts(true, FileTries(resource, start, turns)) == Restarts(true, FileTries(resource, start, turns[..n])) +
        if try.failed == Some(Transient) && try.after > try.before then 1 else 0
  {
    var n, tries := |turns| - 1, FileTries(resource, start, turns);
    assert tries[..n] == FileTries(resource, start, turns[..n]);
    RestartsMore(true, tries, n);
    assert tries[..n + 1] == tries;
  }

  lemma Distributes(a: nat, b: nat)
    ensures a * (b + 1) == a * b + a
  {
  }

  lemma AtMost(calls: nat, tries: nat, restarts: nat, most: nat)
    requires tries >= 1 && calls <= tries + restarts * (tries - 1) && restarts <= most
    ensures calls <= tries + most * (tries - 1)
  {
    MulMonotone(restarts, most, tries - 1);
  }

  lemma RestartsAreBounded(resource: seq<byte>, start: Target, turns: seq<Turn>)
    requires Content(start) <= resource
    ensures Restarts(true, FileTries(resource, start, turns)) <= |resource| * (Overs(resource, start, turns) + 1)
  {
    RestartsArePaidFor(resource, start, turns);
    FileAtBegins(resource, start, turns);
    Distributes(|resource|, Overs(resource, start, turns));
  }

  /** A transfer into a file makes no more attempts than the tries, and as many less one again for
      each byte of the resource, once more for each time the server started over. So it goes on
      without end only against a server that starts over without end. */
  lemma AFileTransferEnds(resource: seq<byte>, p: Policy, start: Target, turns: seq<Turn>)
    requires Content(start) <= resource && turns != []
    requires StateAt(p, true, FileTries(resource, start, turns), |turns| - 1).Some?
    ensures |turns| <= Tries(p) + |resource| * (Overs(resource, start, turns) + 1) * (Tries(p) - 1)
  {
    CallsForRestarts(resource, p, start, turns);
    RestartsAreBounded(resource, start, turns);
    AtMost(|turns|, Tries(p), Restarts(true, FileTries(resource, start, turns)),
           |resource| * (Overs(resource, start, turns) + 1));
  }

  lemma CallsForRestarts(resource: seq<byte>, p: Policy, start: Target, turns: seq<Turn>)
    requires turns != [] && StateAt(p, true, FileTries(resource, start, turns), |turns| - 1).Some?
    ensures |turns| <= Tries(p) + Restarts(true, FileTries(resource, start, turns)) * (Tries(p) - 1)
  {
    var tries := FileTries(resource, start, turns);
    CallsAreBounded(p, true, tries, |turns| - 1);
    assert tries[..|tries|] == tries;
  }

  /** The first of a server's answers. */
  ghost function First(turns: nat -> Turn, n: nat): (r: seq<Turn>)
    ensures |r| == n
  {
    if n == 0 then [] else First(turns, n - 1) + [turns(n - 1)]
  }

  /** The transfer makes one more attempt after that many. */
  ghost predicate Going(resource: seq<byte>, p: Policy, start: Target, turns: nat -> Turn, n: nat) {
    StateAt(p, true, FileTries(resource, start, First(turns, n)), n).Some?
  }

  ghost function OversIn(resource: seq<byte>, start: Target, turns: nat -> Turn, n: nat): nat {
    Overs(resource, start, First(turns, n))
  }

  lemma {:induction false} GoingBefore(resource: seq<byte>, p: Policy, start: Target, turns: nat -> Turn, j: nat,
        n: nat)
    requires j <= n && Going(resource, p, start, turns, n)
    ensures Going(resource, p, start, turns, j)
    decreases n - j
  {
    if j < n {
      var less := First(turns, n - 1);
      assert First(turns, n)[..n - 1] == less;
      SameBefore(p, FileTries(resource, start, less), FileTry(resource, turns(n - 1),
        FileAt(resource, start, less)), n - 1);
      GoingBefore(resource, p, start, turns, j, n - 1);
    }
  }

  lemma {:induction false} OversAreFewer(resource: seq<byte>, start: Target, turns: seq<Turn>)
    ensures Overs(resource, start, turns) <= |turns|
  {
    if turns != [] {
      OversAreFewer(resource, start, turns[..|turns| - 1]);
    }
  }

  /** The attempts after which it has started over so often. */
  function Enough(resource: seq<byte>, p: Policy, m: nat): nat {
    Tries(p) + |resource| * m * (Tries(p) - 1) + 1
  }

  lemma NotEnough(calls: nat, tries: nat, size: nat, overs: nat, m: nat)
    requires tries >= 1 && overs < m && calls <= tries + size * (overs + 1) * (tries - 1)
    ensures calls < tries + size * m * (tries - 1) + 1
  {
    MulMonotone(overs + 1, m, size);
    assert size * (overs + 1) <= size * m;
    MulMonotone(size * (overs + 1), size * m, tries - 1);
  }

  lemma EndsWithin(resource: seq<byte>, p: Policy, start: Target, turns: nat -> Turn, n: nat)
    requires Content(start) <= resource && Going(resource, p, start, turns, n) && n > 0
    ensures n <= Tries(p) + |resource| * (OversIn(resource, start, turns, n) + 1) * (Tries(p) - 1)
  {
    var less := First(turns, n - 1);
    GoingBefore(resource, p, start, turns, n - 1, n);
    assert First(turns, n)[..n - 1] == less;
    SameBefore(p, FileTries(resource, start, less), FileTry(resource, turns(n - 1), FileAt(resource, start, less)),
      n - 1);
    AFileTransferEnds(resource, p, start, First(turns, n));
  }

  lemma ItStartedOver(resource: seq<byte>, p: Policy, start: Target, turns: nat -> Turn, m: nat)
    requires Content(start) <= resource && Going(resource, p, start, turns, Enough(resource, p, m))
    ensures StartsOverSoOften(resource, p, start, turns, m)
  {
    var n := Enough(resource, p, m);
    var overs := OversIn(resource, start, turns, n);
    EndsWithin(resource, p, start, turns, n);
    if overs < m {
      NotEnough(n, Tries(p), |resource|, overs, m);
    }
  }

  ghost predicate StartsOverSoOften(resource: seq<byte>, p: Policy, start: Target, turns: nat -> Turn, m: nat) {
    exists n :: Going(resource, p, start, turns, n) && OversIn(resource, start, turns, n) >= m
  }

  /** A transfer into a file goes on without end exactly when, going on, the server starts over more
      often than any number. */
  lemma AFileTransferNeverEndsIff(resource: seq<byte>, p: Policy, start: Target, turns: nat -> Turn)
    requires Content(start) <= resource
    ensures (forall n :: Going(resource, p, start, turns, n)) <==>
      (forall m :: StartsOverSoOften(resource, p, start, turns, m))
  {
    if forall n :: Going(resource, p, start, turns, n) {
      forall m
        ensures StartsOverSoOften(resource, p, start, turns, m)
      {
        ItStartedOver(resource, p, start, turns, m);
      }
    }
    if forall m :: StartsOverSoOften(resource, p, start, turns, m) {
      forall j
        ensures Going(resource, p, start, turns, j)
      {
        assert StartsOverSoOften(resource, p, start, turns, j);
        var n :| Going(resource, p, start, turns, n) && OversIn(resource, start, turns, n) >= j;
        OversAreFewer(resource, start, First(turns, n));
        GoingBefore(resource, p, start, turns, j, n);
      }
    }
  }

  // ---------------------------------------------------------------- a file transfer need not end

  /** A large transfer's policy, in milliseconds. */
  const TRANSFER := Policy(8, 1000, 30_000, 1_800_000)

  const Three: seq<byte> := [1, 2, 3]

  /** A server that starts over and drops after one byte, then goes on and drops after another. */
  function BackAndForth(n: nat): (r: seq<Turn>)
    ensures |r| == n
  {
    if n == 0 then [] else
    BackAndForth(n - 1) + [CycleTurn(n)]
  }

  function CycleTurn(n: nat): Turn {
    Turn(if n == 1 then Body(false, 2, false, true) else Body(n % 2 == 1, 1, false, true), 0, 0)
  }

  /** Each time it goes on it gets further than the attempt before, so the retries start over,
      though nothing is reached that was not reached already: however many attempts are made, the
      loop goes on. */
  lemma {:induction false} AFileTransferNeedNotEnd(n: nat)
    ensures
      var tries := FileTries(Three, Target(None, 0), BackAndForth(n));
      StateAt(TRANSFER, true, tries, n).Some? && InTheCycle(n, StateAt(TRANSFER, true, tries, n).value,
        FileAt(Three, Target(None, 0), BackAndForth(n)))
  {
    if n > 0 {
      AFileTransferNeedNotEnd(n - 1);
      assert BackAndForth(n)[..n - 1] == BackAndForth(n - 1);
      OneMoreTurn(BackAndForth(n), n);
    }
  }

  lemma {:induction false} OneMoreTurn(turns: seq<Turn>, n: nat)
    requires |turns| == n > 0 && turns[n - 1] == CycleTurn(n)
    requires
      var tries := FileTries(Three, Target(None, 0), turns[..n - 1]);
      StateAt(TRANSFER, true, tries, n - 1).Some? && InTheCycle(n - 1, StateAt(TRANSFER, true, tries, n - 1).value,
        FileAt(Three, Target(None, 0), turns[..n - 1]))
    ensures
      var tries := FileTries(Three, Target(None, 0), turns);
      StateAt(TRANSFER, true, tries, n).Some? && InTheCycle(n, StateAt(TRANSFER, true, tries, n).value,
        FileAt(Three, Target(None, 0), turns))
  {
    var s, f := StateAt(TRANSFER, true, FileTries(Three, Target(None, 0), turns[..n - 1]), n - 1).value,
      FileAt(Three, Target(None, 0), turns[..n - 1]);
    FileMore(Three, TRANSFER, Target(None, 0), turns, n - 1, s);
    RoundTheCycle(n, s, f);
    assert turns[..n] == turns;
  }

  ghost predicate InTheCycle(n: nat, s: Running, f: Target) {
    && s.count.start <= s.now
    && (n == 0 ==> s == Running(Count(0, 0, 0), 0) && f == Target(None, 0))
    && (n > 0 && n % 2 == 1 ==>
      s.count.attempt == 1 && s.now - s.count.start <= 1000 && f == Target(Some(Three[..2]), 2))
    && (n > 0 && n % 2 == 0 ==>
      s.count.attempt == 2 && s.now - s.count.start <= 3000 && f == Target(Some(Three[..1]), 1))
  }

  lemma RoundTheCycle(n: nat, s: Running, f: Target)
    requires n > 0 && InTheCycle(n - 1, s, f)
    ensures
      var t := CycleTurn(n);
      var next := Next(TRANSFER, true, s, FileTry(Three, t, f));
      next.Some? && InTheCycle(n, next.value, FileAfter(Three, t, f))
  {
    var t := CycleTurn(n);
    assert Pow2(0) == 1 && Pow2(1) == 2;
    assert Step(TRANSFER, 1) == 1000 && Step(TRANSFER, 2) == 2000;
    assert Three[..2] == [1, 2] && Three[..1] == [1];
    FileIs(Three, t, f);
    assert |Content(f)| == if n == 1 then 0 else if n % 2 == 0 then 2 else 1;
  }

  // ---------------------------------------------------------------- redirects

  datatype Scheme = Https | Http | Other
  datatype Url = Url(scheme: Scheme, host: nat, path: nat)
  datatype Verb = Get | Head | Post | Put | Delete
  datatype Request = Request(verb: Verb, url: Url, body: bool, bearer: bool, range: nat)
  /** A response, its `Location` resolved against the URL that sent it; or none. */
  datatype Response = Response(status: nat, location: Option<Url>) | Lost

  datatype Landed = Landed(url: Url, status: nat) | Unanswered | Downgrade | TooMany

  const MAX_REDIRECTS: nat := 10

  predicate SameOrigin(a: Url, b: Url) {
    a.scheme == b.scheme && a.host == b.host
  }

  predicate IsRedirect(r: Response) {
    r.Response? && r.status in {301, 302, 303, 307, 308} && r.location.Some?
  }

  predicate BecomesGet(verb: Verb, status: nat) {
    status == 303 || (status in {301, 302} && verb.Post?)
  }

  /** A credential goes to the origin it was meant for, and nowhere else. */
  ghost predicate BearerStaysHome(ask: Request, sent: seq<Request>) {
    forall i :: 0 <= i < |sent| ==> (sent[i].bearer <==>
      ask.bearer && sent[i].url.scheme == ask.url.scheme && sent[i].url.host == ask.url.host)
  }

  /** A request is the redirect of the one before, to where it said, as the kind it said. */
  ghost predicate HopsTo(was: Request, r: Response, now: Request) {
    && r.Response? && (r.status == 301 || r.status == 302 || r.status == 303 || r.status == 307 || r.status == 308)
    && r.location == Some(now.url) && !(was.url.scheme.Https? && now.url.scheme.Http?)
    && now.range == was.range
    && (if r.status == 303 || ((r.status == 301 || r.status == 302) && was.verb == Post)
        then !now.body && now.verb == (if was.verb.Head? then Head else Get)
        else now.body == was.body && now.verb == was.verb)
  }

  ghost predicate Redirected(sent: seq<Request>, answers: nat -> Response) {
    forall i :: 0 < i < |sent| ==> HopsTo(sent[i - 1], answers(i - 1), sent[i])
  }

  /** One request, following redirects: at most ten, never from https to http, with the bearer for
      the first origin alone. It lands on the first answer that is not a redirect. */
  method Exchange(ask: Request, follow: bool, answers: nat -> Response) returns (r: Landed, sent: seq<Request>)
    ensures Exchanged(ask, follow, answers, r, sent)
  {
    var url, verb, body := ask.url, ask.verb, ask.body;
    var chain := 1;
    sent := [];
    while true
      invariant chain == |sent| + 1 <= MAX_REDIRECTS + 1
      invariant sent == [] ==> url == ask.url && verb == ask.verb && body == ask.body
      invariant sent != [] ==> sent[0] == ask && follow
      invariant sent != [] ==> HopsTo(sent[|sent| - 1], answers(|sent| - 1), Request(verb, url, body, false, ask.range))
      invariant BearerStaysHome(ask, sent) && Redirected(sent, answers)
      decreases MAX_REDIRECTS + 1 - |sent|
    {
      var req := Request(verb, url, body, ask.bearer && SameOrigin(url, ask.url), ask.range);
      sent := sent + [req];
      var answer := answers(|sent| - 1);
      if answer.Lost? {
        return Unanswered, sent;
      }
      if !follow || !IsRedirect(answer) {
        return Landed(url, answer.status), sent;
      }
      var next := answer.location.value;
      if url.scheme.Https? && next.scheme.Http? {
        return Downgrade, sent;
      }
      chain := chain + 1;
      if chain > MAX_REDIRECTS + 1 {
        return TooMany, sent;
      }
      if BecomesGet(verb, answer.status) {
        if !verb.Head? {
          verb := Get;
        }
        body := false;
      }
      url := next;
    }
  }

  /** What an exchange promises of the requests it sent and of where it landed. */
  ghost predicate Exchanged(ask: Request, follow: bool, answers: nat -> Response, r: Landed, sent: seq<Request>) {
    && 1 <= |sent| <= 11 && sent[0] == ask && (!follow ==> |sent| == 1)
    && BearerStaysHome(ask, sent) && Redirected(sent, answers)
    && EndsAt(sent[|sent| - 1].url, answers(|sent| - 1), follow, |sent|, r)
  }

  ghost predicate EndsAt(last: Url, answer: Response, follow: bool, requests: nat, r: Landed) {
    match r
    case Landed(url, status) => url == last && answer.Response? && status == answer.status &&
      (follow && answer.location.Some? ==> status !in {301, 302, 303, 307, 308})
    case Unanswered => answer.Lost?
    case Downgrade => IsRedirect(answer) && last.scheme.Https? && answer.location.value.scheme.Http?
    case TooMany => IsRedirect(answer) && requests == 11
  }

  /** Where the answers so far lead. */
  function LedTo(ask: Request, answers: nat -> Response, n: nat): Url {
    if n > 0 && IsRedirect(answers(n - 1)) then answers(n - 1).location.value else ask.url
  }

  /** The first answers are redirects that are followed. */
  ghost predicate Followed(ask: Request, follow: bool, answers: nat -> Response, n: nat) {
    && (n > 0 ==> follow && n <= MAX_REDIRECTS)
    && (forall i :: 0 <= i < n ==> IsRedirect(answers(i)))
    && (forall i :: 0 <= i < n ==> !(LedTo(ask, answers, i).scheme.Https? && LedTo(ask, answers, i + 1).scheme.Http?))
  }

  lemma SentWhere(ask: Request, follow: bool, answers: nat -> Response, r: Landed, sent: seq<Request>, i: nat)
    requires Exchanged(ask, follow, answers, r, sent) && i < |sent|
    ensures (i > 0 ==> IsRedirect(answers(i - 1))) && sent[i].url == LedTo(ask, answers, i)
  {
    if i > 0 {
      Hop(sent, answers, i);
    }
  }

  lemma FollowedAt(ask: Request, follow: bool, answers: nat -> Response, n: nat, i: nat)
    requires Followed(ask, follow, answers, n) && i < n
    ensures IsRedirect(answers(i))
    ensures !(LedTo(ask, answers, i).scheme.Https? && answers(i).location.value.scheme.Http?)
  {
    assert LedTo(ask, answers, i + 1) == answers(i).location.value;
  }

  /** There is a request after so many answers exactly when all of them are followed. */
  lemma SentIff(ask: Request, follow: bool, answers: nat -> Response, r: Landed, sent: seq<Request>, n: nat)
    requires Exchanged(ask, follow, answers, r, sent)
    ensures n < |sent| <==> Followed(ask, follow, answers, n)
  {
    if n < |sent| {
      forall i | 0 <= i < n
        ensures IsRedirect(answers(i))
        ensures !(LedTo(ask, answers, i).scheme.Https? && answers(i).location.value.scheme.Http?)
      {
        SentWhere(ask, follow, answers, r, sent, i);
        assert HopsTo(sent[i], answers(i), sent[i + 1]);
      }
    } else if Followed(ask, follow, answers, n) {
      var last := |sent| - 1;
      FollowedAt(ask, follow, answers, n, last);
      SentWhere(ask, follow, answers, r, sent, last);
    }
  }

  ghost predicate SentAgain(sent: seq<Request>, i: nat, j: nat) {
    i < j < |sent| && !sent[i].bearer && sent[j].bearer
  }

  /** The answers lead away from the first origin, and back there. */
  ghost predicate LedBack(ask: Request, follow: bool, answers: nat -> Response, i: nat, j: nat) {
    && i < j && Followed(ask, follow, answers, j)
    && !SameOrigin(LedTo(ask, answers, i), ask.url) && SameOrigin(LedTo(ask, answers, j), ask.url)
  }

  /** The bearer is sent again, after a request without it, exactly when the answers lead back to the
      first origin after one that leads away from it. */
  lemma TheBearerComesBackIff(ask: Request, follow: bool, answers: nat -> Response, r: Landed, sent: seq<Request>)
    requires Exchanged(ask, follow, answers, r, sent) && ask.bearer
    ensures (exists i, j :: SentAgain(sent, i, j)) <==> (exists i, j :: LedBack(ask, follow, answers, i, j))
  {
    forall i: nat, j: nat | i < j
      ensures SentAgain(sent, i, j) <==> LedBack(ask, follow, answers, i, j)
    {
      SentIff(ask, follow, answers, r, sent, j);
      if j < |sent| {
        SentWhere(ask, follow, answers, r, sent, i);
        SentWhere(ask, follow, answers, r, sent, j);
      }
    }
  }

  const Home := Url(Https, 1, 0)
  const Away := Url(Https, 2, 0)

  /** There and back again. */
  function ThereAndBack(n: nat): Response {
    if n == 0 then Response(302, Some(Away)) else if n == 1 then Response(302, Some(Home)) else Response(200, None)
  }

  /** A chain that leaves the first host and comes back sends it the bearer again. */
  lemma TheBearerComesBack(r: Landed, sent: seq<Request>)
    requires Exchanged(Request(Get, Home, false, true, 0), true, ThereAndBack, r, sent)
    ensures |sent| == 3 && sent[1].url == Away && !sent[1].bearer && sent[2].url == Home && sent[2].bearer
  {
    assert |sent| > 2;
    NoHopPast(sent, ThereAndBack, 2);
    Hop(sent, ThereAndBack, 1);
    Hop(sent, ThereAndBack, 2);
  }

  lemma Hop(sent: seq<Request>, answers: nat -> Response, i: nat)
    requires Redirected(sent, answers) && 0 < i < |sent|
    ensures IsRedirect(answers(i - 1)) && sent[i].url == answers(i - 1).location.value
  {
    assert HopsTo(sent[i - 1], answers(i - 1), sent[i]);
  }

  lemma NoHopPast(sent: seq<Request>, answers: nat -> Response, i: nat)
    requires Redirected(sent, answers) && !IsRedirect(answers(i))
    ensures |sent| <= i + 1
  {
    if |sent| > i + 1 {
      Hop(sent, answers, i + 1);
    }
  }

  /** Once on https a chain stays on it, where every hop names its scheme as http or https. */
  lemma {:induction false} OnceSecureAlways(sent: seq<Request>, answers: nat -> Response, k: nat)
    requires Redirected(sent, answers) && k < |sent| && sent[0].url.scheme.Https?
    requires forall i :: 0 <= i <= k ==> !sent[i].url.scheme.Other?
    ensures sent[k].url.scheme.Https?
  {
    if k > 0 {
      OnceSecureAlways(sent, answers, k - 1);
    }
  }
}
