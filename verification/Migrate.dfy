/** Moving a mirror to a local disk (src/migrate.rs:77-155): the remote member is removed only on
    a positive outcome. */
module Migrate {
  import opened Options

  datatype Member = Active | Rebuilding | Failed | OtherState

  /** The members when they are looked at, and whether the deadline has passed. */
  datatype Poll = Poll(members: seq<Member>, late: bool)

  datatype Outcome = Synced | MemberFailed | Unclear | TimedOut

  predicate AllActive(members: seq<Member>) {
    forall m <- members :: m.Active?
  }

  /** What a look at the members says when it ends the wait. */
  ghost predicate Says(p: Poll, o: Outcome) {
    match o
    case Synced => AllActive(p.members)
    case MemberFailed => Failed in p.members
    case Unclear => Failed !in p.members && Rebuilding !in p.members && !AllActive(p.members)
    case TimedOut => p.late && Rebuilding in p.members && Failed !in p.members
  }

  /** And when it does not: a member is rebuilding, none has failed, and there is time. */
  ghost predicate WaitsOn(p: Poll) {
    Rebuilding in p.members && Failed !in p.members && !p.late
  }

  datatype Result = Migrated | NotMirror | AddFailed | RebuildFailed(why: Outcome) | RemoveFailed

  /** Wait on an explicit outcome, for as long as the polls are told. */
  method Wait(polls: seq<Poll>) returns (r: Option<Outcome>, looked: nat)
    ensures looked <= |polls| && (r.None? ==> looked == |polls|) && (r.Some? ==> looked > 0)
    ensures r.Some? ==> Says(polls[looked - 1], r.value)
    ensures forall k :: 0 <= k < (if r.Some? then looked - 1 else looked) ==> WaitsOn(polls[k])
  {
    looked := 0;
    while looked < |polls|
      invariant looked <= |polls| && forall k :: 0 <= k < looked ==> WaitsOn(polls[k])
      decreases |polls| - looked
    {
      var p := polls[looked];
      looked := looked + 1;
      var active, rebuilding := CountOf(p.members, Active), CountOf(p.members, Rebuilding);
      CountsAll(p.members);
      if active == |p.members| {
        return Some(Synced), looked;
      }
      if Failed in p.members {
        return Some(MemberFailed), looked;
      }
      if rebuilding == 0 {
        return Some(Unclear), looked;
      }
      if p.late {
        return Some(TimedOut), looked;
      }
    }
    r := None;
  }

  function CountOf(members: seq<Member>, m: Member): (n: nat)
    ensures n <= |members| && (n == 0 <==> m !in members)
  {
    if members == [] then 0 else
    var rest := CountOf(members[1..], m);
    assert members == [members[0]] + members[1..];
    rest + if members[0] == m then 1 else 0
  }

  lemma {:induction false} CountsAll(members: seq<Member>)
    ensures CountOf(members, Active) == |members| <==> AllActive(members)
  {
    if members != [] {
      CountsAll(members[1..]);
      assert members == [members[0]] + members[1..];
    }
  }

  /** The remote member goes exactly when the array is a mirror, the local one joined it, and at
      some look every member was active, where at each look before one was rebuilding, none had
      failed and the deadline had not passed. Until then it is untouched. */
  method ToLocal(mirror: bool, added: bool, polls: seq<Poll>, removes: bool) returns (r: Option<Result>, removed: bool)
    ensures removed <==> mirror && added && removes && exists k :: SyncedAt(polls, k)
    ensures r == Some(Migrated) <==> removed
    ensures !removed && r.Some? && r.value.RebuildFailed? ==> !r.value.why.Synced?
  {
    removed := false;
    if !mirror {
      return Some(NotMirror), false;
    }
    if !added {
      return Some(AddFailed), false;
    }
    var o, looked := Wait(polls);
    if o.None? {
      assert forall k :: 0 <= k < |polls| ==> !SyncedAt(polls, k);
      return None, false;
    }
    if o.value != Synced {
      forall k | 0 <= k < |polls|
        ensures !SyncedAt(polls, k)
      {
        assert k >= looked ==> !WaitsOn(polls[looked - 1]);
      }
      return Some(RebuildFailed(o.value)), false;
    }
    assert SyncedAt(polls, looked - 1);
    if !removes {
      return Some(RemoveFailed), false;
    }
    return Some(Migrated), true;
  }

  ghost predicate SyncedAt(polls: seq<Poll>, k: int) {
    && 0 <= k < |polls| && AllActive(polls[k].members)
    && forall j :: 0 <= j < k ==>
         Rebuilding in polls[j].members && Failed !in polls[j].members && !polls[j].late && !AllActive(polls[j].members)
  }
}
