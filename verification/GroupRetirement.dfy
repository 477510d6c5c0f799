/**
 * tools/process_supervisor.py: the verdict on an owned process group whose exited leader is
 * still held. Snapshots and the outcome of the kill are observations of a group that goes on
 * changing by itself.
 */
module GroupRetirement {
  import opened Wrappers

  type Pid = nat
  type Threads = n: nat | n >= 1 witness 1

  /** A group member as a snapshot shows it: by Linux state letter and thread count, or by Darwin status number. */
  datatype Identity =
    | Linux(birth: nat, pgid: Pid, letter: char, threads: Threads)
    | Darwin(birth: nat, pgid: Pid, status: int)

  type Members = map<Pid, Identity>

  /** A snapshot, or the error that it raised. */
  type Snapshot = Result<Members, string>

  /** A Linux thread-group leader may be a zombie while its workers run. */
  predicate MemberExited(m: Identity) {
    match m
    case Linux(_, _, letter, threads) => letter in {'Z', 'X', 'x'} && threads == 1
    case Darwin(_, _, status) => status == 5
  }

  predicate Zombie(m: Identity) { if m.Linux? then m.letter == 'Z' else m.status == 5 }

  /** Birth and group: what identifies a member across two snapshots. */
  function Identities(ms: Members): map<Pid, (nat, Pid)> {
    map p | p in ms :: (ms[p].birth, ms[p].pgid)
  }

  predicate LeaderHeld(pgid: Pid, ms: Members) { pgid in ms && Zombie(ms[pgid]) && MemberExited(ms[pgid]) }

  /** Two snapshots in a row; the second is not taken when the first fails. */
  function StableSnapshot(pgid: Pid, first: Snapshot, second: Snapshot): Snapshot {
    if first.Err? then first
    else if second.Err? then second
    else if pgid !in first.value || pgid !in second.value || Identities(first.value) != Identities(second.value) then
      Err("process-group membership changed or leader absent")
    else if !LeaderHeld(pgid, first.value) || !LeaderHeld(pgid, second.value) then
      Err("held process-group leader is not exited")
    else second
  }

  predicate HasLiveMember(pgid: Pid, ms: Members) {
    exists p :: p in ms && p != pgid && !MemberExited(ms[p])
  }

  /** Who counts as alive: on Linux all but a single-threaded zombie or dead task, on Darwin all but a zombie. */
  lemma LivenessExactly(birth: nat, pgid: Pid, letter: char, threads: Threads, status: int)
    ensures !MemberExited(Linux(birth, pgid, letter, threads)) <==> threads > 1 || letter !in "ZXx"
    ensures !MemberExited(Darwin(birth, pgid, status)) <==> status != 5
  {}

  /** Two snapshots are stable exactly if they name the same processes and both show the leader as a held zombie. */
  lemma StableExactly(pgid: Pid, first: Snapshot, second: Snapshot)
    ensures StableSnapshot(pgid, first, second).Ok? <==>
            && first.Ok? && second.Ok?
            && (forall p :: p in first.value <==> p in second.value)
            && (forall p :: p in first.value && p in second.value ==>
                  first.value[p].birth == second.value[p].birth && first.value[p].pgid == second.value[p].pgid)
            && ZombieLeader(pgid, first.value) && ZombieLeader(pgid, second.value)
    ensures StableSnapshot(pgid, first, second).Ok? ==> StableSnapshot(pgid, first, second) == second
  {
    if first.Ok? && second.Ok? {
      var a, b := Identities(first.value), Identities(second.value);
      assert a == b <==> (forall p :: p in a <==> p in b) && (forall p :: p in a && p in b ==> a[p] == b[p]);
      assert (forall p :: p in a <==> p in first.value) && (forall p :: p in b <==> p in second.value);
    }
  }

  /** The leader is there, as a zombie without running threads. */
  predicate ZombieLeader(pgid: Pid, ms: Members) {
    pgid in ms && match ms[pgid]
                  case Linux(_, _, letter, threads) => letter == 'Z' && threads == 1
                  case Darwin(_, _, status) => status == 5
  }

  /** The snapshots of one round after the kill, and whether the clock had reached the deadline after it. */
  datatype Round = Round(first: Snapshot, second: Snapshot, late: bool)

  /** The snapshots are stable and the second shows nobody alive beside the exited leader. */
  predicate Quiet(pgid: Pid, first: Snapshot, second: Snapshot) {
    var s := StableSnapshot(pgid, first, second);
    s.Ok? && !HasLiveMember(pgid, s.value)
  }

  /** A quiet round that no late round precedes. */
  ghost predicate QuietInTime(pgid: Pid, rounds: seq<Round>, k: nat) {
    k < |rounds| && Quiet(pgid, rounds[k].first, rounds[k].second) && forall j :: 0 <= j < k ==> !rounds[j].late
  }

  /** Waiting after the kill; the clock reaches the deadline at some point. */
  method AwaitKilledGroupQuiescence(pgid: Pid, rounds: seq<Round>) returns (complete: bool)
    requires exists k :: 0 <= k < |rounds| && rounds[k].late
    ensures complete <==> exists k :: QuietInTime(pgid, rounds, k)
  {
    var i := 0;
    while true
      invariant 0 <= i < |rounds|
      invariant forall j :: 0 <= j < i ==> !rounds[j].late && !Quiet(pgid, rounds[j].first, rounds[j].second)
      invariant exists k :: i <= k < |rounds| && rounds[k].late
      decreases |rounds| - i
    {
      if Quiet(pgid, rounds[i].first, rounds[i].second) {
        assert QuietInTime(pgid, rounds, i);
        return true;
      }
      if rounds[i].late { return false; }
      i := i + 1;
    }
  }

  datatype Kill = KillSent | Absent | Denied
  datatype Verdict = Quiescent | Killed | Unknown | Inaccessible

  /** The verdict, and how often a kill was attempted. */
  method RetireOwnedGroup(pgid: Pid, first: Snapshot, second: Snapshot, kill: Kill, rounds: seq<Round>)
    returns (verdict: Verdict, kills: nat)
    requires exists k :: 0 <= k < |rounds| && rounds[k].late
    ensures kills == if verdict.Quiescent? then 0 else 1
    ensures verdict.Quiescent? <==> Quiet(pgid, first, second)
    ensures verdict.Killed? <==>
      StableSnapshot(pgid, first, second).Ok? && !Quiet(pgid, first, second) && kill.KillSent?
      && exists k :: QuietInTime(pgid, rounds, k)
    ensures verdict.Inaccessible? <==>
      StableSnapshot(pgid, first, second).Ok? && !Quiet(pgid, first, second) && !kill.KillSent?
  {
    var members := StableSnapshot(pgid, first, second);
    if members.Err? {
      if kill.KillSent? { var complete := AwaitKilledGroupQuiescence(pgid, rounds); }
      return Unknown, 1;
    }
    if !HasLiveMember(pgid, members.value) { return Quiescent, 0; }
    if !kill.KillSent? { return Inaccessible, 1; }
    var complete := AwaitKilledGroupQuiescence(pgid, rounds);
    return if complete then Killed else Unknown, 1;
  }

  // ---- the group goes on by itself while it is scanned ----

  /** What can happen to the group while its leader is held: only live members act, and an exit is final. */
  datatype Happening =
    | Fork(parent: Pid, child: Pid, born: Identity) | Change(pid: Pid, now: Identity) | Reap(pid: Pid) | Leave(pid: Pid)

  predicate Live(ms: Members, p: Pid) { p in ms && !MemberExited(ms[p]) }

  predicate SameProcess(a: Identity, b: Identity) { a.birth == b.birth && a.pgid == b.pgid }

  function Happen(pgid: Pid, ms: Members, h: Happening): Members {
    match h
    case Fork(parent, child, born) => if Live(ms, parent) && child !in ms then ms[child := born] else ms
    case Change(pid, now) => if Live(ms, pid) && SameProcess(ms[pid], now) then ms[pid := now] else ms
    case Reap(pid) => if pid in ms && pid != pgid && MemberExited(ms[pid]) then ms - {pid} else ms
    case Leave(pid) => if Live(ms, pid) then ms - {pid} else ms
  }

  /** The group after the first t of the things that happen. */
  function GroupAt(pgid: Pid, ms: Members, hs: seq<Happening>, t: nat): Members
    requires t <= |hs|
  {
    if t == 0 then ms else Happen(pgid, GroupAt(pgid, ms, hs, t - 1), hs[t - 1])
  }

  /**
   * A scan is not one instant: each pid is listed at one moment, and what was listed is read at
   * that moment or later.
   */
  datatype Scan = Scan(listed: Pid -> nat, read: Pid -> nat)

  ghost predicate Within(w: Scan, n: nat, lo: nat, hi: nat) {
    forall p :: 0 <= p < n ==> lo <= w.listed(p) <= w.read(p) <= hi
  }

  /** The scan finds pid p: it was there to be listed, and it is still there to be read. */
  ghost predicate Found(pgid: Pid, ms: Members, hs: seq<Happening>, w: Scan, p: Pid)
    requires w.listed(p) <= |hs| && w.read(p) <= |hs|
  {
    p in GroupAt(pgid, ms, hs, w.listed(p)) && p in GroupAt(pgid, ms, hs, w.read(p))
  }

  /** What a scan of the pids below n reports: each member found, as it was when it was read. */
  ghost function Scanned(pgid: Pid, ms: Members, hs: seq<Happening>, w: Scan, n: nat): Members
    requires Within(w, n, 0, |hs|)
  {
    map p: Pid | p < n && Found(pgid, ms, hs, w, p) :: GroupAt(pgid, ms, hs, w.read(p))[p]
  }

  /** The group starts with its exited leader, all its pids are below n, and all members carry its number. */
  ghost predicate History(pgid: Pid, ms: Members, hs: seq<Happening>, n: nat) {
    && LeaderHeld(pgid, ms) && (forall p :: p in ms ==> p < n && ms[p].pgid == pgid)
    && forall i :: 0 <= i < |hs| && hs[i].Fork? ==> hs[i].child < n && hs[i].born.pgid == pgid
  }

  /** The leader is held and nobody is alive. */
  ghost predicate Settled(pgid: Pid, ms: Members) { LeaderHeld(pgid, ms) && !HasLiveMember(pgid, ms) }

  lemma {:induction false} LeaderStays(pgid: Pid, ms: Members, hs: seq<Happening>, n: nat, t: nat)
    requires History(pgid, ms, hs, n) && t <= |hs|
    ensures LeaderHeld(pgid, GroupAt(pgid, ms, hs, t)) && forall p :: p in GroupAt(pgid, ms, hs, t) ==> p < n
  {
    if t > 0 { LeaderStays(pgid, ms, hs, n, t - 1); }
  }

  // ---- a scan that cannot be escaped ----

  /** A fork at index t whose child is too late to be listed has a parent that is read by the next moment. */
  ghost predicate Caught(pgid: Pid, ms: Members, hs: seq<Happening>, w: Scan, t: nat)
    requires t < |hs|
  {
    var g, h := GroupAt(pgid, ms, hs, t), hs[t];
    h.Fork? && Live(g, h.parent) && h.child !in g && w.listed(h.child) <= t ==> w.read(h.parent) <= t + 1
  }

  ghost predicate AllCaught(pgid: Pid, ms: Members, hs: seq<Happening>, w: Scan) {
    forall t :: 0 <= t < |hs| ==> Caught(pgid, ms, hs, w, t)
  }

  /** The scan will still find p alive: it is not read yet, and it is or will be listed. */
  ghost predicate ToBeFound(pgid: Pid, ms: Members, hs: seq<Happening>, w: Scan, t: nat, p: Pid)
    requires t <= |hs|
  {
    t < w.read(p) && (w.listed(p) <= t ==> p in GroupAt(pgid, ms, hs, w.listed(p)))
  }

  ghost predicate StillToCome(pgid: Pid, ms: Members, hs: seq<Happening>, w: Scan, t: nat)
    requires t <= |hs|
  {
    forall p :: p != pgid && Live(GroupAt(pgid, ms, hs, t), p) ==> ToBeFound(pgid, ms, hs, w, t, p)
  }

  ghost predicate ShowsNobody(pgid: Pid, ms: Members, hs: seq<Happening>, w: Scan, n: nat)
    requires Within(w, n, 0, |hs|)
  {
    forall p :: 0 <= p < n && p != pgid && Found(pgid, ms, hs, w, p) ==> !Live(GroupAt(pgid, ms, hs, w.read(p)), p)
  }

  lemma QuietShowsNobody(pgid: Pid, ms: Members, hs: seq<Happening>, w: Scan, n: nat)
    requires Within(w, n, 0, |hs|) && !HasLiveMember(pgid, Scanned(pgid, ms, hs, w, n))
    ensures ShowsNobody(pgid, ms, hs, w, n)
  {
    var shown := Scanned(pgid, ms, hs, w, n);
    forall p | 0 <= p < n && p != pgid && Found(pgid, ms, hs, w, p)
      ensures !Live(GroupAt(pgid, ms, hs, w.read(p)), p)
    {
      assert p in shown && shown[p] == GroupAt(pgid, ms, hs, w.read(p))[p];
    }
  }

  /** A member that is alive one moment later, and was to be found before, is still to be found. */
  lemma StillAhead(pgid: Pid, ms: Members, hs: seq<Happening>, w: Scan, n: nat, t: nat, p: Pid)
    requires History(pgid, ms, hs, n) && Within(w, n, 0, |hs|) && t < |hs| && p < n && p != pgid
    requires ShowsNobody(pgid, ms, hs, w, n) && Live(GroupAt(pgid, ms, hs, t + 1), p)
    requires t < w.read(p) && (w.listed(p) <= t ==> p in GroupAt(pgid, ms, hs, w.listed(p)))
    ensures ToBeFound(pgid, ms, hs, w, t + 1, p)
  {
    hide GroupAt;
    assert w.listed(p) <= t + 1 ==> p in GroupAt(pgid, ms, hs, w.listed(p));
    assert Found(pgid, ms, hs, w, p) ==> !Live(GroupAt(pgid, ms, hs, w.read(p)), p);
  }

  /** One step: whoever is alive after it and escaped would have been found alive, or its parent would. */
  lemma StepStillToCome(pgid: Pid, ms: Members, hs: seq<Happening>, w: Scan, n: nat, t: nat)
    requires History(pgid, ms, hs, n) && Within(w, n, 0, |hs|) && t < |hs|
    requires ShowsNobody(pgid, ms, hs, w, n) && Caught(pgid, ms, hs, w, t) && StillToCome(pgid, ms, hs, w, t)
    ensures StillToCome(pgid, ms, hs, w, t + 1)
  {
    hide ShowsNobody, ToBeFound;
    var g, g' := GroupAt(pgid, ms, hs, t), GroupAt(pgid, ms, hs, t + 1);
    LeaderStays(pgid, ms, hs, n, t);
    LeaderStays(pgid, ms, hs, n, t + 1);
    forall p | p != pgid && Live(g', p) ensures ToBeFound(pgid, ms, hs, w, t + 1, p) {
      if Live(g, p) {
        WasToBeFound(pgid, ms, hs, w, t, p);
      } else {
        assert hs[t].Fork? && hs[t].child == p && Live(g, hs[t].parent) && hs[t].parent != pgid;
        var y := hs[t].parent;
        assert Live(g', y);
        WasToBeFound(pgid, ms, hs, w, t, y);
        StillAhead(pgid, ms, hs, w, n, t, y);
        WasToBeFound(pgid, ms, hs, w, t + 1, y);
      }
      StillAhead(pgid, ms, hs, w, n, t, p);
    }
  }

  lemma WasToBeFound(pgid: Pid, ms: Members, hs: seq<Happening>, w: Scan, t: nat, p: Pid)
    requires t <= |hs| && ToBeFound(pgid, ms, hs, w, t, p)
    ensures t < w.read(p) && (w.listed(p) <= t ==> p in GroupAt(pgid, ms, hs, w.listed(p)))
  {}

  lemma {:induction false} NobodyPassed(pgid: Pid, ms: Members, hs: seq<Happening>, w: Scan, n: nat, t: nat)
    requires History(pgid, ms, hs, n) && Within(w, n, 0, |hs|) && t <= |hs|
    requires ShowsNobody(pgid, ms, hs, w, n) && AllCaught(pgid, ms, hs, w)
    ensures StillToCome(pgid, ms, hs, w, t)
  {
    hide ShowsNobody, StillToCome, Caught;
    if t == 0 {
      NobodyAtFirst(pgid, ms, hs, w, n);
    } else {
      NobodyPassed(pgid, ms, hs, w, n, t - 1);
      assert Caught(pgid, ms, hs, w, t - 1);
      StepStillToCome(pgid, ms, hs, w, n, t - 1);
    }
  }

  lemma NobodyAtFirst(pgid: Pid, ms: Members, hs: seq<Happening>, w: Scan, n: nat)
    requires History(pgid, ms, hs, n) && Within(w, n, 0, |hs|) && ShowsNobody(pgid, ms, hs, w, n)
    ensures StillToCome(pgid, ms, hs, w, 0)
  {
    forall p | p != pgid && Live(ms, p) ensures ToBeFound(pgid, ms, hs, w, 0, p) {
      assert Found(pgid, ms, hs, w, p) ==> !Live(GroupAt(pgid, ms, hs, w.read(p)), p);
    }
  }

  /** A quiet verdict is right when every fork behind the scan's back is caught at the parent. */
  lemma CaughtMeansSettled(pgid: Pid, ms: Members, hs: seq<Happening>, w: Scan, n: nat)
    requires History(pgid, ms, hs, n) && Within(w, n, 0, |hs|) && AllCaught(pgid, ms, hs, w)
    requires !HasLiveMember(pgid, Scanned(pgid, ms, hs, w, n))
    ensures Settled(pgid, GroupAt(pgid, ms, hs, |hs|))
  {
    hide ShowsNobody, AllCaught;
    QuietShowsNobody(pgid, ms, hs, w, n);
    NobodyPassed(pgid, ms, hs, w, n, |hs|);
    LeaderStays(pgid, ms, hs, n, |hs|);
    var end := GroupAt(pgid, ms, hs, |hs|);
    forall p | p in end && p != pgid ensures MemberExited(end[p]) {
      assert Live(end, p) ==> |hs| < w.read(p) <= |hs|;
    }
  }

  /** Each pid is read before a larger one is listed, and children get larger pids than their parents. */
  ghost predicate Ascending(w: Scan, n: nat, hs: seq<Happening>) {
    && (forall p, q :: 0 <= p < q < n ==> w.read(p) <= w.listed(q))
    && (forall i :: 0 <= i < |hs| && hs[i].Fork? ==> hs[i].parent < hs[i].child)
  }

  /**
   * Without pid wrap-around an ascending scan that reads as it lists cannot be escaped: after a
   * quiet verdict nobody is alive at the end of the scan, nor at any later time while the leader
   * is held.
   */
  lemma AscendingScanIsFinal(pgid: Pid, ms: Members, hs: seq<Happening>, first: Snapshot, w: Scan, n: nat,
                             later: seq<Happening>)
    requires History(pgid, ms, hs, n) && Within(w, n, 0, |hs|) && Ascending(w, n, hs)
    requires Quiet(pgid, first, Ok(Scanned(pgid, ms, hs, w, n)))
    ensures var end := GroupAt(pgid, ms, hs, |hs|);
            Settled(pgid, end) && Settled(pgid, GroupAt(pgid, end, later, |later|))
  {
    forall t | 0 <= t < |hs| ensures Caught(pgid, ms, hs, w, t) {}
    CaughtMeansSettled(pgid, ms, hs, w, n);
    SettledForGood(pgid, GroupAt(pgid, ms, hs, |hs|), later, |later|);
  }

  lemma {:induction false} SettledForGood(pgid: Pid, ms: Members, hs: seq<Happening>, t: nat)
    requires Settled(pgid, ms) && t <= |hs|
    ensures Settled(pgid, GroupAt(pgid, ms, hs, t))
  {
    if t > 0 {
      SettledForGood(pgid, ms, hs, t - 1);
      var g := GroupAt(pgid, ms, hs, t - 1);
      assert forall p :: p in g ==> !Live(g, p);
    }
  }

  // ---- exactly which scans cannot be escaped ----

  /** At most one thing happens between listing one pid and reading another. */
  ghost predicate NearlyInstant(pgid: Pid, w: Scan, n: nat) {
    forall x, y :: 0 <= x < n && 0 <= y < n && x != pgid && y != pgid && x != y ==> w.read(y) <= w.listed(x) + 1
  }

  /** The verdict of two scans is right for whatever happens meanwhile. */
  ghost predicate AlwaysRight(pgid: Pid, one: Scan, two: Scan, n: nat, end: nat)
    requires Within(one, n, 0, end) && Within(two, n, 0, end)
  {
    forall ms, hs ::
      |hs| == end && History(pgid, ms, hs, n)
      && Quiet(pgid, Ok(Scanned(pgid, ms, hs, one, n)), Ok(Scanned(pgid, ms, hs, two, n))) ==>
        Settled(pgid, GroupAt(pgid, ms, hs, end))
  }

  lemma InstantCatches(pgid: Pid, ms: Members, hs: seq<Happening>, w: Scan, n: nat)
    requires History(pgid, ms, hs, n) && NearlyInstant(pgid, w, n)
    ensures AllCaught(pgid, ms, hs, w)
  {
    forall t | 0 <= t < |hs| ensures Caught(pgid, ms, hs, w, t) {
      LeaderStays(pgid, ms, hs, n, t);
    }
  }

  function Exited(pgid: Pid): Identity { Linux(0, pgid, 'Z', 1) }
  function Alive(pgid: Pid): Identity { Linux(0, pgid, 'R', 1) }

  /** One member runs until x can no longer be listed, forks x, and exits before it is read itself. */
  function Escape(pgid: Pid, x: Pid, y: Pid, f: nat, end: nat): seq<Happening> {
    seq(end, i =>
      if i == f then Fork(y, x, Alive(pgid)) else if i == f + 1 then Change(y, Exited(pgid)) else Reap(pgid))
  }

  function Before(pgid: Pid, y: Pid): Members { map[pgid := Exited(pgid), y := Alive(pgid)] }

  /** The course of the escape. */
  lemma {:induction false} EscapeCourse(pgid: Pid, x: Pid, y: Pid, f: nat, end: nat, t: nat)
    requires x != y && x != pgid && y != pgid && f + 2 <= end && t <= end
    ensures GroupAt(pgid, Before(pgid, y), Escape(pgid, x, y, f, end), t)
         == if t <= f then Before(pgid, y)
            else if t == f + 1 then Before(pgid, y)[x := Alive(pgid)]
            else Before(pgid, y)[x := Alive(pgid)][y := Exited(pgid)]
  {
    if t > 0 { EscapeCourse(pgid, x, y, f, end, t - 1); }
  }

  /** The exiting member as a scan reads it. */
  function Shown(pgid: Pid, y: Pid, read: nat, f: nat): Members {
    map[pgid := Exited(pgid), y := if read <= f + 1 then Alive(pgid) else Exited(pgid)]
  }

  lemma EscapeIsSeen(pgid: Pid, x: Pid, y: Pid, w: Scan, n: nat, end: nat, f: nat)
    requires x != y && x != pgid && y != pgid && pgid < n && y < n && f + 2 <= end && Within(w, n, 0, end)
    requires w.listed(x) <= f
    ensures Scanned(pgid, Before(pgid, y), Escape(pgid, x, y, f, end), w, n) == Shown(pgid, y, w.read(y), f)
  {
    hide GroupAt;
    var hs := Escape(pgid, x, y, f, end);
    forall p | 0 <= p < n
      ensures Found(pgid, Before(pgid, y), hs, w, p) <==> p == pgid || p == y
      ensures p == pgid || p == y ==>
                GroupAt(pgid, Before(pgid, y), hs, w.read(p))[p] == Shown(pgid, y, w.read(y), f)[p]
    {
      EscapeCourse(pgid, x, y, f, end, w.listed(p));
      EscapeCourse(pgid, x, y, f, end, w.read(p));
    }
  }

  lemma EscapeIsQuiet(pgid: Pid, y: Pid, one: nat, two: nat, f: nat)
    requires y != pgid && two >= f + 2
    ensures Quiet(pgid, Ok(Shown(pgid, y, one, f)), Ok(Shown(pgid, y, two, f)))
  {}

  lemma EscapeIsHistory(pgid: Pid, x: Pid, y: Pid, n: nat, f: nat, end: nat)
    requires x < n && y < n && pgid < n && y != pgid
    ensures History(pgid, Before(pgid, y), Escape(pgid, x, y, f, end), n)
  {}

  lemma EscapeLives(pgid: Pid, x: Pid, y: Pid, f: nat, end: nat)
    requires x != y && x != pgid && y != pgid && f + 2 <= end
    ensures !Settled(pgid, GroupAt(pgid, Before(pgid, y), Escape(pgid, x, y, f, end), end))
  {
    hide GroupAt;
    EscapeCourse(pgid, x, y, f, end, end);
    var g := GroupAt(pgid, Before(pgid, y), Escape(pgid, x, y, f, end), end);
    assert x in g && g[x] == Alive(pgid);
  }

  /** A member escapes any two scans when two things happen between listing it and reading its parent. */
  lemma EscapesBoth(pgid: Pid, x: Pid, y: Pid, one: Scan, two: Scan, n: nat, start: nat, end: nat)
    requires x != y && x != pgid && y != pgid && x < n && y < n && pgid < n
    requires Within(one, n, 0, start) && Within(two, n, start, end) && two.listed(x) + 2 <= two.read(y)
    ensures Within(one, n, 0, end) && Within(two, n, 0, end) && !AlwaysRight(pgid, one, two, n, end)
  {
    hide Quiet, History, GroupAt, Scanned, Settled, Shown;
    var f := two.listed(x);
    EscapeIsSeen(pgid, x, y, one, n, end, f);
    EscapeIsSeen(pgid, x, y, two, n, end, f);
    EscapeIsQuiet(pgid, y, one.read(y), two.read(y), f);
    EscapeIsHistory(pgid, x, y, n, f, end);
    EscapeLives(pgid, x, y, f, end);
  }

  /**
   * What two agreeing scans give. Their quiet verdict is right for every course of events
   * exactly when, in the second scan, at most one thing happens between listing one pid and
   * reading another; how the first scan was taken does not matter.
   */
  lemma VerdictExactlyRight(pgid: Pid, one: Scan, two: Scan, n: nat, start: nat, end: nat)
    requires pgid < n && Within(one, n, 0, start) && Within(two, n, start, end) && start <= end
    ensures Within(one, n, 0, end) && Within(two, n, 0, end)
    ensures AlwaysRight(pgid, one, two, n, end) <==> NearlyInstant(pgid, two, n)
  {
    if NearlyInstant(pgid, two, n) {
      forall ms, hs | |hs| == end && History(pgid, ms, hs, n)
                      && Quiet(pgid, Ok(Scanned(pgid, ms, hs, one, n)), Ok(Scanned(pgid, ms, hs, two, n)))
        ensures Settled(pgid, GroupAt(pgid, ms, hs, end))
      {
        InstantCatches(pgid, ms, hs, two, n);
        CaughtMeansSettled(pgid, ms, hs, two, n);
      }
    } else {
      var x, y :| 0 <= x < n && 0 <= y < n && x != pgid && y != pgid && x != y && two.read(y) > two.listed(x) + 1;
      EscapesBoth(pgid, x, y, one, two, n, start, end);
    }
  }

  /** Stable snapshots name the same members, born at the same time, around a held leader. */
  lemma StableMeansSame(pgid: Pid, first: Snapshot, second: Snapshot, p: Pid)
    requires StableSnapshot(pgid, first, second).Ok?
    ensures first.Ok? && second.Ok? && (p in first.value <==> p in second.value)
    ensures p in first.value ==> SameProcess(first.value[p], second.value[p])
    ensures StableSnapshot(pgid, first, second) == second && LeaderHeld(pgid, first.value)
        && LeaderHeld(pgid, second.value)
  {
    var a, b := Identities(first.value), Identities(second.value);
    assert a == b && (p in a <==> p in first.value) && (p in b <==> p in second.value);
    if p in a { assert a[p] == b[p]; }
  }
}
