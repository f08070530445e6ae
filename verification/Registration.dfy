/**
 The registration manager: one pending REG1/REG2 slot, the one-shot REG3 grants,
 the RTT probe that picks the first REG1 target, and the phase checks on REG3 and
 REG_ERR.  Uplinks are named by their position in a fixed bond.
 */
module Registration {
  import opened Prelude

  const REG2_TIMEOUT_MS: nat := 4_000
  const REG3_TIMEOUT_MS: nat := 4_000
  const REG1_RETRY_MS: nat := 1_000
  const PROBE_TIMEOUT_MS: nat := 2_000

  datatype Probing = NotStarted | Started | Waiting | Complete

  datatype Probe = Probe(index: nat, sentMs: nat, rtt: Option<nat>)

  /**
   The manager's state.  `armed` and `redeemed` are its history: how often each
   uplink was sent a REG2 that armed its grant, and how often a REG3 used one.
   */
  datatype Reg = Reg(
    pending: Option<nat>,
    deadlineMs: nat,
    active: nat,
    hasConnected: bool,
    broadcast: bool,
    target: Option<nat>,
    nextSendMs: nat,
    probing: Probing,
    probes: seq<Probe>,
    awaiting: set<nat>,
    snapshot: seq<bool>,
    strayReg3: nat,
    strayErr: nat,
    armed: multiset<nat>,
    redeemed: multiset<nat>)

  const FRESH := Reg(None, 0, 0, false, false, None, 0, NotStarted, [], {}, [], 0, 0, multiset{}, multiset{})

  /** What the driver asks the shell to send. */
  datatype Sends = Sends(reg1: Option<nat>, reg2: bool)

  // ----- building packets -----

  function BuildReg1(r: Reg, i: nat, now: nat): Reg {
    r.(pending := Some(i), target := Some(i), deadlineMs := now + REG2_TIMEOUT_MS, nextSendMs := now + REG1_RETRY_MS)
  }

  function Arm(r: Reg, who: set<nat>): Reg {
    r.(awaiting := r.awaiting + who, armed := r.armed + multiset(who))
  }

  predicate Reg1Due(r: Reg, now: nat) {
    r.active == 0 && r.target.Some? && r.pending.None? && now >= r.nextSendMs
  }

  /** Uplinks a broadcast arms: every one the last snapshot did not see connected. */
  function Unregistered(snapshot: seq<bool>, n: nat): set<nat> {
    set i: nat | i < n && !(i < |snapshot| && snapshot[i])
  }

  function Drive(r: Reg, n: nat, now: nat): (Reg, Sends) {
    var s := Sends(if Reg1Due(r, now) then r.target else None, r.broadcast);
    var q := if Reg1Due(r, now) then
               r.(pending := r.target, deadlineMs := now + REG2_TIMEOUT_MS, nextSendMs := now + REG2_TIMEOUT_MS)
             else r;
    (if q.broadcast then Arm(q, Unregistered(q.snapshot, n)).(broadcast := false) else q, s)
  }

  // ----- incoming frames -----

  function ProbeReply(ps: seq<Probe>, i: nat, now: nat): seq<Probe> {
    if ps == [] then []
    else if ps[0].index == i then
      (if ps[0].rtt.None? then [ps[0].(rtt := Some(SatSub(now, ps[0].sentMs)))] else [ps[0]]) + ps[1..]
    else [ps[0]] + ProbeReply(ps[1..], i, now)
  }

  function OnNgp(r: Reg, i: nat, now: nat): Reg {
    if r.probing.Waiting? then r.(probes := ProbeReply(r.probes, i, now))
    else if r.active == 0 && r.pending.None? then r.(target := Some(i), nextSendMs := now)
    else r
  }

  /** Whether a REG_NGP is answered with REG1 at once. */
  predicate Immediate(r: Reg, i: nat, now: nat) {
    Reg1Due(r, now) && r.target == Some(i)
  }

  /** `whole` is whether the frame is long enough to hold the full id. */
  function OnReg2(r: Reg, i: nat, whole: bool, now: nat): Reg {
    if whole && r.pending == Some(i) then
      r.(pending := None, deadlineMs := now + REG3_TIMEOUT_MS, broadcast := true, target := None, nextSendMs := 0)
    else r
  }

  /** A REG3 is honoured only against an outstanding grant, which it uses up. */
  function OnReg3(r: Reg, i: nat): Reg {
    if i in r.awaiting then
      r.(awaiting := r.awaiting - {i}, hasConnected := true, redeemed := r.redeemed + multiset{i})
    else r.(strayReg3 := Min(r.strayReg3 + 1, U64_MAX))
  }

  predicate ErrInPhase(r: Reg, i: nat) {
    r.pending == Some(i) || i in r.awaiting
  }

  function OnRegErr(r: Reg, i: nat, now: nat): Reg {
    if !ErrInPhase(r, i) then r.(strayErr := Min(r.strayErr + 1, U64_MAX))
    else
      var q := if r.pending == Some(i) then
                 r.(pending := None, deadlineMs := 0, target := None, nextSendMs := now + REG2_TIMEOUT_MS)
               else r;
      q.(awaiting := q.awaiting - {i})
  }

  // ----- timers, snapshots, probing -----

  predicate Expired(r: Reg, now: nat) {
    r.pending.Some? && r.deadlineMs != 0 && now >= r.deadlineMs
  }

  function Expire(r: Reg, now: nat): Reg {
    if Expired(r, now) then r.(pending := None, deadlineMs := 0, target := None, nextSendMs := now) else r
  }

  function Count(flags: seq<bool>): nat {
    if flags == [] then 0 else Count(flags[..|flags| - 1]) + if flags[|flags| - 1] then 1 else 0
  }

  function Snapshot(r: Reg, flags: seq<bool>): Reg {
    r.(active := Count(flags), snapshot := flags)
  }

  predicate MayProbe(r: Reg) {
    r.probing.NotStarted? && r.active == 0
  }

  function StartProbing(r: Reg, n: nat, now: nat): Reg {
    if !MayProbe(r) then r
    else if n == 0 then r.(probing := Complete, probes := [])
    else r.(probing := Waiting, probes := seq(n, i requires 0 <= i < n => Probe(i, now, None)),
            deadlineMs := now + PROBE_TIMEOUT_MS)
  }

  predicate AllAnswered(ps: seq<Probe>) {
    forall p | p in ps :: p.rtt.Some?
  }

  /** The first of the answered probes with the shortest round trip. */
  function Fastest(ps: seq<Probe>): (f: Option<Probe>)
    ensures f.Some? ==> f.value.rtt.Some?
  {
    if ps == [] then None else
    var best := Fastest(ps[..|ps| - 1]);
    var p := ps[|ps| - 1];
    if p.rtt.Some? && (best.None? || p.rtt.value < best.value.rtt.value) then Some(p) else best
  }

  function CheckProbing(r: Reg, clock: nat): Reg {
    if r.probing.Waiting? && (AllAnswered(r.probes) || clock >= r.deadlineMs) then
      r.(target := Some(if Fastest(r.probes).Some? then Fastest(r.probes).value.index else 0),
         nextSendMs := clock, probing := Complete, deadlineMs := 0)
    else r
  }

  /** Back to the state before REG1; only the fact that the process has streamed before survives. */
  function ResetForRehome(r: Reg): Reg {
    r.(pending := None, deadlineMs := 0, active := 0, broadcast := false, target := None, nextSendMs := 0,
       awaiting := {}, snapshot := [], probing := NotStarted, probes := [])
  }

  // ----- what every operation keeps -----

  /** For a bond of `n` uplinks. */
  predicate Sound(r: Reg, n: nat) {
    && (r.pending.Some? ==> r.deadlineMs != 0 && r.pending.value < n)
    && (r.target.Some? ==> r.target.value < n)
    && (r.probing.Waiting? ==> r.pending.None? && r.target.None? && r.probes != [])
    && !r.probing.Started?
    && (forall p | p in r.probes :: p.index < n)
    && (forall i | i in r.awaiting :: i < n)
    && r.redeemed + multiset(r.awaiting) <= r.armed
  }

  /** No answer is faster than the chosen one, and every earlier answer is slower. */
  predicate FirstFastest(ps: seq<Probe>, k: nat) {
    && k < |ps| && ps[k].rtt.Some?
    && (forall j | 0 <= j < |ps| && ps[j].rtt.Some? :: ps[k].rtt.value <= ps[j].rtt.value)
    && (forall j | 0 <= j < k && ps[j].rtt.Some? :: ps[k].rtt.value < ps[j].rtt.value)
  }

  lemma {:induction false} FastestIsFastest(ps: seq<Probe>)
    ensures var f := Fastest(ps);
            (f.None? <==> forall p | p in ps :: p.rtt.None?)
            && (f.Some? ==> f.value in ps && exists k: nat :: FirstFastest(ps, k) && ps[k] == f.value)
  {
    if ps != [] {
      var n := |ps| - 1;
      FastestIsFastest(ps[..n]);
      assert ps == ps[..n] + [ps[n]];
      var f, g := Fastest(ps), Fastest(ps[..n]);
      if f == g && g.Some? {
        var k: nat :| FirstFastest(ps[..n], k) && ps[..n][k] == g.value;
        assert FirstFastest(ps, k);
      } else if f.Some? {
        assert FirstFastest(ps, n);
      }
    }
  }

  /** A reply fills in its own probe once and touches no other. */
  lemma {:induction false} ReplyFillsOne(ps: seq<Probe>, i: nat, now: nat)
    ensures var q := ProbeReply(ps, i, now);
            |q| == |ps|
            && (forall k | 0 <= k < |ps| :: q[k].index == ps[k].index && q[k].sentMs == ps[k].sentMs)
            && (forall k | 0 <= k < |ps| :: ps[k].rtt.Some? || ps[k].index != i ==> q[k] == ps[k])
            && (forall k | 0 <= k < |ps| && ps[k].index == i && (forall j | 0 <= j < k :: ps[j].index != i) ::
                  q[k].rtt == if ps[k].rtt.Some? then ps[k].rtt else Some(SatSub(now, ps[k].sentMs)))
  {
    if ps != [] && ps[0].index != i {
      ReplyFillsOne(ps[1..], i, now);
      var q, t := ProbeReply(ps, i, now), ProbeReply(ps[1..], i, now);
      assert q == [ps[0]] + t;
      forall k | 0 <= k < |ps| && ps[k].index == i && (forall j | 0 <= j < k :: ps[j].index != i)
        ensures q[k].rtt == if ps[k].rtt.Some? then ps[k].rtt else Some(SatSub(now, ps[k].sentMs))
      {
        assert ps[1..][k - 1] == ps[k];
        assert forall j | 0 <= j < k - 1 :: ps[1..][j] == ps[j + 1];
      }
    }
  }

  /** The armed set grows, so the grant balance can only improve. */
  lemma ArmKeepsBalance(r: Reg, who: set<nat>)
    requires r.redeemed + multiset(r.awaiting) <= r.armed
    ensures Arm(r, who).redeemed + multiset(Arm(r, who).awaiting) <= Arm(r, who).armed
  {
    var q := Arm(r, who);
    forall i: nat
      ensures q.redeemed[i] + multiset(q.awaiting)[i] <= q.armed[i]
    {
      assert r.redeemed[i] + multiset(r.awaiting)[i] <= r.armed[i] by {
        assert (r.redeemed + multiset(r.awaiting))[i] <= r.armed[i];
      }
    }
  }

  /** Taking a grant away either redeems it or drops it; the balance holds both ways. */
  lemma RemovalKeepsBalance(r: Reg, i: nat)
    requires r.redeemed + multiset(r.awaiting) <= r.armed
    ensures i in r.awaiting ==> r.redeemed + multiset{i} + multiset(r.awaiting - {i}) <= r.armed
    ensures r.redeemed + multiset(r.awaiting - {i}) <= r.armed
  {
    var dropped: multiset<nat> := r.redeemed + multiset(r.awaiting - {i});
    var used: multiset<nat> := r.redeemed + multiset{i} + multiset(r.awaiting - {i});
    var before: multiset<nat> := r.redeemed + multiset(r.awaiting);
    forall j: nat
      ensures dropped[j] <= r.armed[j] && (i in r.awaiting ==> used[j] <= r.armed[j])
    {
      assert before[j] <= r.armed[j];
    }
  }

  lemma NgpKeepsSound(r: Reg, n: nat, i: nat, now: nat)
    requires Sound(r, n) && i < n
    ensures Sound(OnNgp(r, i, now), n)
    ensures Immediate(r, i, now) ==> Sound(BuildReg1(r, i, now), n)
  {
    var q := ProbeReply(r.probes, i, now);
    assert |q| == |r.probes| && forall k | 0 <= k < |q| :: q[k].index == r.probes[k].index by {
      ReplyFillsOne(r.probes, i, now);
    }
  }

  lemma RepliesKeepSound(r: Reg, n: nat, i: nat, whole: bool, now: nat)
    requires Sound(r, n) && i < n
    ensures Sound(OnReg2(r, i, whole, now), n)
    ensures Sound(OnReg3(r, i), n)
    ensures Sound(OnRegErr(r, i, now), n)
  {
    RemovalKeepsBalance(r, i);
  }

  lemma TimersKeepSound(r: Reg, n: nat, now: nat)
    requires Sound(r, n)
    ensures Sound(Expire(r, now), n)
    ensures Sound(CheckProbing(r, now), n)
    ensures Sound(Drive(r, n, now).0, n)
  {
    FastestIsFastest(r.probes);
    assert r.probes != [] ==> r.probes[0] in r.probes;
    var q := if Reg1Due(r, now) then
               r.(pending := r.target, deadlineMs := now + REG2_TIMEOUT_MS, nextSendMs := now + REG2_TIMEOUT_MS)
             else r;
    ArmKeepsBalance(q, Unregistered(q.snapshot, n));
  }

  lemma RetriesKeepSound(r: Reg, n: nat, i: nat, now: nat)
    requires Sound(r, n) && i < n
    ensures r.pending.Some? ==> Sound(BuildReg1(r, i, now), n)
    ensures Sound(Arm(r, {i}), n)
  {
    ArmKeepsBalance(r, {i});
  }

  lemma RestartKeepsSound(r: Reg, n: nat, now: nat)
    requires Sound(r, n)
    ensures Sound(StartProbing(ResetForRehome(r), n, now), n)
    ensures Sound(StartProbing(FRESH, n, now), n)
  {
    assert r.redeemed + multiset({}) <= r.armed by {
      assert r.redeemed <= r.redeemed + multiset(r.awaiting);
    }
  }

  // ----- the manager object -----

  function Members(s: seq<nat>): set<nat> {
    set i | i in s
  }

  class SrtlaRegistrationManager {
    var pendingReg2: Option<nat>
    var pendingTimeoutAt: nat
    var activeConnections: nat
    var hasConnected: bool
    var broadcastPending: bool
    var reg1Target: Option<nat>
    var reg1NextSendAt: nat
    var probing: Probing
    var probeResults: seq<Probe>
    var awaitingReg3: seq<nat>
    var connectedSnapshot: seq<bool>
    var outOfPhaseReg3: nat
    var outOfPhaseErr: nat
    ghost var armed: multiset<nat>
    ghost var redeemed: multiset<nat>

    ghost function View(): Reg
      reads this
    {
      Reg(pendingReg2, pendingTimeoutAt, activeConnections, hasConnected, broadcastPending, reg1Target, reg1NextSendAt,
          probing, probeResults, Members(awaitingReg3), connectedSnapshot, outOfPhaseReg3, outOfPhaseErr,
          armed, redeemed)
    }

    constructor ()
      ensures View() == FRESH
    {
      pendingReg2, pendingTimeoutAt := None, 0;
      activeConnections, hasConnected := 0, false;
      broadcastPending := false;
      reg1Target, reg1NextSendAt := None, 0;
      probing, probeResults := NotStarted, [];
      awaitingReg3, connectedSnapshot := [], [];
      outOfPhaseReg3, outOfPhaseErr := 0, 0;
      armed, redeemed := multiset{}, multiset{};
    }

    method BuildReg1For(i: nat, now: nat)
      modifies this
      ensures View() == BuildReg1(old(View()), i, now)
    {
      pendingReg2 := Some(i);
      reg1Target := Some(i);
      pendingTimeoutAt := now + REG2_TIMEOUT_MS;
      reg1NextSendAt := now + REG1_RETRY_MS;
    }

    method ArmGrant(i: nat)
      modifies this`awaitingReg3, this`armed
      ensures View() == Arm(old(View()), {i})
    {
      if i !in awaitingReg3 {
        awaitingReg3 := awaitingReg3 + [i];
      }
      armed := armed + multiset{i};
      assert multiset({i}) == multiset{i};
    }

    method RevokeGrant(i: nat)
      modifies this`awaitingReg3
      ensures View() == old(View()).(awaiting := old(View()).awaiting - {i})
    {
      var kept: seq<nat> := [];
      var k := 0;
      while k < |awaitingReg3|
        invariant 0 <= k <= |awaitingReg3|
        invariant forall j :: j in kept <==> j in awaitingReg3[..k] && j != i
      {
        if awaitingReg3[k] != i {
          kept := kept + [awaitingReg3[k]];
        }
        k := k + 1;
      }
      assert awaitingReg3[..k] == awaitingReg3;
      awaitingReg3 := kept;
    }

    /** Arm the grant of every uplink the snapshot does not show connected. */
    method ArmUnregistered(n: nat)
      modifies this`awaitingReg3, this`armed
      ensures View() == Arm(old(View()), Unregistered(connectedSnapshot, n))
    {
      var i := 0;
      ghost var r := View();
      while i < n
        invariant 0 <= i <= n
        invariant View() == ArmedTo(r, connectedSnapshot, i)
      {
        if !(i < |connectedSnapshot| && connectedSnapshot[i]) {
          ArmGrant(i);
        }
        i := i + 1;
      }
      ArmedOneByOne(r, connectedSnapshot, n);
    }

    method RegDriverPendingSends(n: nat, now: nat) returns (sends: Sends)
      modifies this
      ensures (View(), sends) == Drive(old(View()), n, now)
    {
      sends := Sends(None, false);
      if activeConnections == 0 && reg1Target.Some? && pendingReg2.None? && now >= reg1NextSendAt {
        pendingReg2 := reg1Target;
        pendingTimeoutAt := now + REG2_TIMEOUT_MS;
        reg1NextSendAt := now + REG2_TIMEOUT_MS;
        sends := sends.(reg1 := reg1Target);
      }
      if broadcastPending {
        ArmUnregistered(n);
        sends := sends.(reg2 := true);
        broadcastPending := false;
      }
    }

    method HandleRegNgp(i: nat, now: nat)
      modifies this
      ensures View() == OnNgp(old(View()), i, now)
    {
      if probing == Waiting {
        HandleProbeResponse(i, now);
        return;
      }
      if activeConnections == 0 && pendingReg2.None? {
        reg1Target := Some(i);
        reg1NextSendAt := now;
      }
    }

    /** Answer a REG_NGP with REG1 right away when this uplink is the target and nothing is pending. */
    method Reg1IfNgpImmediate(i: nat, now: nat) returns (sent: bool)
      modifies this
      ensures sent == Immediate(old(View()), i, now)
      ensures View() == if sent then BuildReg1(old(View()), i, now) else old(View())
    {
      sent := activeConnections == 0 && pendingReg2.None? && reg1Target == Some(i) && now >= reg1NextSendAt;
      if sent {
        BuildReg1For(i, now);
      }
    }

    method HandleReg2(i: nat, whole: bool, now: nat)
      modifies this
      ensures View() == OnReg2(old(View()), i, whole, now)
    {
      if whole && pendingReg2 == Some(i) {
        pendingReg2 := None;
        pendingTimeoutAt := now + REG3_TIMEOUT_MS;
        broadcastPending := true;
        reg1Target := None;
        reg1NextSendAt := 0;
      }
    }

    method HandleReg3(i: nat) returns (accepted: bool)
      modifies this
      ensures accepted == (i in old(View()).awaiting) && View() == OnReg3(old(View()), i)
    {
      if i !in awaitingReg3 {
        outOfPhaseReg3 := Min(outOfPhaseReg3 + 1, U64_MAX);
        return false;
      }
      RevokeGrant(i);
      hasConnected := true;
      redeemed := redeemed + multiset{i};
      return true;
    }

    method HandleRegErr(i: nat, now: nat) returns (accepted: bool)
      modifies this
      ensures accepted == ErrInPhase(old(View()), i) && View() == OnRegErr(old(View()), i, now)
    {
      var awaitingReg2 := pendingReg2 == Some(i);
      if !awaitingReg2 && i !in awaitingReg3 {
        outOfPhaseErr := Min(outOfPhaseErr + 1, U64_MAX);
        return false;
      }
      if awaitingReg2 {
        ClearSlot(now + REG2_TIMEOUT_MS);
      }
      RevokeGrant(i);
      return true;
    }

    method UpdateActiveConnections(flags: seq<bool>)
      modifies this
      ensures View() == Snapshot(old(View()), flags)
    {
      var count := 0;
      var i := 0;
      while i < |flags|
        invariant 0 <= i <= |flags|
        invariant count == Count(flags[..i])
      {
        assert flags[..i + 1][..i] == flags[..i];
        if flags[i] {
          count := count + 1;
        }
        i := i + 1;
      }
      assert flags[..|flags|] == flags;
      activeConnections := count;
      connectedSnapshot := flags;
    }

    method ClearPendingIfTimedOut(now: nat)
      modifies this
      ensures View() == Expire(old(View()), now)
    {
      if pendingReg2.Some? && pendingTimeoutAt != 0 && now >= pendingTimeoutAt {
        ClearSlot(now);
      }
    }

    // ----- probing -----

    method BeginProbing(n: nat, now: nat) returns (started: bool)
      modifies this
      ensures started == MayProbe(old(View())) && View() == StartProbing(old(View()), n, now)
    {
      if probing != NotStarted || activeConnections > 0 {
        return false;
      }
      probing := Started;
      probeResults := [];
      var i := 0;
      while i < n
        invariant 0 <= i <= n
        invariant View() == old(View()).(probing := Started,
                                         probes := seq(i, k requires 0 <= k < i => Probe(k, now, None)))
      {
        probeResults := probeResults + [Probe(i, now, None)];
        i := i + 1;
      }
      if probeResults != [] {
        probing := Waiting;
        pendingTimeoutAt := now + PROBE_TIMEOUT_MS;
      } else {
        probing := Complete;
      }
      return true;
    }

    method HandleProbeResponse(i: nat, now: nat)
      modifies this`probeResults
      ensures View() == if old(View()).probing.Waiting? then
                          old(View()).(probes := ProbeReply(old(View()).probes, i, now))
                        else old(View())
    {
      if probing != Waiting {
        return;
      }
      var k := 0;
      while k < |probeResults| && probeResults[k].index != i
        invariant 0 <= k <= |probeResults| && probeResults == old(probeResults)
        invariant ProbeReply(probeResults, i, now) == probeResults[..k] + ProbeReply(probeResults[k..], i, now)
      {
        ReplySkips(probeResults, k, i, now);
        k := k + 1;
      }
      ghost var want := ProbeReply(probeResults, i, now);
      ReplyHits(probeResults, k, i, now);
      if k < |probeResults| && probeResults[k].rtt.None? {
        probeResults := probeResults[k := probeResults[k].(rtt := Some(SatSub(now, probeResults[k].sentMs)))];
      }
      assert probeResults == want;
    }

    /** Scan for the shortest answered round trip. */
    method SelectFastest() returns (best: Option<Probe>, answered: bool)
      ensures best == Fastest(probeResults) && answered == AllAnswered(probeResults)
    {
      best, answered := None, true;
      var k := 0;
      while k < |probeResults|
        invariant 0 <= k <= |probeResults|
        invariant best == Fastest(probeResults[..k])
        invariant answered == AllAnswered(probeResults[..k])
      {
        var p := probeResults[k];
        assert probeResults[..k + 1] == probeResults[..k] + [p];
        assert probeResults[..k + 1][..k] == probeResults[..k];
        if p.rtt.None? {
          answered := false;
        } else if best.None? || p.rtt.value < best.value.rtt.value {
          best := Some(p);
        }
        k := k + 1;
      }
      assert probeResults[..|probeResults|] == probeResults;
    }

    method CheckProbingComplete(clock: nat) returns (done: bool)
      modifies this
      ensures View() == CheckProbing(old(View()), clock) && done == (View() != old(View()))
    {
      if probing != Waiting {
        return false;
      }
      var best, answered := SelectFastest();
      done := answered || clock >= pendingTimeoutAt;
      if done {
        reg1Target := Some(if best.Some? then best.value.index else 0);
        reg1NextSendAt := clock;
        probing := Complete;
        pendingTimeoutAt := 0;
      }
    }

    method DropGrants()
      modifies this`awaitingReg3
      ensures View() == old(View()).(awaiting := {})
    {
      awaitingReg3 := [];
      NoMembers();
    }

    /** Empty the pending slot and forget the REG1 target. */
    method ClearSlot(nextSend: nat)
      modifies this`pendingReg2, this`pendingTimeoutAt, this`reg1Target, this`reg1NextSendAt
      ensures View() == old(View()).(pending := None, deadlineMs := 0, target := None, nextSendMs := nextSend)
    {
      pendingReg2 := None;
      pendingTimeoutAt := 0;
      reg1Target := None;
      reg1NextSendAt := nextSend;
    }

    method ResetProbing()
      modifies this`probing, this`probeResults
      ensures View() == old(View()).(probing := NotStarted, probes := [])
    {
      probing := NotStarted;
      probeResults := [];
    }

    method Rehome()
      modifies this
      ensures View() == ResetForRehome(old(View()))
    {
      ClearSlot(0);
      activeConnections := 0;
      broadcastPending := false;
      DropGrants();
      connectedSnapshot := [];
      ResetProbing();
    }
  }

  lemma NoMembers()
    ensures Members([]) == {}
  {
  }

  /** Arming the unregistered among the first `n` uplinks, one at a time. */
  function ArmedTo(r: Reg, snapshot: seq<bool>, n: nat): Reg {
    if n == 0 then r
    else if n - 1 < |snapshot| && snapshot[n - 1] then ArmedTo(r, snapshot, n - 1)
    else Arm(ArmedTo(r, snapshot, n - 1), {n - 1})
  }

  lemma {:induction false} ArmedOneByOne(r: Reg, snapshot: seq<bool>, n: nat)
    ensures ArmedTo(r, snapshot, n) == Arm(r, Unregistered(snapshot, n))
  {
    if n == 0 {
      assert Unregistered(snapshot, 0) == {};
    } else {
      ArmedOneByOne(r, snapshot, n - 1);
      ArmOneMore(r, snapshot, n - 1);
    }
  }

  lemma ArmOneMore(r: Reg, snapshot: seq<bool>, i: nat)
    ensures Arm(r, Unregistered(snapshot, i + 1))
            == if i < |snapshot| && snapshot[i] then Arm(r, Unregistered(snapshot, i))
               else Arm(Arm(r, Unregistered(snapshot, i)), {i})
  {
    var now, next := Unregistered(snapshot, i), Unregistered(snapshot, i + 1);
    if i < |snapshot| && snapshot[i] {
      assert next == now;
    } else {
      assert next == now + {i};
      assert multiset(now + {i}) == multiset(now) + multiset({i});
    }
  }

  lemma ReplySkips(ps: seq<Probe>, k: nat, i: nat, now: nat)
    requires k < |ps| && ps[k].index != i
    ensures ps[..k] + ProbeReply(ps[k..], i, now) == ps[..k + 1] + ProbeReply(ps[k + 1..], i, now)
  {
    assert ps[k..][1..] == ps[k + 1..];
  }

  lemma ReplyHits(ps: seq<Probe>, k: nat, i: nat, now: nat)
    requires k <= |ps| && (k < |ps| ==> ps[k].index == i)
    requires ProbeReply(ps, i, now) == ps[..k] + ProbeReply(ps[k..], i, now)
    ensures ProbeReply(ps, i, now)
            == if k < |ps| && ps[k].rtt.None? then ps[k := ps[k].(rtt := Some(SatSub(now, ps[k].sentMs)))] else ps
  {
    if k < |ps| {
      assert ps[k..][1..] == ps[k + 1..];
    }
  }
}
