/**
 The housekeeping tick, the whole-bond re-home and the registration half of the
 receive path, on the connection objects.
 */
module Housekeeping {
  import opened Prelude
  import opened Connection
  import opened Links
  import opened Lifecycle
  import Lv = Liveness
  import Rg = Registration
  import Tr = SequenceTracker
  import Sd = Scheduler
  import Ph = PacketHandler

  class RehomeGate {
    const enabled: bool
    var lastProbeMs: Option<nat>

    function View(): Gate
      reads this
    {
      Gate(enabled, lastProbeMs)
    }

    constructor (enabled: bool)
      ensures View() == Gate(enabled, None)
    {
      this.enabled := enabled;
      lastProbeMs := None;
    }

    method ClaimProbe(now: nat) returns (claimed: bool)
      modifies this
      ensures claimed == MayClaim(old(View()), now)
      ensures View() == if claimed then old(View()).(lastProbe := Some(now)) else old(View())
    {
      if !enabled {
        return false;
      }
      if lastProbeMs.Some? && SatSub(now, lastProbeMs.value) < REHOME_MIN_INTERVAL_MS {
        return false;
      }
      lastProbeMs := Some(now);
      return true;
    }
  }

  // ----- one uplink -----

  /** New socket, cold state, no sequence ownership, fresh grace. */
  method RebuildUplink(c: SrtlaConnection, tracker: Tr.Tracker, now: nat)
    requires tracker.Valid()
    modifies c, tracker, tracker.entries
    ensures tracker.Valid() && tracker.ops == old(tracker.ops) + [Tr.Remove(c.id)]
    ensures c.View() == Links.Step(old(c.View()), Reconnect(now))
  {
    c.ResetForReconnect(now);
    tracker.RemoveConnection(c.id);
    c.ResetStartupGrace(now);
  }

  method RenewUplink(c: SrtlaConnection, tracker: Tr.Tracker, rebuilt: bool, now: nat)
    requires tracker.Valid()
    modifies c, tracker, tracker.entries
    ensures tracker.Valid() && tracker.ops == old(tracker.ops) + [Tr.Remove(c.id)]
    ensures c.View() == Renewed(old(c.View()), now, rebuilt)
  {
    c.RecordReconnectAttempt(now);
    if rebuilt {
      RebuildUplink(c, tracker, now);
    } else {
      Ph.RecoverConnection(c, tracker);
    }
  }

  method ResendRegistration(reg: Rg.SrtlaRegistrationManager, i: nat, now: nat) returns (sent: seq<Packet>)
    modifies reg
    ensures reg.View() == if old(reg.View()).pending == Some(i) then Rg.BuildReg1(old(reg.View()), i, now)
                          else if old(reg.View()).pending.Some? then old(reg.View())
                          else Rg.Arm(old(reg.View()), {i})
    ensures sent == if old(reg.View()).pending == Some(i) then [Reg1To(i)]
                    else if old(reg.View()).pending.Some? then [] else [Reg2To(i)]
  {
    sent := [];
    match reg.pendingReg2 {
      case Some(j) =>
        if j == i {
          reg.BuildReg1For(i, now);
          sent := [Reg1To(i)];
        }
      case None =>
        reg.ArmGrant(i);
        sent := [Reg2To(i)];
    }
  }

  method MaintainUplink(c: SrtlaConnection, x: LinkInput, now: nat, classic: bool)
    modifies c
    ensures c.View() == Maintained(old(c.View()), x, now, classic)
  {
    if !classic {
      c.PerformWindowRecovery(x.rising, now);
    }
    c.UpdatePhase(now, x.nakDegraded, x.nakRecovered);
  }

  method VisitUplink(c: SrtlaConnection, reg: Rg.SrtlaRegistrationManager, tracker: Tr.Tracker, i: nat, x: LinkInput,
                     now: nat, classic: bool)
      returns (sent: seq<Packet>)
    requires tracker.Valid()
    modifies c, reg, tracker, tracker.entries
    ensures tracker.Valid() && sent == VisitSends(old(reg.View()), old(c.View()), i, now)
    ensures tracker.ops == old(tracker.ops) + if Renews(old(c.View()), now) then [Tr.Remove(c.id)] else []
    ensures c.View() == VisitLink(old(c.View()), x, now, classic)
    ensures reg.View() == VisitReg(old(reg.View()), old(c.View()), i, now)
  {
    sent := [];
    if c.life.TimedOut(now) {
      if Lv.ShouldAttempt(c.life, now) {
        RenewUplink(c, tracker, x.rebuilt, now);
        sent := ResendRegistration(reg, i, now);
      }
    } else {
      MaintainUplink(c, x, now, classic);
    }
  }

  // ----- the sweep -----

  function Visited(p: Progress, x: TickInput, i: nat): (q: Progress)
    requires i < |p.links| == |x.links|
    ensures |q.links| == |p.links|
  {
    var l := p.links[i];
    Progress(p.links[i := VisitLink(l, x.links[i], x.now, x.classic)], VisitReg(p.reg, l, i, x.now),
             p.ops + if Renews(l, x.now) then [Tr.Remove(l.id)] else [])
  }

  function VisitedTo(p: Progress, x: TickInput, k: nat): (q: Progress)
    requires k <= |p.links| == |x.links|
    ensures |q.links| == |p.links|
  {
    if k == 0 then p else Visited(VisitedTo(p, x, k - 1), x, k - 1)
  }

  lemma {:induction false} VisitsSweepLinks(p: Progress, x: TickInput, k: nat)
    requires k <= |p.links| == |x.links|
    ensures VisitedTo(p, x, k).links == SweepLinks(p.links, x)[..k] + p.links[k..]
  {
    if k > 0 {
      VisitsSweepLinks(p, x, k - 1);
      Frontier(p.links, SweepLinks(p.links, x), k - 1);
    }
  }

  /** Visiting one link after the other is the sweep: no visit looks at a link another one changed. */
  lemma {:induction false} VisitsAreTheSweep(p: Progress, x: TickInput, k: nat)
    requires k <= |p.links| == |x.links|
    ensures var q := VisitedTo(p, x, k);
            q.links == SweepLinks(p.links, x)[..k] + p.links[k..]
            && q.reg == SweepReg(p.reg, p.links, k, x.now) && q.ops == SweepOps(p.ops, p.links, k, x.now)
  {
    VisitsSweepLinks(p, x, k);
    if k > 0 {
      VisitsAreTheSweep(p, x, k - 1);
      assert VisitedTo(p, x, k - 1).links[k - 1] == p.links[k - 1];
    }
  }

  ghost function Now(conns: seq<SrtlaConnection>, reg: Rg.SrtlaRegistrationManager, tracker: Tr.Tracker): Progress
    reads conns, reg, tracker
  {
    Progress(Sd.Views(conns), reg.View(), tracker.ops)
  }

  /** The visit, seen from the whole slice: no other link changes. */
  method VisitAt(conns: seq<SrtlaConnection>, reg: Rg.SrtlaRegistrationManager, tracker: Tr.Tracker, i: nat,
                 x: TickInput)
      returns (sent: seq<Packet>)
    requires Sd.Distinct(conns) && i < |conns| == |x.links| && tracker.Valid()
    modifies conns[i], reg, tracker, tracker.entries
    ensures tracker.Valid()
    ensures Now(conns, reg, tracker) == Visited(old(Now(conns, reg, tracker)), x, i)
    ensures sent == VisitSends(old(Now(conns, reg, tracker)).reg, old(Now(conns, reg, tracker)).links[i], i, x.now)
  {
    sent := VisitUplink(conns[i], reg, tracker, i, x.links[i], x.now, x.classic);
  }

  /** Packets of the first `k` visits. */
  function VisitedSends(p: Progress, x: TickInput, k: nat): seq<Packet>
    requires k <= |p.links| == |x.links|
  {
    if k == 0 then [] else
    var q := VisitedTo(p, x, k - 1);
    VisitedSends(p, x, k - 1) + VisitSends(q.reg, q.links[k - 1], k - 1, x.now)
  }

  /** What visit `k` meets: its own link as it was, and the manager as the earlier visits left it. */
  lemma NextVisit(p: Progress, x: TickInput, k: nat)
    requires k < |p.links| == |x.links|
    ensures VisitedTo(p, x, k).links[k] == p.links[k] && VisitedTo(p, x, k).reg == SweepReg(p.reg, p.links, k, x.now)
  {
    VisitsAreTheSweep(p, x, k);
  }

  lemma {:induction false} VisitedSendsAreTheSweeps(p: Progress, x: TickInput, k: nat)
    requires k <= |p.links| == |x.links|
    ensures VisitedSends(p, x, k) == SweepSends(p.reg, p.links, k, x.now)
  {
    if k > 0 {
      VisitedSendsAreTheSweeps(p, x, k - 1);
      NextVisit(p, x, k - 1);
    }
  }

  /** Visit link `i` of a sweep that started from `p`. */
  method VisitNext(conns: seq<SrtlaConnection>, reg: Rg.SrtlaRegistrationManager, tracker: Tr.Tracker, i: nat,
                   x: TickInput, ghost p: Progress, sent: seq<Packet>)
      returns (more: seq<Packet>)
    requires Sd.Distinct(conns) && i < |conns| == |x.links| == |p.links| && tracker.Valid()
    requires Now(conns, reg, tracker) == VisitedTo(p, x, i) && sent == VisitedSends(p, x, i)
    modifies conns, reg, tracker, tracker.entries
    ensures tracker.Valid()
    ensures Now(conns, reg, tracker) == VisitedTo(p, x, i + 1) && more == VisitedSends(p, x, i + 1)
  {
    var packets := VisitAt(conns, reg, tracker, i, x);
    more := sent + packets;
  }

  method SweepUplinks(conns: seq<SrtlaConnection>, reg: Rg.SrtlaRegistrationManager, tracker: Tr.Tracker, x: TickInput)
      returns (sent: seq<Packet>)
    requires Sd.Distinct(conns) && |x.links| == |conns| && tracker.Valid()
    modifies conns, reg, tracker, tracker.entries
    ensures tracker.Valid()
    ensures Now(conns, reg, tracker) == VisitedTo(old(Now(conns, reg, tracker)), x, |conns|)
    ensures sent == VisitedSends(old(Now(conns, reg, tracker)), x, |conns|)
  {
    ghost var p := Now(conns, reg, tracker);
    sent := [];
    var i := 0;
    while i < |conns|
      invariant 0 <= i <= |conns| && tracker.Valid()
      invariant Now(conns, reg, tracker) == VisitedTo(p, x, i)
      invariant sent == VisitedSends(p, x, i)
    {
      sent := VisitNext(conns, reg, tracker, i, x, p, sent);
      i := i + 1;
    }
  }

  // ----- timers and counts -----

  /** Expire the REG2 wait and complete the probe; `selected` is the uplink a probe that just completed picked. */
  method RunTimers(reg: Rg.SrtlaRegistrationManager, x: TickInput) returns (selected: Option<nat>)
    modifies reg
    ensures reg.View() == Timed(old(reg.View()), x)
    ensures selected == if IsProbing(old(reg.View())) && !IsProbing(reg.View()) then reg.View().target else None
  {
    reg.ClearPendingIfTimedOut(x.now);
    selected := None;
    if reg.probing == Rg.Started || reg.probing == Rg.Waiting {
      var done := reg.CheckProbingComplete(x.clock);
      if !(reg.probing == Rg.Started || reg.probing == Rg.Waiting) {
        selected := reg.reg1Target;
      }
    }
  }

  /** Give the selected uplink a fresh grace period. */
  method GraceSelected(conns: seq<SrtlaConnection>, selected: Option<nat>, now: nat)
    requires Sd.Distinct(conns)
    modifies conns`life
    ensures var ls := old(Sd.Views(conns));
            Sd.Views(conns) == if selected.Some? && selected.value < |ls| then
                                 ls[selected.value := Links.Step(ls[selected.value], Life(Lv.Grace(now)))]
                               else ls
  {
    if selected.Some? && selected.value < |conns| {
      conns[selected.value].ResetStartupGrace(now);
    }
  }

  method ConnectedFlags(conns: seq<SrtlaConnection>) returns (flags: seq<bool>)
    ensures flags == Flags(Sd.Views(conns))
  {
    flags := [];
    var i := 0;
    while i < |conns|
      invariant 0 <= i <= |conns|
      invariant flags == Flags(Sd.Views(conns))[..i]
    {
      flags := flags + [conns[i].life.connected];
      i := i + 1;
    }
  }

  method CountLive(conns: seq<SrtlaConnection>, now: nat) returns (live: nat)
    ensures live == 0 <==> AllDown(Sd.Views(conns), now)
  {
    live := 0;
    var i := 0;
    while i < |conns|
      invariant 0 <= i <= |conns|
      invariant live == 0 ==> forall j | 0 <= j < i :: Sd.Views(conns)[j].life.TimedOut(now)
      invariant live > 0 ==> !AllDown(Sd.Views(conns), now)
    {
      assert Sd.Views(conns)[i] == conns[i].View() && Sd.Views(conns)[i] in Sd.Views(conns);
      if !conns[i].life.TimedOut(now) {
        live := live + 1;
      }
      i := i + 1;
    }
  }

  // ----- re-home -----

  method Repoint(remotes: array<Addr>, to: Addr)
    modifies remotes
    ensures remotes[..] == seq(remotes.Length, i => to)
  {
    var i := 0;
    while i < remotes.Length
      invariant 0 <= i <= remotes.Length
      invariant forall j | 0 <= j < i :: remotes[j] == to
    {
      remotes[i] := to;
      i := i + 1;
    }
  }

  method ResetUplink(c: SrtlaConnection, tracker: Tr.Tracker, x: LinkInput, now: nat)
    requires tracker.Valid()
    modifies c, tracker, tracker.entries
    ensures tracker.Valid() && tracker.ops == old(tracker.ops) + [Tr.Remove(c.id)]
    ensures c.View() == ResetLink(old(c.View()), x, now)
  {
    if x.moved {
      RebuildUplink(c, tracker, now);
    } else {
      Ph.RecoverConnection(c, tracker);
    }
  }

  function ResetAll(ls: seq<Link>, x: TickInput): (ms: seq<Link>)
    requires |x.links| == |ls|
    ensures |ms| == |ls|
  {
    seq(|ls|, i requires 0 <= i < |ls| => ResetLink(ls[i], x.links[i], x.now))
  }

  /** Where a reset pass over `ls` stands after `i` links. */
  predicate ResetTo(now: seq<Link>, ops: seq<Tr.Op>, ls: seq<Link>, was: seq<Tr.Op>, x: TickInput, i: nat)
    requires i <= |ls| == |x.links|
  {
    now == ResetAll(ls, x)[..i] + ls[i..] && ops == was + Removals(ls)[..i]
  }

  lemma ResetAdvances(ls: seq<Link>, was: seq<Tr.Op>, x: TickInput, i: nat, now: seq<Link>, ops: seq<Tr.Op>)
    requires i < |ls| == |x.links| && ResetTo(now, ops, ls, was, x, i)
    ensures now[i] == ls[i]
    ensures ResetTo(now[i := ResetLink(ls[i], x.links[i], x.now)], ops + [Tr.Remove(ls[i].id)], ls, was, x, i + 1)
  {
    Frontier(ls, ResetAll(ls, x), i);
    assert Removals(ls)[..i + 1] == Removals(ls)[..i] + [Tr.Remove(ls[i].id)];
  }

  lemma ResetEnds(ls: seq<Link>, was: seq<Tr.Op>, x: TickInput)
    requires |ls| == |x.links|
    ensures ResetTo(ls, was, ls, was, x, 0)
    ensures forall now, ops :: ResetTo(now, ops, ls, was, x, |ls|) ==>
              now == ResetAll(ls, x) && ops == was + Removals(ls)
  {
    FrontierDone(ls, ResetAll(ls, x));
    assert Removals(ls)[..|ls|] == Removals(ls) && was + Removals(ls)[..0] == was;
  }

  /** Reset link `i` of a pass that started from `ls` and `was`. */
  method ResetNext(conns: seq<SrtlaConnection>, i: nat, tracker: Tr.Tracker, x: TickInput, ghost ls: seq<Link>,
                   ghost was: seq<Tr.Op>)
    requires Sd.Distinct(conns) && i < |conns| == |ls| == |x.links| && tracker.Valid()
    requires ResetTo(Sd.Views(conns), tracker.ops, ls, was, x, i)
    modifies conns, tracker, tracker.entries
    ensures tracker.Valid() && ResetTo(Sd.Views(conns), tracker.ops, ls, was, x, i + 1)
  {
    ghost var now, ops := Sd.Views(conns), tracker.ops;
    ResetAdvances(ls, was, x, i, now, ops);
    ResetUplink(conns[i], tracker, x.links[i], x.now);
    assert Sd.Views(conns) == now[i := ResetLink(ls[i], x.links[i], x.now)];
  }

  method ResetUplinks(conns: seq<SrtlaConnection>, tracker: Tr.Tracker, x: TickInput)
    requires Sd.Distinct(conns) && |x.links| == |conns| && tracker.Valid()
    modifies conns, tracker, tracker.entries
    ensures tracker.Valid() && tracker.ops == old(tracker.ops) + Removals(old(Sd.Views(conns)))
    ensures Sd.Views(conns) == ResetAll(old(Sd.Views(conns)), x)
  {
    ghost var ls, was := Sd.Views(conns), tracker.ops;
    ResetEnds(ls, was, x);
    var i := 0;
    while i < |conns|
      invariant 0 <= i <= |conns| && tracker.Valid()
      invariant ResetTo(Sd.Views(conns), tracker.ops, ls, was, x, i)
    {
      ResetNext(conns, i, tracker, x, ls, was);
      i := i + 1;
    }
  }

  /** Sending the probes restarts every uplink's grace period. */
  method GraceAll(conns: seq<SrtlaConnection>, now: nat)
    requires Sd.Distinct(conns)
    modifies conns`life
    ensures forall i | 0 <= i < |conns| :: conns[i].View() == Links.Step(old(Sd.Views(conns))[i], Life(Lv.Grace(now)))
  {
    ghost var ls := Sd.Views(conns);
    var i := 0;
    while i < |conns|
      invariant 0 <= i <= |conns|
      invariant forall j | 0 <= j < i :: conns[j].life == Lv.ArmGrace(ls[j].life, now)
      invariant forall j | i <= j < |conns| :: conns[j].life == ls[j].life
    {
      conns[i].ResetStartupGrace(now);
      i := i + 1;
    }
  }

  ghost function BondOf(conns: seq<SrtlaConnection>, reg: Rg.SrtlaRegistrationManager, tracker: Tr.Tracker,
                        remotes: array<Addr>, gate: RehomeGate, failedAt: Option<nat>): Bond
    reads conns, reg, tracker, remotes, gate
  {
    Bond(reg.View(), Sd.Views(conns), remotes[..], tracker.ops, failedAt, gate.View())
  }

  /** Reset every link and send its probe. */
  method RestartLinks(conns: seq<SrtlaConnection>, tracker: Tr.Tracker, x: TickInput)
    requires Sd.Distinct(conns) && |x.links| == |conns| && tracker.Valid()
    modifies conns, tracker, tracker.entries
    ensures tracker.Valid() && tracker.ops == old(tracker.ops) + Removals(old(Sd.Views(conns)))
    ensures Sd.Views(conns) == MovedLinks(old(Sd.Views(conns)), x)
  {
    ResetUplinks(conns, tracker, x);
    GraceAll(conns, x.now);
    assert forall i | 0 <= i < |conns| :: Sd.Views(conns)[i] == MovedLinks(old(Sd.Views(conns)), x)[i];
  }

  method RestartRegistration(reg: Rg.SrtlaRegistrationManager, n: nat, now: nat)
    modifies reg
    ensures reg.View() == Rg.StartProbing(Rg.ResetForRehome(old(reg.View())), n, now)
  {
    reg.Rehome();
    var started := reg.BeginProbing(n, now);
  }

  method RestartBond(conns: seq<SrtlaConnection>, reg: Rg.SrtlaRegistrationManager, tracker: Tr.Tracker, x: TickInput)
    requires Sd.Distinct(conns) && |x.links| == |conns| && tracker.Valid()
    modifies conns, reg, tracker, tracker.entries
    ensures tracker.Valid() && tracker.ops == old(tracker.ops) + Removals(old(Sd.Views(conns)))
    ensures Sd.Views(conns) == MovedLinks(old(Sd.Views(conns)), x)
    ensures reg.View() == Rg.StartProbing(Rg.ResetForRehome(old(reg.View())), |conns|, x.now)
  {
    RestartLinks(conns, tracker, x);
    RestartRegistration(reg, |conns|, x.now);
  }

  /** All remotes first, then every link, then the handshake from the start. */
  method RehomeBond(conns: seq<SrtlaConnection>, reg: Rg.SrtlaRegistrationManager, tracker: Tr.Tracker,
                    remotes: array<Addr>, gate: RehomeGate, to: Addr, x: TickInput)
    requires Sd.Distinct(conns) && |x.links| == |conns| == remotes.Length && tracker.Valid()
    modifies conns, reg, tracker, tracker.entries, remotes
    ensures tracker.Valid()
    ensures BondOf(conns, reg, tracker, remotes, gate, None)
            == Moved(old(BondOf(conns, reg, tracker, remotes, gate, None)), to, x)
  {
    Repoint(remotes, to);
    RestartBond(conns, reg, tracker, x);
  }

  /** The addresses in use, each once. */
  method PinnedRemotes(remotes: array<Addr>) returns (current: seq<Addr>)
    ensures forall a :: a in current <==> a in remotes[..]
  {
    current := [];
    var i := 0;
    while i < remotes.Length
      invariant 0 <= i <= remotes.Length
      invariant forall a :: a in current <==> a in remotes[..i]
    {
      if remotes[i] !in current {
        current := current + [remotes[i]];
      }
      i := i + 1;
    }
    assert remotes[..remotes.Length] == remotes[..];
  }

  method HasReceiverMoved(current: seq<Addr>, found: seq<Addr>) returns (moved: bool)
    ensures moved == ReceiverMoved(current, found)
  {
    var i := 0;
    while i < |current|
      invariant 0 <= i <= |current|
      invariant forall j | 0 <= j < i :: Drifted(current[j], found)
    {
      if found == [] || current[i] in found {
        assert current[i] in current;
        return false;
      }
      i := i + 1;
    }
    return current != [];
  }

  /** Drift is a question about the set of addresses, so listing each one once changes nothing. */
  lemma DriftIgnoresRepeats(current: seq<Addr>, remotes: seq<Addr>, found: seq<Addr>)
    requires forall a :: a in current <==> a in remotes
    ensures (current == [] <==> remotes == []) && (ReceiverMoved(current, found) <==> ReceiverMoved(remotes, found))
  {
    assert current != [] ==> current[0] in current;
    assert remotes != [] ==> remotes[0] in remotes;
  }

  /**
   Decide on a re-home: spend a probe slot, look the name up, and move only if it answers
   with none of our addresses.
   */
  method DecideRehome(remotes: array<Addr>, gate: RehomeGate, answer: Option<seq<Addr>>, now: nat)
      returns (to: Option<Addr>)
    modifies gate
    ensures var probes := remotes.Length > 0 && MayClaim(old(gate.View()), now);
            gate.View() == (if probes then old(gate.View()).(lastProbe := Some(now)) else old(gate.View()))
            && to == if probes && answer.Some? && ReceiverMoved(remotes[..], answer.value) then Some(answer.value[0])
                     else None
  {
    var current := PinnedRemotes(remotes);
    DriftIgnoresRepeats(current, remotes[..], if answer.Some? then answer.value else []);
    to := None;
    if current == [] {
      return;
    }
    var claimed := gate.ClaimProbe(now);
    if !claimed || answer.None? {
      return;
    }
    var moved := HasReceiverMoved(current, answer.value);
    if moved {
      to := Some(answer.value[0]);
    }
  }

  // ----- the tick -----

  /** Timers, with the grace they give the uplink a completed probe selected. */
  method TimeBond(conns: seq<SrtlaConnection>, reg: Rg.SrtlaRegistrationManager, tracker: Tr.Tracker, x: TickInput)
    requires Sd.Distinct(conns) && tracker.Valid()
    modifies conns`life, reg
    ensures tracker.Valid()
    ensures Now(conns, reg, tracker) == AfterTimers(old(Now(conns, reg, tracker)), x)
  {
    ghost var r, ls := reg.View(), Sd.Views(conns);
    var selected := RunTimers(reg, x);
    GraceSelected(conns, selected, x.now);
    GracedBySelection(r, ls, x);
  }

  lemma GracedBySelection(r: Rg.Reg, ls: seq<Link>, x: TickInput)
    ensures var t := Timed(r, x);
            var selected := if IsProbing(r) && !IsProbing(t) then t.target else None;
            Graced(r, ls, x) == if selected.Some? && selected.value < |ls| then
                                  ls[selected.value := Links.Step(ls[selected.value], Life(Lv.Grace(x.now)))]
                                else ls
  {
  }

  method RefreshUplinks(conns: seq<SrtlaConnection>, reg: Rg.SrtlaRegistrationManager, tracker: Tr.Tracker,
                        x: TickInput)
      returns (sent: seq<Packet>)
    requires Sd.Distinct(conns) && |x.links| == |conns| && tracker.Valid()
    modifies conns, reg, tracker, tracker.entries
    ensures tracker.Valid()
    ensures var p := old(Now(conns, reg, tracker));
            Now(conns, reg, tracker) == AfterSweep(p, x) && sent == SweepSends(p.reg, p.links, |conns|, x.now)
  {
    ghost var p := Now(conns, reg, tracker);
    sent := SweepUplinks(conns, reg, tracker, x);
    assert VisitedTo(p, x, |conns|) == AfterSweep(p, x) by {
      VisitsAreTheSweep(p, x, |conns|);
    }
    VisitedSendsAreTheSweeps(p, x, |conns|);
  }

  method DriveBond(conns: seq<SrtlaConnection>, reg: Rg.SrtlaRegistrationManager, tracker: Tr.Tracker, now: nat)
      returns (sent: seq<Packet>)
    requires tracker.Valid()
    modifies reg
    ensures tracker.Valid()
    ensures Now(conns, reg, tracker) == AfterDriver(old(Now(conns, reg, tracker)), now)
    ensures sent == DriverSends(Rg.Drive(Rg.Snapshot(old(reg.View()), Flags(Sd.Views(conns))), |conns|, now).1)
  {
    var flags := ConnectedFlags(conns);
    reg.UpdateActiveConnections(flags);
    var sends := reg.RegDriverPendingSends(|conns|, now);
    sent := DriverSends(sends);
  }

  /** What the sweep and the driver send. */
  function SweptSends(p: Progress, x: TickInput): seq<Packet>
    requires |x.links| == |p.links|
  {
    var q := AfterSweep(p, x);
    SweepSends(p.reg, p.links, |p.links|, x.now)
    + DriverSends(Rg.Drive(Rg.Snapshot(q.reg, Flags(q.links)), |q.links|, x.now).1)
  }

  /** Everything up to the liveness count. */
  method SweepBond(conns: seq<SrtlaConnection>, reg: Rg.SrtlaRegistrationManager, tracker: Tr.Tracker, x: TickInput)
      returns (sent: seq<Packet>)
    requires Sd.Distinct(conns) && |x.links| == |conns| && tracker.Valid()
    modifies conns, reg, tracker, tracker.entries
    ensures tracker.Valid()
    ensures var p := AfterTimers(old(Now(conns, reg, tracker)), x);
            Now(conns, reg, tracker) == AfterDriver(AfterSweep(p, x), x.now) && sent == SweptSends(p, x)
  {
    TimeBond(conns, reg, tracker, x);
    var resent := RefreshUplinks(conns, reg, tracker, x);
    var driven := DriveBond(conns, reg, tracker, x.now);
    sent := resent + driven;
  }

  method SettleBond(conns: seq<SrtlaConnection>, reg: Rg.SrtlaRegistrationManager, tracker: Tr.Tracker,
                    remotes: array<Addr>, gate: RehomeGate, failedAt: Option<nat>, x: TickInput)
    returns (failed: Option<nat>, gaveUp: bool, sent: seq<Packet>)
    requires Sd.Distinct(conns) && |x.links| == |conns| == remotes.Length && tracker.Valid()
    modifies conns, reg, tracker, tracker.entries, remotes, gate
    ensures tracker.Valid()
    ensures var b := old(BondOf(conns, reg, tracker, remotes, gate, failedAt));
            BondOf(conns, reg, tracker, remotes, gate, failed) == Settled(b, x)
            && gaveUp == (Overdue(b, x.now) && !Relocates(b, x))
            && sent == if Relocates(b, x) then seq(|conns|, i requires 0 <= i => ProbeTo(i)) else []
  {
    sent := [];
    var live := CountLive(conns, x.now);
    if live > 0 {
      return None, false, sent;
    }
    failed := if failedAt.Some? then failedAt else Some(x.now);
    if SatSub(x.now, failed.value) <= GLOBAL_TIMEOUT_MS {
      return failed, false, sent;
    }
    var to := DecideRehome(remotes, gate, x.answer, x.now);
    if to.None? {
      return failed, true, sent;
    }
    RehomeBond(conns, reg, tracker, remotes, gate, to.value, x);
    return Some(x.now), false, seq(|conns|, i requires 0 <= i => ProbeTo(i));
  }

  /** One tick; `gaveUp` is its error return and `sent` the registration packets it sends. */
  method HandleHousekeeping(conns: seq<SrtlaConnection>, reg: Rg.SrtlaRegistrationManager, tracker: Tr.Tracker,
                            remotes: array<Addr>, gate: RehomeGate, failedAt: Option<nat>, x: TickInput)
    returns (failed: Option<nat>, gaveUp: bool, sent: seq<Packet>)
    requires Sd.Distinct(conns) && |x.links| == |conns| == remotes.Length && tracker.Valid()
    modifies conns, reg, tracker, tracker.entries, remotes, gate
    ensures tracker.Valid()
    ensures var b := old(BondOf(conns, reg, tracker, remotes, gate, failedAt));
            BondOf(conns, reg, tracker, remotes, gate, failed) == Tick(b, x)
            && gaveUp == GivesUp(b, x) && sent == TickSends(b, x)
  {
    ghost var b := BondOf(conns, reg, tracker, remotes, gate, failedAt);
    var first := SweepBond(conns, reg, tracker, x);
    ghost var m := BondOf(conns, reg, tracker, remotes, gate, failedAt);
    assert m == Swept(b, x);
    var second;
    failed, gaveUp, second := SettleBond(conns, reg, tracker, remotes, gate, failedAt, x);
    sent := first + second;
    SendsInOrder(b, x);
  }

  lemma SendsInOrder(b: Bond, x: TickInput)
    requires |x.links| == |b.links|
    ensures TickSends(b, x) == SweptSends(AfterTimers(Progress(b.links, b.reg, b.ops), x), x)
                               + if Relocates(Swept(b, x), x) then seq(|b.links|, i requires 0 <= i => ProbeTo(i))
                                 else []
  {
  }

  // ----- the receive path -----

  /** A REG3 completes the registration it was granted for; otherwise it is any datagram. */
  method ReceiveReg3(c: SrtlaConnection, reg: Rg.SrtlaRegistrationManager, i: nat, now: nat)
    modifies c, reg
    ensures reg.View() == FrameReg(old(reg.View()), i, now, Frame.Reg3)
    ensures c.View() == FrameLink(old(reg.View()), old(c.View()), i, now, Frame.Reg3)
  {
    var accepted := reg.HandleReg3(i);
    if accepted {
      c.CompleteRegistration(now);
    } else {
      c.NoteReceived(now);
    }
  }

  method ReceiveRegErr(c: SrtlaConnection, reg: Rg.SrtlaRegistrationManager, i: nat, now: nat)
    modifies c, reg
    ensures reg.View() == FrameReg(old(reg.View()), i, now, Frame.RegErr)
    ensures c.View() == FrameLink(old(reg.View()), old(c.View()), i, now, Frame.RegErr)
  {
    var accepted := reg.HandleRegErr(i, now);
    if accepted {
      c.FailRegistration();
    } else {
      c.NoteReceived(now);
    }
  }

  /** What a datagram from the receiver does to registration and liveness. */
  method ProcessUplinkPacket(c: SrtlaConnection, reg: Rg.SrtlaRegistrationManager, i: nat, now: nat, f: Frame)
    modifies c, reg
    ensures reg.View() == FrameReg(old(reg.View()), i, now, f)
    ensures c.View() == FrameLink(old(reg.View()), old(c.View()), i, now, f)
  {
    match f {
      case Ngp =>
        reg.HandleRegNgp(i, now);
        var sent := reg.Reg1IfNgpImmediate(i, now);
      case Reg2(whole) =>
        reg.HandleReg2(i, whole, now);
      case Reg3 =>
        ReceiveReg3(c, reg, i, now);
      case RegErr =>
        ReceiveRegErr(c, reg, i, now);
      case Other =>
        c.NoteReceived(now);
    }
  }
}
