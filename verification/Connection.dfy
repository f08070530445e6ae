/**
 The connection object.  Its fields are grouped into the records of the modules
 that specify them; every method updates them in place and is proved equal to the
 corresponding step on values.
 */
module Connection {
  import opened Prelude
  import opened Links
  import Lv = Liveness
  import Fl = Flow
  import Cg = Congestion
  import St = Stall
  import Serial

  class SrtlaConnection {
    const id: nat
    var life: Lv.Life
    var account: Fl.Account
    var guard: St.Guard
    var ramp: St.Ramp
    var role: Role
    var excluded: bool
    var budgetMs: nat
    var quality: Quality
    var signals: Signals

    function View(): Link
      reads this
    {
      Link(id, life, account, guard, ramp, role, excluded, budgetMs, quality, signals)
    }

    constructor (id: nat, now: nat, signals: Signals)
      ensures View() == NewLink(id, now, signals)
    {
      this.id := id;
      life := Lv.NewRegistering(now);
      account := Fl.COLD;
      guard := St.CLEAR;
      ramp := St.NO_RAMP;
      role := NO_ROLE;
      excluded := false;
      budgetMs := 0;
      quality := Quality(1.0, 0);
      this.signals := signals;
    }

    // ----- in-flight accounting -----

    method RegisterPacket(seqNo: int, at: nat)
      modifies this`account
      ensures account == Fl.Register(old(account), seqNo, at)
    {
      account := account.(packets := account.packets[seqNo := at]);
      account := account.(inFlight := |account.packets|);
    }

    method QueueDataPacket(q: Fl.Queued)
      modifies this`account
      ensures account == Fl.Enqueue(old(account), q)
    {
      account := account.(queue := account.queue + [q]);
    }

    /** Record an outstanding probe, expiring old ones once the log is full. */
    method RecordProbe(seqNo: int, at: nat)
      modifies this`account
      ensures account == old(account).(probes := Fl.RecordProbe(old(account).probes, seqNo, at))
    {
      if |account.probes| >= Fl.PROBE_LOG_SOFT_CAP {
        var cutoff := SatSub(at, Fl.PROBE_LOG_MAX_AGE_MS);
        account := account.(probes := map s | s in account.probes && account.probes[s] >= cutoff :: account.probes[s]);
        if |account.probes| >= Fl.PROBE_LOG_SOFT_CAP {
          account := account.(probes := map[]);
        }
      }
      account := account.(probes := account.probes[seqNo := at]);
    }

    method QueueProbePacket(seqNo: int, at: nat)
      modifies this`account
      ensures account == Fl.QueueProbe(old(account), seqNo, at)
    {
      RecordProbe(seqNo, at);
      account := account.(queue := account.queue + [Fl.Untracked(at)]);
    }

    /** Drain the queue and register every tracked datagram of it. */
    method TakeBatch() returns (batch: seq<Fl.Queued>)
      modifies this`account
      ensures batch == old(account).queue && account == Fl.TakeBatch(old(account))
    {
      batch := account.queue;
      account := account.(queue := []);
      ghost var start := account;
      var i := 0;
      while i < |batch|
        invariant 0 <= i <= |batch|
        invariant account == Fl.RegisterAll(start, batch[..i])
      {
        assert batch[..i + 1][..i] == batch[..i];
        if batch[i].Tracked? {
          RegisterPacket(batch[i].seqNo, batch[i].at);
        }
        i := i + 1;
      }
      assert batch[..|batch|] == batch;
    }

    /** Step through the newly acknowledged range, removing each number. */
    method WalkRange(from: int, n: nat)
      modifies this`account
      ensures account == old(account).(packets := old(account).packets - Fl.Following(from, n))
    {
      ghost var log := account.packets;
      ghost var rest := account;
      var s := from;
      var i := 0;
      while i < n
        invariant 0 <= i <= n
        invariant s == if i == 0 then from else Serial.Advance(from, i)
        invariant account == rest.(packets := log - Fl.Following(from, i))
      {
        AdvanceStep(from, i, s);
        s := Serial.Next(s);
        account := account.(packets := account.packets - {s});
        assert Fl.Following(from, i + 1) == Fl.Following(from, i) + {s} by {
          FollowingGrows(from, i);
        }
        i := i + 1;
      }
    }

    // ----- round trips -----

    method RecordRoundTrip(sentMs: nat, now: nat)
      modifies this`account
      ensures account == old(account).(rtt := Fl.Sample(old(account).rtt, sentMs, now))
    {
      var rtt := SatSub(now, sentMs);
      if rtt != 0 && rtt <= Fl.MAX_PLAUSIBLE_RTT_MS {
        var trips := account.rtt.trips + [Fl.RoundTrip(sentMs, now)];
        account := account.(rtt := account.rtt.(trips := trips, lastSampleMs := now));
      }
    }

    method NoteKeepaliveSent(now: nat)
      modifies this`account
      ensures account == Fl.KeepaliveSent(old(account), now)
    {
      var last := account.rtt.lastSampleMs;
      if !account.rtt.echoDue && (last == 0 || SatSub(now, last) > Fl.ECHO_REARM_MS) {
        account := account.(rtt := account.rtt.(echoDue := true));
      }
    }

    /** `stamp` is the send time the echo carries, if it is long enough to carry one. */
    method HandleKeepaliveEcho(stamp: Option<nat>, now: nat)
      modifies this`account
      ensures account == Fl.KeepaliveEcho(old(account), stamp, now)
    {
      if account.rtt.echoDue {
        if stamp.Some? {
          RecordRoundTrip(stamp.value, now);
        }
        account := account.(rtt := account.rtt.(echoDue := false));
      }
      if stamp.Some? && Fl.Plausible(stamp.value, now) {
        account := account.(lastProofMs := now);
      }
    }

    // ----- acknowledgements -----

    method HandleSrtAck(field: int, now: nat, owns: bool)
      modifies this`account
      ensures account == Fl.SrtAck(old(account), field, now, owns)
    {
      var ack := Serial.Normalize(field);
      var prev := account.highestAcked;
      if prev.Some? && !Serial.After(ack, prev.value) {
        return;
      }
      var sent := if ack in account.packets then Some(account.packets[ack]) else None;
      account := account.(highestAcked := Some(ack));
      if prev.Some? && Serial.Diff(ack, prev.value) <= Fl.TARGETED_REMOVAL_LIMIT {
        WalkRange(prev.value, Serial.Diff(ack, prev.value));
      } else {
        account := account.(packets := map s | s in account.packets && Serial.After(s, ack) :: account.packets[s]);
      }
      account := account.(inFlight := |account.packets|);
      if owns && sent.Some? {
        RecordRoundTrip(sent.value, now);
      }
    }

    method HandleNak(seqNo: int, now: nat) returns (found: bool)
      modifies this`account
      ensures found == (seqNo in old(account).packets) && account == Fl.Nak(old(account), seqNo, now)
    {
      found := seqNo in account.packets;
      if found {
        account := account.(packets := account.packets - {seqNo});
        account := account.(inFlight := |account.packets|);
        CongestionNak(now);
      }
    }

    method HandleSrtlaAckSpecific(seqNo: int, classic: bool, now: nat) returns (found: bool)
      modifies this`account
      ensures found == Fl.Matches(old(account), seqNo) && account == Fl.SrtlaAck(old(account), seqNo, classic, now)
    {
      if seqNo in account.probes {
        var sent := account.probes[seqNo];
        account := account.(probes := account.probes - {seqNo}, lastProofMs := now);
        RecordRoundTrip(sent, now);
        return true;
      }
      found := seqNo in account.packets;
      if found {
        var sent := account.packets[seqNo];
        account := account.(packets := account.packets - {seqNo});
        account := account.(inFlight := |account.packets|);
        account := account.(lastProofMs := now);
        RecordRoundTrip(sent, now);
        CongestionAck(classic);
      }
    }

    method HandleSrtlaAckGlobal()
      modifies this`account
      ensures account == Fl.GlobalAck(old(account), life.connected && life.lastReceived.Some?)
    {
      if life.connected && life.lastReceived.Some? {
        SetWindow(Min(account.cwnd.window + 1, Cg.WINDOW_CEIL));
      }
    }

    // ----- congestion window -----

    method SetWindow(w: int)
      modifies this`account
      ensures account == old(account).(cwnd := old(account).cwnd.(window := w))
    {
      account := account.(cwnd := account.cwnd.(window := w));
    }

    method SetControl(c: Cg.Control)
      modifies this`account
      ensures account == old(account).(cwnd := old(account).cwnd.(control := c))
    {
      account := account.(cwnd := account.cwnd.(control := c));
    }

    method CongestionNak(now: nat)
      modifies this`account
      ensures account == old(account).(cwnd := Cg.OnNak(old(account).cwnd, now))
    {
      var c := account.cwnd.control;
      c := c.(nakCount := Cg.SatInc(c.nakCount));
      if c.lastNakMs > 0 && SatSub(now, c.lastNakMs) < Cg.NAK_BURST_WINDOW_MS {
        if c.burstCount == 0 {
          c := c.(burstCount := 2, burstStartMs := c.lastNakMs);
        } else {
          c := c.(burstCount := Cg.SatInc(c.burstCount));
        }
      } else {
        c := c.(burstCount := 0, burstStartMs := 0);
      }
      c := c.(lastNakMs := now, acksWithoutNak := 0);
      var window := Max(account.cwnd.window - Cg.WINDOW_DECR, Cg.WINDOW_FLOOR);
      if window <= Cg.FAST_RECOVERY_ENTER && !c.fastRecovery {
        c := c.(fastRecovery := true, fastRecoveryStartMs := now);
      }
      SetWindow(window);
      SetControl(c);
    }

    method CongestionAck(classic: bool)
      modifies this`account
      ensures account == old(account).(cwnd := Cg.OnEarnedAck(old(account).cwnd, old(account).inFlight, classic))
    {
      if Min(account.inFlight * Cg.WINDOW_MULT, Cg.I32_MAX) > account.cwnd.window {
        SetWindow(Min(account.cwnd.window + Cg.WINDOW_INCR - 1, Cg.WINDOW_CEIL));
      }
      if !classic && account.cwnd.control.fastRecovery && account.cwnd.window >= Cg.FAST_RECOVERY_LEAVE {
        SetControl(account.cwnd.control.(fastRecovery := false));
      }
    }

    method PerformWindowRecovery(rising: bool, now: nat)
      modifies this`account
      ensures account == Fl.RecoverWindow(old(account), life.connected, rising, now)
    {
      if !life.connected || account.cwnd.window >= Cg.WINDOW_CEIL {
        return;
      }
      var c := account.cwnd.control;
      var quiet := if c.lastNakMs > 0 then SatSub(now, c.lastNakMs) else U64_MAX;
      if quiet >= Cg.NAK_BURST_WINDOW_MS && c.burstCount > 0 {
        c := c.(burstCount := 0, burstStartMs := 0);
      }
      var minWait, gap := 2000, 1000;
      if c.fastRecovery {
        minWait, gap := 500, 300;
      }
      if quiet > minWait && SatSub(now, c.lastIncreaseMs) > gap {
        var window := Min(account.cwnd.window + Cg.RecoveryIncrement(quiet, c.fastRecovery, rising), Cg.WINDOW_CEIL);
        SetWindow(window);
        c := c.(lastIncreaseMs := now);
        if c.fastRecovery && window >= Cg.FAST_RECOVERY_LEAVE {
          c := c.(fastRecovery := false);
        }
      }
      SetControl(c);
    }

    // ----- stall guard -----

    method ArmRejoinRamp(now: nat, lengthMs: nat, fromStallGate: bool)
      modifies this`ramp
      ensures ramp == St.ArmRamp(old(ramp), now, lengthMs, fromStallGate)
    {
      if St.Multiplier(ramp, now) < 1.0 {
        return;
      }
      ramp := St.Ramp(now, lengthMs, fromStallGate);
    }

    method UpdateSilencePull(now: nat, lim: St.Limits)
      modifies this`guard
      ensures guard == St.UpdatePull(old(guard), View().Reading(), lim, now)
    {
      var r := View().Reading();
      if St.BrieflySilent(r, lim, now) {
        if !guard.pulled {
          guard := guard.(pulls := guard.pulls + 1);
        }
        guard := guard.(pulled := true);
        return;
      }
      if !guard.pulled {
        return;
      }
      if St.Spoke(r, lim, now) || !r.connected {
        guard := guard.(pulled := false);
      }
    }

    method UpdateStallLatch(now: nat, lim: St.Limits)
      modifies this`guard, this`ramp
      ensures guard == St.UpdateLatch(old(guard), View().Reading(), lim, now)
      ensures ramp == St.UpdateRamp(old(guard), old(ramp), View().Reading(), lim, now)
    {
      var r := View().Reading();
      if St.Stalled(r, lim, now) || (guard.pulled && St.ProofStale(r, lim, now)) {
        if guard.latchedSince == 0 {
          var probation := SatMul(St.StaleMs(r, lim), St.REJOIN_PROBATION_MULT);
          guard := guard.(backoff := St.BackoffNext(guard.backoff, guard.releasedAt,
                                                    SatSub(now, guard.releasedAt), probation));
          guard := guard.(latchedSince := now);
          guard := guard.(gateEvents := guard.gateEvents + 1);
        }
        guard := guard.(recoverySince := 0);
        return;
      }
      if guard.latchedSince == 0 {
        return;
      }
      if !St.ProofFresh(r, lim, now) {
        guard := guard.(recoverySince := 0);
        return;
      }
      if guard.recoverySince == 0 {
        guard := guard.(recoverySince := now);
      }
      var baseDwell := SatMul(St.StaleMs(r, lim), St.REJOIN_DWELL_MULT);
      var dwell := SatMul(baseDwell, Max(guard.backoff, 1));
      if SatSub(now, guard.recoverySince) >= dwell {
        guard := guard.(latchedSince := 0);
        guard := guard.(recoverySince := 0);
        guard := guard.(releasedAt := now);
        ArmRejoinRamp(now, baseDwell, true);
      }
    }

    method ClearStallLatch()
      modifies this`guard, this`ramp
      ensures guard == St.ClearLatch(old(guard)) && ramp == St.ClearStallRamp(old(ramp))
    {
      guard := guard.(latchedSince := 0, recoverySince := 0);
      guard := guard.(releasedAt := 0, backoff := 0);
      if ramp.fromStallGate {
        ramp := St.Ramp(0, 0, false);
      }
    }

    // ----- liveness -----

    method RecordReconnectAttempt(now: nat)
      modifies this`life
      ensures life == Lv.RecordAttempt(old(life), now)
    {
      life := life.(lastAttemptMs := now);
      if life.establishedMs != 0 {
        life := life.(failures := Min(life.failures + 1, 0xFFFF_FFFF));
      }
    }

    method ResetStartupGrace(now: nat)
      modifies this`life
      ensures life == Lv.ArmGrace(old(life), now)
    {
      life := life.(graceDeadlineMs := now + Lv.STARTUP_GRACE_MS);
    }

    method UpdatePhase(now: nat, nakDegraded: bool, nakRecovered: bool)
      modifies this`life
      ensures life == Lv.UpdatePhase(old(life), now, nakDegraded, nakRecovered, signals.lossDegraded)
    {
      match life.phase {
        case Warming(_, entered) =>
          if SatSub(now, entered) >= Lv.WARMING_TIMEOUT_MS {
            life := life.(phase := Lv.Live);
          }
        case Live =>
          if nakDegraded || signals.lossDegraded {
            life := life.(phase := Lv.Degraded);
          }
        case Degraded =>
          if nakRecovered && !signals.lossDegraded {
            life := life.(phase := Lv.Live);
          }
        case Registering =>
      }
    }

    /** Any datagram that is not a registration frame in phase. */
    method NoteReceived(now: nat)
      modifies this`life
      ensures life == Lv.OnDatagram(old(life), now)
    {
      if life.connected || life.establishedMs == 0 {
        life := life.(lastReceived := Some(now));
      }
    }

    /** The effects of an accepted REG_ERR. */
    method FailRegistration()
      modifies this`life
      ensures life == Lv.OnRegErr(old(life))
    {
      life := life.(connected := false);
      life := life.(lastReceived := None);
    }

    // ----- resets -----

    method ResetCoreState()
      modifies this
      ensures View() == ResetCommon(old(View())).(account := Fl.ResetCore(old(account)).(rtt := old(account).rtt),
                                                  life := old(life).(connected := false, phase := Lv.Registering))
    {
      life := life.(connected := false);
      SetWindow(Cg.WINDOW_START);
      account := account.(inFlight := 0, packets := map[], probes := map[], highestAcked := None, queue := []);
      life := life.(phase := Lv.Registering);
      account := account.(lastProofMs := 0);
      guard := guard.(gated := false, latchedSince := 0, recoverySince := 0);
      guard := guard.(releasedAt := 0, backoff := 0);
      ramp := St.NO_RAMP;
      role := role.(carrier := false, sinceMs := 0, excluded := false);
      guard := guard.(pulled := false);
    }

    method MarkForRecovery()
      modifies this
      ensures View() == Links.MarkForRecovery(old(View()))
    {
      life := life.(lastReceived := None);
      account := account.(rtt := account.rtt.(echoDue := false));
      ResetCoreState();
      life := life.(graceDeadlineMs := 0);
    }

    method ResetForReconnect(now: nat)
      modifies this
      ensures View() == Links.ResetForReconnect(old(View()), now)
    {
      life := life.(lastReceived := None);
      ResetCoreState();
      SetControl(Cg.FRESH);
      account := account.(rtt := account.rtt.(lastSampleMs := 0, echoDue := false));
      life := life.(lastAttemptMs := now);
    }

    /** The effects of an accepted REG3. */
    method CompleteRegistration(now: nat)
      modifies this
      ensures View() == Links.OnReg3(old(View()), now)
    {
      account := account.(packets := map[], probes := map[], inFlight := 0, highestAcked := None);
      SetControl(Cg.FRESH);
      account := account.(queue := []);
      quality := Quality(1.0, 0);
      life := life.(phase := Lv.Warming(0, now));
      life := life.(connected := true, lastReceived := Some(now));
      if life.establishedMs == 0 {
        life := life.(establishedMs := now);
      }
      life := life.(failures := 0);
    }
  }

  lemma AdvanceStep(from: int, i: nat, s: int)
    requires s == if i == 0 then from else Serial.Advance(from, i)
    ensures Serial.Next(s) == Serial.Advance(from, i + 1)
  {
    if i > 0 {
      var k := (from + i) / Serial.SPACE;
      Serial.SameResidue(s + 1, from + i + 1, k);
    }
  }

  lemma FollowingGrows(from: int, i: nat)
    ensures Fl.Following(from, i + 1) == Fl.Following(from, i) + {Serial.Advance(from, i + 1)}
  {
    var more := Fl.Following(from, i + 1);
    forall x | x in more
      ensures x in Fl.Following(from, i) + {Serial.Advance(from, i + 1)}
    {
      var j :| 1 <= j <= i + 1 && x == Serial.Advance(from, j);
    }
  }
}
