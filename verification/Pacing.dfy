/** What a run of the bond is to the life of each of its uplinks. */
module Pacing {
  import opened Prelude
  import opened Links
  import opened Lifecycle
  import Lv = Liveness
  import Rg = Registration

  // ----- one step of the bond, as events of one link -----

  function GraceEvents(r: Rg.Reg, x: TickInput, j: nat): seq<Lv.Event> {
    if IsProbing(r) && !IsProbing(Timed(r, x)) && Timed(r, x).target == Some(j) then [Lv.Grace(x.now)] else []
  }

  function VisitEvents(l: Link, x: LinkInput, now: nat): seq<Lv.Event> {
    if Renews(l, now) then [Lv.Attempt(now), if x.rebuilt then Lv.Rebuild(now) else Lv.Recovery]
    else if l.life.TimedOut(now) then []
    else [Lv.PhaseTick(now, x.nakDegraded, x.nakRecovered, l.signals.lossDegraded)]
  }

  function MoveEvents(x: LinkInput, now: nat): seq<Lv.Event> {
    [if x.moved then Lv.Rebuild(now) else Lv.Recovery, Lv.Grace(now)]
  }

  function TickEvents(b: Bond, x: TickInput, j: nat): seq<Lv.Event>
    requires |x.links| == |b.links| && j < |b.links|
  {
    GraceEvents(b.reg, x, j) + VisitEvents(Graced(b.reg, b.links, x)[j], x.links[j], x.now)
    + if Rehomes(b, x) then MoveEvents(x.links[j], x.now) else []
  }

  function FrameEvents(r: Rg.Reg, i: nat, now: nat, f: Frame): seq<Lv.Event> {
    match f
    case Ngp => []
    case Reg2(_) => []
    case Reg3 => [if i in r.awaiting then Lv.Reg3(now) else Lv.Datagram(now)]
    case RegErr => [if Rg.ErrInPhase(r, i) then Lv.RegErr else Lv.Datagram(now)]
    case Other => [Lv.Datagram(now)]
  }

  function LifeEvents(b: Bond, h: Happening, j: nat): seq<Lv.Event>
    requires Fits(b, h) && j < |b.links|
  {
    match h
    case Housekeeping(x) => TickEvents(b, x, j)
    case Received(i, now, f) => if i == j then FrameEvents(b.reg, i, now, f) else []
    case Traffic(i, e) => if i == j && e.Life? then [e.life] else []
    case FlushFailed(i) => if i == j then [Lv.Recovery] else []
  }

  /** When a step happens, if it reads the clock. */
  function Clock(h: Happening): Option<nat> {
    if ReadsClock(h) then Some(TimeOf(h)) else None
  }

  /** Events `es` lead from life `l` to life `p`, their attempts are due, and all of their stamps are `t`. */
  ghost predicate Leads(l: Lv.Life, es: seq<Lv.Event>, p: Lv.Life, t: Option<nat>) {
    && p == Lv.Run(l, es) && Lv.Due(l, es)
    && forall n | 0 <= n < |es| :: Lv.At(es[n]).Some? ==> Lv.At(es[n]) == t
  }

  lemma LeadsOn(l: Lv.Life, es: seq<Lv.Event>, p: Lv.Life, fs: seq<Lv.Event>, q: Lv.Life, t: Option<nat>)
    requires Leads(l, es, p, t) && Leads(p, fs, q, t)
    ensures Leads(l, es + fs, q, t)
  {
    Lv.RunAppends(l, es, fs);
    Lv.DueAppends(l, es, fs);
  }

  lemma NoEvent(l: Lv.Life, t: Option<nat>)
    ensures Leads(l, [], l, t)
  {
  }

  lemma OneEvent(l: Lv.Life, e: Lv.Event, t: Option<nat>)
    requires e.Attempt? ==> Lv.ShouldAttempt(l, e.now)
    requires Lv.At(e).Some? ==> Lv.At(e) == t
    ensures Leads(l, [e], Lv.Step(l, e), t)
  {
    assert [e][..0] == [];
  }

  lemma TwoEvents(l: Lv.Life, e: Lv.Event, f: Lv.Event, t: Option<nat>)
    requires (e.Attempt? ==> Lv.ShouldAttempt(l, e.now)) && !f.Attempt?
    requires (Lv.At(e).Some? ==> Lv.At(e) == t) && (Lv.At(f).Some? ==> Lv.At(f) == t)
    ensures Leads(l, [e, f], Lv.Step(Lv.Step(l, e), f), t)
  {
    OneEvent(l, e, t);
    OneEvent(Lv.Step(l, e), f, t);
    LeadsOn(l, [e], Lv.Step(l, e), [f], Lv.Step(Lv.Step(l, e), f), t);
    assert [e, f] == [e] + [f];
  }

  lemma GraceLeads(r: Rg.Reg, links: seq<Link>, x: TickInput, j: nat)
    requires j < |links|
    ensures Leads(links[j].life, GraceEvents(r, x, j), Graced(r, links, x)[j].life, Some(x.now))
  {
    OneEvent(links[j].life, Lv.Grace(x.now), Some(x.now));
    NoEvent(links[j].life, Some(x.now));
  }

  lemma VisitLeads(l: Link, x: LinkInput, now: nat, classic: bool)
    ensures Leads(l.life, VisitEvents(l, x, now), VisitLink(l, x, now, classic).life, Some(now))
  {
    if Renews(l, now) {
      TwoEvents(l.life, Lv.Attempt(now), if x.rebuilt then Lv.Rebuild(now) else Lv.Recovery, Some(now));
    } else if l.life.TimedOut(now) {
      NoEvent(l.life, Some(now));
    } else {
      OneEvent(l.life, Lv.PhaseTick(now, x.nakDegraded, x.nakRecovered, l.signals.lossDegraded), Some(now));
    }
  }

  lemma MoveLeads(l: Link, x: LinkInput, now: nat)
    ensures Leads(l.life, MoveEvents(x, now), MovedLink(l, x, now).life, Some(now))
  {
    TwoEvents(l.life, if x.moved then Lv.Rebuild(now) else Lv.Recovery, Lv.Grace(now), Some(now));
  }

  lemma TickLinks(b: Bond, x: TickInput, j: nat)
    requires |x.links| == |b.links| && j < |b.links|
    ensures var v := VisitLink(Graced(b.reg, b.links, x)[j], x.links[j], x.now, x.classic);
            Tick(b, x).links[j] == if Rehomes(b, x) then MovedLink(v, x.links[j], x.now) else v
  {
  }

  lemma TickLeads(b: Bond, x: TickInput, j: nat)
    requires |x.links| == |b.links| && j < |b.links|
    ensures Leads(b.links[j].life, TickEvents(b, x, j), Tick(b, x).links[j].life, Some(x.now))
  {
    var l, g, t := b.links[j].life, Graced(b.reg, b.links, x)[j], Some(x.now);
    var v := VisitLink(g, x.links[j], x.now, x.classic);
    GraceLeads(b.reg, b.links, x, j);
    VisitLeads(g, x.links[j], x.now, x.classic);
    var es, fs := GraceEvents(b.reg, x, j), VisitEvents(g, x.links[j], x.now);
    LeadsOn(l, es, g.life, fs, v.life, t);
    TickLinks(b, x, j);
    if Rehomes(b, x) {
      MoveLeads(v, x.links[j], x.now);
      LeadsOn(l, es + fs, v.life, MoveEvents(x.links[j], x.now), Tick(b, x).links[j].life, t);
    } else {
      assert es + fs + [] == es + fs;
    }
  }

  /** Every step of the bond is, to each of its links, the events of that step. */
  lemma StepLeads(b: Bond, h: Happening, j: nat)
    requires Fits(b, h) && j < |b.links|
    ensures Leads(b.links[j].life, LifeEvents(b, h, j), Happen(b, h).links[j].life, Clock(h))
  {
    var l, t := b.links[j].life, Clock(h);
    NoEvent(l, t);
    match h {
      case Housekeeping(x) => TickLeads(b, x, j);
      case Received(i, now, f) =>
        OneEvent(l, Lv.Reg3(now), t);
        OneEvent(l, Lv.Datagram(now), t);
        OneEvent(l, Lv.RegErr, t);
      case Traffic(i, e) =>
        if i == j && e.Life? {
          OneEvent(l, e.life, t);
        }
      case FlushFailed(i) => OneEvent(l, Lv.Recovery, t);
    }
  }

  predicate SameFailures(l: Lv.Life, p: Lv.Life) {
    p.establishedMs == l.establishedMs && p.failures == l.failures
  }

  /** A tick that renews the link makes one attempt, on a link whose failures it found as they were. */
  ghost predicate AttemptsAt(l: Lv.Life, es: seq<Lv.Event>, a: nat, now: nat) {
    a < |es| && es[a] == Lv.Attempt(now) && SameFailures(l, Lv.Run(l, es[..a]))
  }

  /** The tick renews link `j`. */
  predicate RenewsAt(b: Bond, h: Happening, j: nat) {
    h.Housekeeping? && j < |b.links| && Renews(Graced(b.reg, b.links, h.x)[j], h.x.now)
  }

  lemma RenewalAttempts(b: Bond, h: Happening, j: nat)
    requires Fits(b, h) && RenewsAt(b, h, j)
    ensures AttemptsAt(b.links[j].life, LifeEvents(b, h, j), |GraceEvents(b.reg, h.x, j)|, h.x.now)
  {
    var es, gs := LifeEvents(b, h, j), GraceEvents(b.reg, h.x, j);
    assert es[..|gs|] == gs;
    GraceLeads(b.reg, b.links, h.x, j);
  }

  // ----- a life in pieces -----

  /** Clock reads are positive and never go back. */
  predicate ClockRuns(ts: seq<Option<nat>>) {
    && (forall n | 0 <= n < |ts| && ts[n].Some? :: ts[n].value > 0)
    && (forall m, n | 0 <= m < n < |ts| && ts[m].Some? && ts[n].Some? :: ts[m].value <= ts[n].value)
  }

  function Flat(ess: seq<seq<Lv.Event>>, n: nat): seq<Lv.Event>
    requires n <= |ess|
  {
    if n == 0 then [] else Flat(ess, n - 1) + ess[n - 1]
  }

  lemma {:induction false} FlatGrows(ess: seq<seq<Lv.Event>>, m: nat, n: nat)
    requires m <= n <= |ess|
    ensures Flat(ess, m) <= Flat(ess, n)
    decreases n
  {
    if m < n {
      FlatGrows(ess, m, n - 1);
    }
  }

  /** The life `ps[k]` before each piece of events `ess[k]`, which happens at `ts[k]`. */
  ghost predicate Pieces(ps: seq<Lv.Life>, ess: seq<seq<Lv.Event>>, ts: seq<Option<nat>>) {
    && |ps| == |ess| + 1 && |ts| == |ess|
    && forall k | 0 <= k < |ess| :: Leads(ps[k], ess[k], ps[k + 1], ts[k])
  }

  /** No stamp among the events is later than any clock read from `n` on. */
  predicate Past(es: seq<Lv.Event>, ts: seq<Option<nat>>, n: nat) {
    forall a, m | 0 <= a < |es| && n <= m < |ts| && Lv.At(es[a]).Some? && ts[m].Some? ::
      Lv.At(es[a]).value <= ts[m].value
  }

  lemma ClockGoesOn(es: seq<Lv.Event>, fs: seq<Lv.Event>, ts: seq<Option<nat>>, n: nat)
    requires ClockRuns(ts) && n < |ts| && Lv.Clocked(es) && Past(es, ts, n)
    requires forall a | 0 <= a < |fs| :: Lv.At(fs[a]).Some? ==> Lv.At(fs[a]) == ts[n]
    ensures Lv.Clocked(es + fs) && Past(es + fs, ts, n + 1)
  {
    var gs := es + fs;
    assert forall a | 0 <= a < |gs| :: gs[a] == if a < |es| then es[a] else fs[a - |es|];
  }

  /** The pieces in one: the same life, every attempt due, on a clock that does not go back. */
  lemma {:induction false} PiecesJoin(ps: seq<Lv.Life>, ess: seq<seq<Lv.Event>>, ts: seq<Option<nat>>, n: nat)
    requires Pieces(ps, ess, ts) && ClockRuns(ts) && n <= |ess|
    ensures var es := Flat(ess, n);
            ps[n] == Lv.Run(ps[0], es) && Lv.Due(ps[0], es) && Lv.Clocked(es) && Past(es, ts, n)
  {
    if n > 0 {
      PiecesJoin(ps, ess, ts, n - 1);
      assert Leads(ps[n - 1], ess[n - 1], ps[n - 1 + 1], ts[n - 1]);
      ClockGoesOn(Flat(ess, n - 1), ess[n - 1], ts, n - 1);
      Lv.RunAppends(ps[0], Flat(ess, n - 1), ess[n - 1]);
      Lv.DueAppends(ps[0], Flat(ess, n - 1), ess[n - 1]);
    }
  }

  lemma PiecesArePaced(ps: seq<Lv.Life>, ess: seq<seq<Lv.Event>>, ts: seq<Option<nat>>, start: nat)
    requires Pieces(ps, ess, ts) && ClockRuns(ts) && ps[0] == Lv.NewRegistering(start)
    ensures var es := Flat(ess, |ess|); Lv.Paced(Lv.Lives(ps[0], es), es) && ps[|ess|] == Lv.Run(ps[0], es)
  {
    PiecesJoin(ps, ess, ts, |ess|);
    Lv.LivesArePaced(start, Flat(ess, |ess|));
  }

  /** Where event `a` of piece `k` stands in the whole. */
  lemma FlatAt(ess: seq<seq<Lv.Event>>, k: nat, a: nat)
    requires k < |ess| && a < |ess[k]|
    ensures var es, i := Flat(ess, |ess|), |Flat(ess, k)| + a;
            i < |Flat(ess, k + 1)| <= |es| && es[i] == ess[k][a] && es[..i] == Flat(ess, k) + ess[k][..a]
  {
    FlatGrows(ess, k + 1, |ess|);
    assert Flat(ess, k + 1) == Flat(ess, k) + ess[k];
  }

  /** An attempt of piece `k` meets in the whole the failures it met in its piece. */
  lemma AttemptInWhole(ps: seq<Lv.Life>, ess: seq<seq<Lv.Event>>, ts: seq<Option<nat>>, k: nat, a: nat, now: nat)
    requires Pieces(ps, ess, ts) && ClockRuns(ts) && k < |ess| && AttemptsAt(ps[k], ess[k], a, now)
    ensures var es, i := Flat(ess, |ess|), |Flat(ess, k)| + a;
            i < |es| && es[i] == Lv.Attempt(now) && SameFailures(ps[k], Lv.Run(ps[0], es[..i]))
  {
    FlatAt(ess, k, a);
    assert ps[k] == Lv.Run(ps[0], Flat(ess, k)) by {
      PiecesJoin(ps, ess, ts, k);
    }
    Lv.RunAppends(ps[0], Flat(ess, k), ess[k][..a]);
  }

  lemma InOrder(ess: seq<seq<Lv.Event>>, m: nat, a: nat, n: nat)
    requires m < n < |ess| && a < |ess[m]|
    ensures |Flat(ess, m)| + a < |Flat(ess, n)|
  {
    FlatGrows(ess, m + 1, n);
  }

  lemma WholeIsSpaced(ps: seq<Lv.Life>, ess: seq<seq<Lv.Event>>, ts: seq<Option<nat>>, start: nat, i: nat, k: nat)
    requires Pieces(ps, ess, ts) && ClockRuns(ts) && ps[0] == Lv.NewRegistering(start)
    requires var es := Flat(ess, |ess|); i < k < |es| && es[i].Attempt? && es[k].Attempt?
    ensures var es := Flat(ess, |ess|); Spaced(Lv.Run(ps[0], es[..k]), es[i].now, es[k].now)
  {
    PiecesArePaced(ps, ess, ts, start);
    PacedByFailures(ps[0], Flat(ess, |ess|), i, k);
  }

  /** The time between attempts at `from` and `to`, the second on life `l`. */
  predicate Spaced(l: Lv.Life, from: nat, to: nat) {
    && to >= from + Lv.FAST_RETRY_DELAY_MS - Lv.TICK_SLACK_MS
    && (l.establishedMs != 0 && l.failures >= Lv.FAST_RETRY_ATTEMPTS ==>
          to >= from + Lv.SLOW_RETRY_DELAY_MS - Lv.TICK_SLACK_MS)
  }

  /** The pace of two attempts, in terms of the failures the second one meets. */
  lemma PacedByFailures(l: Lv.Life, es: seq<Lv.Event>, a: nat, c: nat)
    requires Lv.Paced(Lv.Lives(l, es), es) && a < c < |es| && es[a].Attempt? && es[c].Attempt?
    ensures Spaced(Lv.Run(l, es[..c]), es[a].now, es[c].now)
  {
    Lv.AttemptsArePaced(Lv.Lives(l, es), es, a, c);
    Lv.FailuresCountTries(Lv.Lives(l, es), es, c);
  }

  lemma PiecesAreSpaced(ps: seq<Lv.Life>, ess: seq<seq<Lv.Event>>, ts: seq<Option<nat>>, start: nat,
                        m: nat, a: nat, from: nat, n: nat, c: nat, to: nat)
    requires Pieces(ps, ess, ts) && ClockRuns(ts) && ps[0] == Lv.NewRegistering(start) && m < n < |ess|
    requires AttemptsAt(ps[m], ess[m], a, from) && AttemptsAt(ps[n], ess[n], c, to)
    ensures Spaced(ps[n], from, to)
  {
    AttemptInWhole(ps, ess, ts, m, a, from);
    AttemptInWhole(ps, ess, ts, n, c, to);
    InOrder(ess, m, a, n);
    WholeIsSpaced(ps, ess, ts, start, |Flat(ess, m)| + a, |Flat(ess, n)| + c);
  }

  // ----- every uplink of a running bond -----

  function LivesOf(bs: seq<Bond>, j: nat): (ps: seq<Lv.Life>)
    requires forall k | 0 <= k < |bs| :: j < |bs[k].links|
    ensures |ps| == |bs|
  {
    seq(|bs|, k requires 0 <= k < |bs| => bs[k].links[j].life)
  }

  function EventsOf(bs: seq<Bond>, hs: seq<Happening>, j: nat): (ess: seq<seq<Lv.Event>>)
    requires |bs| == |hs| + 1
    requires forall k | 0 <= k < |hs| :: Fits(bs[k], hs[k]) && j < |bs[k].links|
    ensures |ess| == |hs|
  {
    seq(|hs|, k requires 0 <= k < |hs| => LifeEvents(bs[k], hs[k], j))
  }

  function ClockOf(hs: seq<Happening>): (ts: seq<Option<nat>>)
    ensures |ts| == |hs|
  {
    seq(|hs|, k requires 0 <= k < |hs| => Clock(hs[k]))
  }

  lemma SizeIsFixed(bs: seq<Bond>, hs: seq<Happening>, j: nat)
    requires History(bs, hs) && j < |bs[0].links|
    ensures forall k | 0 <= k < |bs| :: j < |bs[k].links|
  {
    forall k | 0 <= k < |bs|
      ensures j < |bs[k].links|
    {
      InvOverRuns(bs, hs, k);
    }
  }

  lemma HistoryIsPieces(bs: seq<Bond>, hs: seq<Happening>, j: nat)
    requires History(bs, hs) && forall k | 0 <= k < |bs| :: j < |bs[k].links|
    ensures Pieces(LivesOf(bs, j), EventsOf(bs, hs, j), ClockOf(hs))
  {
    forall k | 0 <= k < |hs|
      ensures Leads(LivesOf(bs, j)[k], EventsOf(bs, hs, j)[k], LivesOf(bs, j)[k + 1], ClockOf(hs)[k])
    {
      StepLeads(bs[k], hs[k], j);
    }
  }

  lemma OpenedIsRegistering(l: Link) returns (start: nat)
    requires Opened(l)
    ensures l.life == Lv.NewRegistering(start)
  {
    var id, at, s: Signals, now :| s.smoothRtt >= 0.0 && l == Links.Step(NewLink(id, at, s), Life(Lv.Grace(now)));
    start := now;
  }

  /**
   The life of every uplink over any run of the bond, on a clock that does not go back, is
   the paced life made of what each step was to that link: new to begin with, and every
   reconnect attempt made when it is due.
   */
  lemma UplinkLivesArePaced(bs: seq<Bond>, hs: seq<Happening>, j: nat)
    requires History(bs, hs) && ClockRuns(ClockOf(hs)) && j < |bs[0].links|
    ensures forall k | 0 <= k < |bs| :: j < |bs[k].links|
    ensures var es, l := Flat(EventsOf(bs, hs, j), |hs|), bs[0].links[j].life;
            Lv.Paced(Lv.Lives(l, es), es) && bs[|hs|].links[j].life == Lv.Run(l, es)
  {
    SizeIsFixed(bs, hs, j);
    HistoryIsPieces(bs, hs, j);
    var start := OpenedIsRegistering(bs[0].links[j]);
    PiecesArePaced(LivesOf(bs, j), EventsOf(bs, hs, j), ClockOf(hs), start);
  }

  /**
   Two ticks that renew the same uplink are at least half a second apart, and at least
   four and a half seconds once the uplink has failed four times since its registration.
   */
  lemma RenewalsArePaced(bs: seq<Bond>, hs: seq<Happening>, j: nat, m: nat, n: nat)
    requires History(bs, hs) && ClockRuns(ClockOf(hs)) && m < n < |hs| && j < |bs[0].links| && j < |bs[n].links|
    requires RenewsAt(bs[m], hs[m], j) && RenewsAt(bs[n], hs[n], j)
    ensures Spaced(bs[n].links[j].life, hs[m].x.now, hs[n].x.now)
  {
    SizeIsFixed(bs, hs, j);
    HistoryIsPieces(bs, hs, j);
    var start := OpenedIsRegistering(bs[0].links[j]);
    RenewalAttempts(bs[m], hs[m], j);
    RenewalAttempts(bs[n], hs[n], j);
    PiecesAreSpaced(LivesOf(bs, j), EventsOf(bs, hs, j), ClockOf(hs), start,
                    m, |GraceEvents(bs[m].reg, hs[m].x, j)|, hs[m].x.now,
                    n, |GraceEvents(bs[n].reg, hs[n].x, j)|, hs[n].x.now);
  }
}
