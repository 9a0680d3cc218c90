// Where the documentation promises more than the code does: runs that show it,
// and what exactly the code does instead.

module SessionGaps {
  import opened Prelude
  import opened Times
  import opened OpaqueToken
  import opened Sessions
  import opened SessionStore
  import opened SessionProtocol
  import opened SessionInvariants
  import opened SessionSteps
  import opened SessionTheorems
  import opened SessionSafety
  import opened SessionRuns
  import opened SessionWrites
  import D = Dgraph

  /** Alice logs in: session 1. */
  lemma FirstLogin(cfg: Config) returns (r: Trace)
    ensures r.cfg == cfg && r.start == 0
    ensures var s := At(r);
      && s.procs.Keys == {0} && s.w.hist.births.Keys == {1} && s.w.db.nextUid == 2 && s.w.db.ts == 1
      && s.w.clock == 0 && s.w.hist.mints == map[0 := DrawsOf(1)] && LiveAt(s.w, 1)
      && var b := s.w.hist.births[1];
         b.core.who == ALICE && b.root == 1 && b.bornTs == 1 && b.mintedAt == 0 && b.lag == 0 && b.origin == Login
         && b.core.accessHash == Hash(MintOf(DrawsOf(1)).access)
         && b.core.refreshHash == Hash(MintOf(DrawsOf(1)).refresh)
         && (cfg.accessTtl >= 0 ==> 0 <= b.core.expiresAt)
         && (cfg.refreshTtl >= 0 ==> 0 <= b.core.refreshExpiresAt)
  {
    hide Run, WorldOk, ProcOk, LiveAt, Visible, MintOf;
    var r0 := Trace(cfg, 0, []);
    assert At(r0) == Init(cfg, 0) by { StartsEmpty(cfg, 0); }
    r := LogIn(r0, 0, ALICE, DrawsOf(1));
    AtBirth(r, 1);
    DeadlineConserved(r, 1);
  }

  lemma AtBirth(r: Trace, u: D.Uid)
    requires u in At(r).w.hist.births
    ensures var b := At(r).w.hist.births[u];
      b.core.expiresAt == Trunc(b.mintedAt + r.cfg.AccessTTL())
  {
    hide Run, ProcOk, NodesOk, MintsOk, PastOk, D.WellFormed, TailOk, RootOk;
    Reached(r);
    RunKeeps(Init(r.cfg, r.start), r.events) by { InitOk(r.cfg, r.start); }
    assert OriginOk(At(r).w.cfg, At(r).w.hist.births, At(r).w.hist.succ, u);
  }

  /** Alice logs in and refreshes once: session 1 is spent, session 2 is live. */
  lemma SpentToken(cfg: Config) returns (r: Trace)
    requires cfg.refreshTtl >= 0
    ensures r.cfg == cfg && r.start == 0
    ensures var s := At(r);
      && s.procs.Keys == {0, 1} && s.w.hist.births.Keys == {1, 2} && s.w.db.nextUid == 3 && s.w.db.ts == 2
      && s.w.clock == 0 && s.w.hist.mints == map[0 := DrawsOf(1), 1 := DrawsOf(2)]
      && Visible(s.w, 1) && !LiveAt(s.w, 1) && LiveAt(s.w, 2)
      && s.w.hist.births[1].core.who == ALICE && s.w.hist.births[2].core.who == ALICE
      && s.w.hist.births[1].core.refreshHash == Hash(MintOf(DrawsOf(1)).refresh)
      && s.w.hist.births[2].core.refreshHash == Hash(MintOf(DrawsOf(2)).refresh)
      && s.w.hist.births[2].root == 1
      && s.w.clock <= s.w.hist.births[2].core.refreshExpiresAt
  {
    hide Run, WorldOk, ProcOk, LiveAt, Visible, MintOf;
    var r1 := FirstLogin(cfg);
    DrawsApart(1, 2);
    r := Refresh(r1, 1, MintOf(DrawsOf(1)).refresh, 1, DrawsOf(2), 0);
    DeadlineConserved(r, 2);
  }

  lemma StillFresh(b: Byte)
    requires b != 1 && b != 2
    ensures FreshDraws(map[0 := DrawsOf(1), 1 := DrawsOf(2)], DrawsOf(b))
  {
    DrawsApart(1, b);
    DrawsApart(2, b);
  }

  /** "Every session belonging to that user is revoked" (README.md) fails after a
      replay: a login that commits between list and write survives. */
  lemma ReplayMissesLogin(cfg: Config) returns (r: Trace, p: Pid, u: D.Uid)
    requires cfg.refreshTtl >= 0
    ensures r.cfg == cfg
    ensures var s := At(r);
      && p in s.procs && s.procs[p].pc == Done(Replayed("alice", Some(2)))
      && u in s.w.hist.births && s.w.hist.births[u].core.who.userId == "alice" && LiveAt(s.w, u)
      && s.w.hist.births[u].origin == Login
  {
    hide Run, WorldOk, ProcOk, LiveAt, Visible, MintOf, FreshDraws;
    var r2 := SpentToken(cfg);
    var r3 := ReplayToSweep(r2, 2, MintOf(DrawsOf(1)).refresh, 1, 2);
    StillFresh(3);
    var r4 := LogIn(r3, 3, ALICE, DrawsOf(3));
    r := FinishSweep(r4, 2);
    p, u := 2, 3;
  }

  /** So does a rotation: the family of the replayed token itself stays alive. */
  lemma ReplayMissesRotation(cfg: Config) returns (r: Trace, p: Pid, u: D.Uid)
    requires cfg.refreshTtl >= 0
    ensures r.cfg == cfg
    ensures var s := At(r);
      && p in s.procs && s.procs[p].pc == Done(Replayed("alice", Some(2)))
      && u in s.w.hist.births && LiveAt(s.w, u)
      && s.w.hist.births[u].origin == Rotated(2) && s.w.hist.births[u].root == 1
      && 1 in s.w.hist.births && s.procs[p].op.RefreshOp?
      && s.w.hist.births[1].core.refreshHash == Hash(s.procs[p].op.raw)
  {
    hide Run, WorldOk, ProcOk, LiveAt, Visible, MintOf, FreshDraws;
    var r2 := SpentToken(cfg);
    var r3 := ReplayToSweep(r2, 2, MintOf(DrawsOf(1)).refresh, 1, 2);
    StillFresh(3);
    var r4 := Refresh(r3, 3, MintOf(DrawsOf(2)).refresh, 2, DrawsOf(3), 0);
    r := FinishSweep(r4, 2);
    p, u := 2, 3;
  }

  // --- Two refreshes racing each other ---------------------------------------------------

  /** A rotation whose session died since its read fails, and that is all it does. */
  lemma LoseCommit(r: Trace, q: Pid) returns (r2: Trace)
    requires q in At(r).procs && At(r).procs[q].op.RefreshOp? && At(r).procs[q].pc.RotateOpen?
    requires !LiveAt(At(r).w, At(r).procs[q].pc.x.id)
    ensures r2.cfg == r.cfg && r2.start == r.start && At(r2).w == At(r).w
    ensures At(r2).procs == At(r).procs[q := Proc(At(r).procs[q].op, Done(Failed(None)))]
  {
    hide Run, LiveAt, RotationAborts, CommitRotate, RotationCore;
    AbortsIff(r, q);
    Extend(r, Act(q, NoFault, DrawsOf(1)));
    r2 := Then(r, [Act(q, NoFault, DrawsOf(1))]);
  }

  /** Two refreshes with alice's one refresh token, both past their transaction read. */
  lemma BothOpen(cfg: Config) returns (r: Trace)
    requires cfg.refreshTtl >= 0
    ensures r.cfg == cfg
    ensures var s, op := At(r), RefreshOp(MintOf(DrawsOf(1)).refresh, "", "");
      && s.procs.Keys == {0, 1, 2} && s.procs[1].op == op && s.procs[2].op == op
      && s.procs[1].pc.RotateOpen? && s.procs[1].pc.x.id == 1 && s.procs[1].pc.startTs == s.w.db.ts
      && s.procs[1].pc.mint == MintOf(DrawsOf(2)) && s.procs[2].pc.RotateOpen? && s.procs[2].pc.x.id == 1
      && s.w.hist.births.Keys == {1} && s.w.db.nextUid == 2
      && s.w.hist.mints == map[0 := DrawsOf(1), 1 := DrawsOf(2), 2 := DrawsOf(3)]
  {
    hide Run, WorldOk, ProcOk, LiveAt, Visible, MintOf, FreshDraws, Node;
    var r1 := FirstLogin(cfg);
    var raw := MintOf(DrawsOf(1)).refresh;
    FreshAfter(2);
    var rp := RefreshToOpen(r1, 1, raw, 1, DrawsOf(2), 0);
    SameLive(At(r1).w, At(rp).w);
    StillFresh(3);
    r := RefreshToOpen(rp, 2, raw, 1, DrawsOf(3), 0);
  }

  /** "Two concurrent refresh calls racing each other" (README.md) are no replay when
      both are past their read: the loser gets a store error, and the winner's
      new session stays alive. */
  lemma RacingRefreshes(cfg: Config) returns (r: Trace, p: Pid, q: Pid)
    requires cfg.refreshTtl >= 0
    ensures r.cfg == cfg
    ensures var s := At(r);
      && p in s.procs && q in s.procs && p != q && s.procs[p].op == s.procs[q].op && s.procs[p].op.RefreshOp?
      && s.procs[p].pc.Done? && s.procs[p].pc.outcome.Tokens? && s.procs[p].pc.outcome.uid == 2
      && s.procs[q].pc == Done(Failed(None))
      && s.w.hist.births.Keys == {1, 2} && s.w.hist.births[2].origin == Rotated(1) && LiveAt(s.w, 2)
  {
    hide Run, WorldOk, ProcOk, LiveAt, Visible, MintOf, RotationAborts, Node;
    var ro := BothOpen(cfg);
    Reached(ro);
    p, q := 1, 2;
    NothingSince(At(ro).w, At(ro).procs[p].op, At(ro).procs[p].pc);
    var rc := CommitOpen(ro, p, DrawsOf(2));
    r := LoseCommit(rc, q);
  }

  lemma FreshAfter(b: Byte)
    requires b != 1
    ensures FreshDraws(map[0 := DrawsOf(1)], DrawsOf(b))
  {
    DrawsApart(1, b);
  }

  // --- A store error that did change the store -------------------------------------------

  lemma CommitThenFail(r: Trace, p: Pid) returns (r2: Trace)
    requires p in At(r).procs && At(r).procs[p].op.RefreshOp? && At(r).procs[p].pc.RotateOpen?
    requires At(r).procs[p].pc.startTs == At(r).w.db.ts
    ensures r2.cfg == r.cfg
    ensures var s := At(r2);
      var v, u := At(r).w.db.nextUid, At(r).procs[p].pc.x.id;
      && p in s.procs && s.procs[p].op.RefreshOp? && s.procs[p].pc == Done(Failed(Some(v)))
      && v in s.w.hist.births && s.w.hist.births[v].origin == Rotated(u) && s.w.hist.births[v].maker == p
      && !LiveAt(s.w, u)
  {
    hide Run, WorldOk, ProcOk, LiveAt, MintOf, CommitRotate, RotationAborts, RotationCore, Visible, Node;
    var commit, read := Act(p, NoFault, DrawsOf(1)), Act(p, Refused, DrawsOf(1));
    var s := At(r);
    Reached(r);
    NothingSince(s.w, s.procs[p].op, s.procs[p].pc);
    RotatedNow(s.w, p, s.procs[p].op, s.procs[p].pc);
    Extend(r, commit);
    var r1 := Then(r, [commit]);
    assert At(r1).procs[p].pc == Created(s.procs[p].pc.mint, s.w.db.nextUid);
    Extend(r1, read);
    r2 := Then(r1, [read]);
    assert At(r2).w == At(r1).w;
  }

  /** A refresh that ends in a store error may have rotated all the same: when the
      read-back after its commit fails, the old token is dead and the new ones are lost. */
  lemma ErrorAfterCommit(cfg: Config) returns (r: Trace, p: Pid)
    requires cfg.refreshTtl >= 0
    ensures r.cfg == cfg
    ensures var s := At(r);
      && p in s.procs && s.procs[p].op.RefreshOp? && s.procs[p].pc == Done(Failed(Some(3)))
      && 3 in s.w.hist.births && s.w.hist.births[3].origin == Rotated(2) && s.w.hist.births[3].maker == p
      && !LiveAt(s.w, 2)
  {
    hide Run, WorldOk, ProcOk, LiveAt, Visible, MintOf, FreshDraws;
    var r2 := SpentToken(cfg);
    StillFresh(3);
    p := 2;
    var r3 := RefreshToOpen(r2, p, MintOf(DrawsOf(2)).refresh, 2, DrawsOf(3), 0);
    r := CommitThenFail(r3, p);
  }

  // --- Several children of one session -----------------------------------------------------

  function Asked(raw: string, actorId: string): Op { ActivateOp(raw, actorId, "driver", {}, {}, {}, 0) }

  /** Two activations of one session, both past their lookup when the first of
      them revokes, each leave a live session. */
  lemma TwoActivations(cfg: Config) returns (r: Trace)
    requires cfg.accessTtl >= 0
    ensures r.cfg == cfg
    ensures var w := At(r).w;
      && 2 in w.hist.births && 3 in w.hist.births && LiveAt(w, 2) && LiveAt(w, 3)
      && w.hist.births[2].origin == Activated(1) && w.hist.births[3].origin == Activated(1)
  {
    hide Run, WorldOk, ProcOk, LiveAt, Visible, MintOf, Reactor;
    var r1 := FirstLogin(cfg);
    var raw := MintOf(DrawsOf(1)).access;
    var ra := ActivateToRevoke(r1, 1, Asked(raw, "a"), 1);
    var rb := ActivateToRevoke(ra, 2, Asked(raw, "b"), 1);
    DrawsApart(1, 2);
    var r2 := FinishActivation(rb, 1, DrawsOf(2), 0);
    DrawsApart(1, 3);
    DrawsApart(2, 3);
    r := FinishActivation(r2, 2, DrawsOf(3), 0);
  }

  /** A rotation that runs while an activation of the same session is past its
      lookup: both children are live. */
  lemma RotationRacesActivation(cfg: Config) returns (r: Trace)
    requires cfg.accessTtl >= 0 && cfg.refreshTtl >= 0
    ensures r.cfg == cfg
    ensures var w := At(r).w;
      && 2 in w.hist.births && 3 in w.hist.births && LiveAt(w, 2) && LiveAt(w, 3)
      && w.hist.births[2].origin == Rotated(1) && w.hist.births[3].origin == Activated(1)
  {
    hide Run, WorldOk, ProcOk, LiveAt, Visible, MintOf, Reactor, Node;
    var r1 := FirstLogin(cfg);
    var ra := ActivateToRevoke(r1, 1, Asked(MintOf(DrawsOf(1)).access, "a"), 1);
    DrawsApart(1, 2);
    var r2 := Refresh(ra, 2, MintOf(DrawsOf(1)).refresh, 1, DrawsOf(2), 0);
    DrawsApart(1, 3);
    DrawsApart(2, 3);
    r := FinishActivation(r2, 1, DrawsOf(3), 0);
  }

  // --- Revoking twice ----------------------------------------------------------------------

  /** Revoking a session that already is revoked is a no-op on its node exactly
      when it was last revoked, and last changed, in the present second. */
  lemma RevokeNoOpIff(db: D.Db, u: D.Uid, now: int)
    requires D.WellFormed(db) && u < db.nextUid && StatusOf(D.NodeAt(db, u)).revoked
    ensures D.NodeAt(Apply(db, Revoke([u], now)), u) == D.NodeAt(db, u)
       <==> D.Get(D.NodeAt(db, u), D.RevokedAt) == Some(D.Instant(Trunc(now)))
            && D.Get(D.NodeAt(db, u), D.UpdatedAt) == Some(D.Instant(Trunc(now)))
  {
    hide Apply, D.WellFormed;
    ApplyEffect(db, Revoke([u], now), u);
    var n := D.NodeAt(db, u);
    RevokeAgain(n, now);
  }

  lemma RevokeAgain(n: D.Fields, now: int)
    requires D.Get(n, D.Revoked) == Some(D.Flag(true))
    ensures n + RevokeFields(now) == n
       <==> D.Get(n, D.RevokedAt) == Some(D.Instant(Trunc(now))) && D.Get(n, D.UpdatedAt) == Some(D.Instant(Trunc(now)))
  {
    var m := n + RevokeFields(now);
    assert m[D.RevokedAt] == D.Instant(Trunc(now)) && m[D.UpdatedAt] == D.Instant(Trunc(now));
  }

  /** Two revocations leave what one leaves exactly when both fall in one second. */
  lemma RevokeTwiceIff(db: D.Db, u: D.Uid, t1: int, t2: int)
    requires D.WellFormed(db) && u < db.nextUid
    ensures var once := Apply(db, Revoke([u], t1));
      (forall v :: D.NodeAt(Apply(once, Revoke([u], t2)), v) == D.NodeAt(once, v)) <==> Trunc(t1) == Trunc(t2)
  {
    hide Apply, D.WellFormed, D.Extends;
    var once := Apply(db, Revoke([u], t1));
    ApplyExtends(db, Revoke([u], t1));
    ApplyEffect(db, Revoke([u], t1), u);
    StatusRevoked(D.NodeAt(db, u), t1);
    RevokeNoOpIff(once, u, t2);
    forall v | v != u ensures D.NodeAt(Apply(once, Revoke([u], t2)), v) == D.NodeAt(once, v) {
      ApplyEffect(once, Revoke([u], t2), v);
    }
  }
}
