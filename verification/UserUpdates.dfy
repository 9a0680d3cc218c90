// What a committed Update (internal/repository/dgraph/repository.go) returns,
// and what it has stored, over every interleaving.

module UserUpdates {
  import opened Prelude
  import opened Times
  import opened Users
  import opened UserProtocol
  import D = Dgraph

  /** Accounts carry `active`: registration writes it, and every update does. */
  ghost predicate HaveActive(db: D.Db) {
    forall u :: D.DType in D.NodeAt(db, u) ==> D.Active in D.NodeAt(db, u)
  }

  /** As long as nobody wrote `active` since, the node is the one that was read. */
  ghost predicate ReadOk(db: D.Db, pc: Pc) {
    match pc
    case Updating(startTs, u, n) =>
      && startTs <= db.ts && u < db.nextUid
      && (D.LastWrite(db, D.Data(u, D.Active)) <= startTs ==> D.NodeAt(db, u) == n)
    case _ => true
  }

  ghost predicate Sure(s: State) {
    && D.WellFormed(s.db) && HaveActive(s.db)
    && (forall pid :: pid in s.procs ==>
          ReadOk(s.db, s.procs[pid].pc) && (s.procs[pid].pc.Updating? ==> s.procs[pid].op.Update?))
  }

  /** A commit that changes an account writes its `active`. */
  ghost predicate Marked(a: D.Db, b: D.Db) {
    && D.Extends(a, b)
    && (forall u: D.Uid :: u < a.nextUid ==>
          D.NodeAt(b, u) == D.NodeAt(a, u) || D.LastWrite(b, D.Data(u, D.Active)) > a.ts)
  }

  lemma MarkedKeeps(a: D.Db, b: D.Db, pc: Pc)
    requires Marked(a, b) && ReadOk(a, pc)
    ensures ReadOk(b, pc)
  {
    if pc.Updating? {
      assert D.LastWrite(b, D.Data(pc.uid, D.Active)) == D.LastWrite(a, D.Data(pc.uid, D.Active))
          || D.LastWrite(b, D.Data(pc.uid, D.Active)) > a.ts;
    }
  }

  lemma CreateMarks(db: D.Db, u: User)
    requires D.WellFormed(db) && HaveActive(db)
    ensures D.WellFormed(D.Commit(db, CreateQuads(u))) && HaveActive(D.Commit(db, CreateQuads(u)))
    ensures Marked(db, D.Commit(db, CreateQuads(u)))
  {
    var t := D.Commit(db, CreateQuads(u));
    D.CommitExtends(db, CreateQuads(u));
    NewActive(u);
    hide D.Extends, D.Commit, NewUser, D.WellFormed;
    forall v ensures D.NodeAt(t, v) == if v == db.nextUid then NewUser(u) else D.NodeAt(db, v) {
      CreateNode(db, u, v);
    }
  }

  lemma NewActive(u: User)
    ensures D.Active in NewUser(u)
  {
    NewUserReads(u);
    hide NewUser, Trunc;
    assert D.Get(NewUser(u), D.Active) == Some(D.Flag(u.active));
  }

  lemma UpdateMarks(db: D.Db, uid: D.Uid, n: D.Fields, i: UpdateInput, now: int)
    requires D.WellFormed(db) && HaveActive(db) && uid < db.nextUid
    ensures var t := D.Commit(db, UpdateQuads(uid, n, i, now));
      D.WellFormed(t) && HaveActive(t) && Marked(db, t)
    ensures D.Data(uid, D.Active) in D.Touched(db.nodes, UpdateQuads(uid, n, i, now), db.nextUid)
  {
    var quads := UpdateQuads(uid, n, i, now);
    var t := D.Commit(db, quads);
    D.CommitExtends(db, quads);
    UpdateActive(n, i, now);
    D.TouchedOne(db.nodes, quads[0], db.nextUid);
    assert D.Data(uid, D.Active) in D.Touched(db.nodes, quads, db.nextUid);
    Stamped(db, quads, D.Data(uid, D.Active));
    hide D.Extends, D.Commit, UpdateFields, D.WellFormed, D.Touched;
    forall v
      ensures D.NodeAt(t, v) == if v == uid then D.NodeAt(db, uid) + UpdateFields(n, i, now) else D.NodeAt(db, v)
    {
      UpdateNode(db, uid, n, i, now, v);
    }
  }

  lemma Stamped(db: D.Db, quads: seq<D.Quads>, k: D.Key)
    requires k in D.Touched(db.nodes, quads, db.nextUid)
    ensures D.LastWrite(D.Commit(db, quads), k) == db.ts + 1
  {
    hide D.Touched, D.ApplyQuads;
  }

  lemma UpdateActive(n: D.Fields, i: UpdateInput, now: int)
    ensures D.Active in UpdateFields(n, i, now)
  {
    UpdateReads(n, i, now);
    hide UpdateFields, Trunc, Merged;
    assert D.Get(UpdateFields(n, i, now), D.Active).Some?;
  }

  lemma DeleteMarks(db: D.Db, u: D.Uid)
    requires D.WellFormed(db) && HaveActive(db)
    ensures D.WellFormed(D.Delete(db, {u})) && HaveActive(D.Delete(db, {u})) && Marked(db, D.Delete(db, {u}))
  {
    D.DeleteExtends(db, {u});
    hide D.Extends, D.WellFormed, D.Delete;
    var t := D.Delete(db, {u});
    forall v: D.Uid
      ensures D.NodeAt(t, v) == if v == u && D.DType in D.NodeAt(db, v) then map[] else D.NodeAt(db, v)
      ensures D.NodeAt(t, v) == D.NodeAt(db, v) || D.LastWrite(t, D.Data(v, D.Active)) > db.ts
    {
      DeleteNode(db, u, v);
    }
  }

  lemma DeleteNode(db: D.Db, u: D.Uid, v: D.Uid)
    ensures var t := D.Delete(db, {u});
      && D.NodeAt(t, v) == (if v == u && D.DType in D.NodeAt(db, v) then map[] else D.NodeAt(db, v))
      && (v == u && D.DType in D.NodeAt(db, v) && D.Active in D.NodeAt(db, v) ==>
            D.LastWrite(t, D.Data(v, D.Active)) == db.ts + 1)
  {
    if v == u && D.DType in D.NodeAt(db, v) && D.Active in D.NodeAt(db, v) {
      assert D.Data(v, D.Active) in D.DeletedKeys(db.nodes, {u});
    }
  }

  lemma NextSure(db: D.Db, op: Op, pc: Pc, f: Fault)
    requires D.WellFormed(db) && HaveActive(db) && ReadOk(db, pc) && (pc.Updating? ==> op.Update?)
    ensures var t := Next(db, op, pc, f);
      && D.WellFormed(t.0) && HaveActive(t.0) && Marked(db, t.0) && ReadOk(t.0, t.1) && (t.1.Updating? ==> op.Update?)
  {
    D.ExtendsRefl(db);
    hide D.Extends, HaveActive, NewUser, UpdateFields, Merged;
    match (op, pc)
    case (Create(u), Creating(startTs, free)) =>
      hide D.WellFormed, Marked, D.Conflicts, D.Commit;
      CreateMarks(db, u);
    case (Update(_, i, now), Updating(startTs, u, n)) =>
      hide D.WellFormed, Marked, D.Conflicts, D.Commit;
      UpdateMarks(db, u, n, i, now);
    case (Delete(_), Deleting(u)) =>
      hide D.WellFormed, Marked, D.Delete;
      DeleteMarks(db, u);
    case (Update(id, _, _), Start) =>
      var found := Holders(db, D.UserUuid, id);
      hide D.Scan;
      assert found != [] ==> found[0] in found;
    case _ =>
  }

  lemma StepSure(s: State, e: Event)
    requires Sure(s)
    ensures Sure(Step(s, e))
  {
    hide D.WellFormed, HaveActive, Next, ReadOk, Marked;
    match e
    case Begin(_, _) => StartOk(s.db);
    case Act(pid, f) =>
      if pid in s.procs {
        NextSure(s.db, s.procs[pid].op, s.procs[pid].pc, f);
        forall q | q in s.procs && q != pid ensures ReadOk(Step(s, e).db, s.procs[q].pc) {
          MarkedKeeps(s.db, Step(s, e).db, s.procs[q].pc);
        }
      }
  }

  lemma StartOk(db: D.Db)
    ensures ReadOk(db, Start)
  {
  }

  lemma {:induction false} AlwaysSure(es: seq<Event>)
    ensures Sure(Run(es))
  {
    hide Step;
    if es == [] {
    } else {
      AlwaysSure(es[..|es| - 1]);
      hide Sure;
      StepSure(Run(es[..|es| - 1]), es[|es| - 1]);
    }
  }

  /** When an update commits, nothing of the account has changed since its read;
      and the user it returns is the one it stored, password aside, exactly when it
      was not asked to empty a field that is not. */
  lemma CommittedUpdateIff(es: seq<Event>, pid: nat)
    requires pid in Run(es).procs && Run(es).procs[pid].pc.Updating? && Run(es).procs[pid].op.Update?
    requires var Proc(op, pc) := Run(es).procs[pid];
      !D.Conflicts(Run(es).db, pc.startTs, UpdateQuads(pc.uid, pc.read, op.input, op.now))
    ensures var s, t := Run(es), Run(es + [Act(pid, NoFault)]);
      var Proc(op, pc) := s.procs[pid];
      var was, now := UserOf(D.NodeAt(s.db, pc.uid)), UserOf(D.NodeAt(t.db, pc.uid));
      && D.NodeAt(s.db, pc.uid) == pc.read
      && t.procs[pid].pc.Done? && t.procs[pid].pc.outcome.Updated?
      && (t.procs[pid].pc.outcome.user == now.(passwordHash := "")
          <==> !Clears(op.input.firstName, was.firstName) && !Clears(op.input.lastName, was.lastName)
               && !Clears(op.input.nickname, was.nickname) && !Clears(op.input.country, was.country))
  {
    hide Run, UserOf, Merged, UpdateFields, D.Commit, Clears, HaveActive, D.WellFormed, Step;
    var s := Run(es);
    var Proc(op, pc) := s.procs[pid];
    AlwaysSure(es);
    Extend(es, Act(pid, NoFault));
    UpdateMarks(s.db, pc.uid, pc.read, op.input, op.now);
    CommitsNow(s, pid);
    hide D.Touched, Marked;
    UpdateNode(s.db, pc.uid, pc.read, op.input, op.now, pc.uid);
    UpdateReturnsStored(pc.read, op.input, op.now);
  }

  lemma CommitsNow(s: State, pid: nat)
    requires pid in s.procs && s.procs[pid].pc.Updating? && s.procs[pid].op.Update?
    requires var Proc(op, pc) := s.procs[pid];
      !D.Conflicts(s.db, pc.startTs, UpdateQuads(pc.uid, pc.read, op.input, op.now))
    ensures var Proc(op, pc) := s.procs[pid];
      var t := Step(s, Act(pid, NoFault));
      && t.db == D.Commit(s.db, UpdateQuads(pc.uid, pc.read, op.input, op.now))
      && pid in t.procs && t.procs[pid].pc == Done(Updated(Merged(pc.read, op.input, op.now)))
  {
    hide D.Conflicts, D.Commit, Merged, UpdateFields;
  }
}
