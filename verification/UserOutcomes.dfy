// What each write method of internal/repository/dgraph/repository.go comes to in
// any run, told from its request, the fate of its round trips and the database
// they meet.

module UserOutcomes {
  import opened Prelude
  import opened Times
  import opened Text
  import opened Users
  import opened UserProtocol
  import opened UserUpdates
  import D = Dgraph

  /** A node is an account, or nothing at all. */
  ghost predicate Tidy(db: D.Db) {
    forall u :: D.NodeAt(db, u) != map[] ==> D.Get(D.NodeAt(db, u), D.DType) == Some(D.Type(D.UserType))
  }

  /** An update read an account. */
  ghost predicate ReadAccount(pc: Pc) {
    pc.Updating? ==> D.Get(pc.read, D.DType) == Some(D.Type(D.UserType))
  }

  ghost predicate Orderly(s: State) {
    Sure(s) && Tidy(s.db) && forall pid :: pid in s.procs ==> ReadAccount(s.procs[pid].pc)
  }

  // --- One commit, node by node -------------------------------------------------------------------

  lemma NewType(u: User)
    ensures D.Get(NewUser(u), D.DType) == Some(D.Type(D.UserType))
  {
    NewUserReads(u);
    hide NewUser, Trunc;
  }

  lemma UpdateType(n: D.Fields, m: D.Fields, i: UpdateInput, now: int)
    ensures D.Get(m + UpdateFields(n, i, now), D.DType) == D.Get(m, D.DType)
  {
    UpdateReads(n, i, now);
    OverReads(m, UpdateFields(n, i, now));
    hide UpdateFields, Trunc, Merged;
    assert D.Get(UpdateFields(n, i, now), D.DType) == None;
  }

  lemma HasType(n: D.Fields)
    requires D.Get(n, D.DType).Some?
    ensures n != map[] && D.DType in n
  {
  }

  /** What a step leaves at node `v`. */
  lemma NextNode(db: D.Db, op: Op, pc: Pc, f: Fault, v: D.Uid)
    requires D.WellFormed(db)
    ensures var t, n := Next(db, op, pc, f).0, D.NodeAt(db, v);
      && db.nextUid <= t.nextUid
      && (D.NodeAt(t, v) == n
          || (op.Create? && v == db.nextUid && D.NodeAt(t, v) == NewUser(op.user))
          || (op.Update? && pc.Updating? && v == pc.uid && D.NodeAt(t, v) == n + UpdateFields(pc.read, op.input, op.now)
              && !D.Conflicts(db, pc.startTs, UpdateQuads(pc.uid, pc.read, op.input, op.now)))
          || D.NodeAt(t, v) == map[])
  {
    hide NewUser, UpdateFields, D.Conflicts, D.ApplyQuads, D.Touched, D.Scan, D.WellFormed, Merged;
    match (op, pc)
    case (Create(u), Creating(_, _)) => CreateNode(db, u, v);
    case (Update(_, i, now), Updating(_, u, n)) => UpdateNode(db, u, n, i, now, v);
    case (Delete(_), Deleting(u)) => DeleteNode(db, u, v);
    case _ =>
  }

  /** An update that may commit still finds the node it read. */
  lemma StillRead(db: D.Db, pc: Pc, i: UpdateInput, now: int)
    requires pc.Updating? && ReadOk(db, pc) && !D.Conflicts(db, pc.startTs, UpdateQuads(pc.uid, pc.read, i, now))
    requires D.WellFormed(db) && HaveActive(db)
    ensures D.NodeAt(db, pc.uid) == pc.read
  {
    UpdateMarks(db, pc.uid, pc.read, i, now);
    hide D.Touched, UpdateFields, Marked, HaveActive, D.WellFormed;
    assert D.LastWrite(db, D.Data(pc.uid, D.Active)) <= pc.startTs;
  }

  lemma NodeKept(db: D.Db, op: Op, pc: Pc, f: Fault, v: D.Uid)
    requires D.WellFormed(db) && HaveActive(db) && ReadOk(db, pc) && ReadAccount(pc) && Tidy(db)
    ensures var t, n := Next(db, op, pc, f).0, D.NodeAt(db, v);
      && (D.NodeAt(t, v) != map[] ==> D.Get(D.NodeAt(t, v), D.DType) == Some(D.Type(D.UserType)))
      && (n == map[] && v < db.nextUid ==> D.NodeAt(t, v) == map[])
  {
    hide Next, NewUser, UpdateFields, D.Conflicts, D.WellFormed, HaveActive, ReadOk, Tidy;
    NextNode(db, op, pc, f, v);
    assert D.NodeAt(db, v) != map[] ==> D.Get(D.NodeAt(db, v), D.DType) == Some(D.Type(D.UserType)) by {
      assert Tidy(db);
      OneTidy(db, v);
    }
    if op.Create? {
      NewType(op.user);
    }
    if op.Update? && pc.Updating? && !D.Conflicts(db, pc.startTs, UpdateQuads(pc.uid, pc.read, op.input, op.now)) {
      StillRead(db, pc, op.input, op.now);
      HasType(pc.read);
      UpdateType(pc.read, pc.read, op.input, op.now);
    }
  }

  lemma OneTidy(db: D.Db, v: D.Uid)
    requires Tidy(db)
    ensures D.NodeAt(db, v) != map[] ==> D.Get(D.NodeAt(db, v), D.DType) == Some(D.Type(D.UserType))
  {
  }

  lemma ReadsAccount(db: D.Db, op: Op, pc: Pc, f: Fault)
    requires D.WellFormed(db) && Tidy(db) && ReadAccount(pc)
    ensures ReadAccount(Next(db, op, pc, f).1)
  {
    hide Tidy, D.Conflicts, D.Commit, D.Delete, Merged, UpdateFields, NewUser;
    if op.Update? && pc.Start? {
      var found := Holders(db, D.UserUuid, op.id);
      HoldersIff(db, D.UserUuid, op.id);
      if found != [] {
        OneTidy(db, found[0]);
      }
    }
  }

  lemma StepOrderly(s: State, e: Event)
    requires Orderly(s)
    ensures Orderly(Step(s, e))
    ensures forall v: D.Uid :: v < s.db.nextUid && D.NodeAt(s.db, v) == map[] ==> D.NodeAt(Step(s, e).db, v) == map[]
    ensures s.db.nextUid <= Step(s, e).db.nextUid
  {
    hide Next, Sure, ReadAccount, D.WellFormed, HaveActive, ReadOk;
    StepSure(s, e);
    if e.Act? && e.pid in s.procs {
      var Proc(op, pc) := s.procs[e.pid];
      SureParts(s, e.pid);
      forall v: D.Uid
        ensures var t := Next(s.db, op, pc, e.fault).0;
          && (D.NodeAt(t, v) != map[] ==> D.Get(D.NodeAt(t, v), D.DType) == Some(D.Type(D.UserType)))
          && (D.NodeAt(s.db, v) == map[] && v < s.db.nextUid ==> D.NodeAt(t, v) == map[])
      {
        NodeKept(s.db, op, pc, e.fault, v);
      }
      NextNode(s.db, op, pc, e.fault, 0);
      ReadsAccount(s.db, op, pc, e.fault);
    } else if e.Begin? {
      assert ReadAccount(Start) by { NothingRead(); }
    }
  }

  lemma NothingRead()
    ensures ReadAccount(Start)
  {
  }

  lemma SureParts(s: State, pid: nat)
    requires Sure(s) && pid in s.procs
    ensures D.WellFormed(s.db) && HaveActive(s.db) && ReadOk(s.db, s.procs[pid].pc)
  {
    hide D.WellFormed, HaveActive, ReadOk;
  }

  lemma {:induction false} AlwaysOrderly(es: seq<Event>)
    ensures Orderly(Run(es))
  {
    hide Step, Orderly;
    if es == [] {
      AlwaysSure([]);
      NobodyAtFirst();
    } else {
      AlwaysOrderly(es[..|es| - 1]);
      StepOrderly(Run(es[..|es| - 1]), es[|es| - 1]);
    }
  }

  lemma NobodyAtFirst()
    requires Sure(INIT)
    ensures Orderly(INIT)
  {
    hide Sure;
  }

  // --- Holders ------------------------------------------------------------------------------------

  /** A lookup finds nobody exactly when nobody holds the value, and otherwise the first who does. */
  lemma HoldersIff(db: D.Db, p: D.Pred, x: string)
    requires D.WellFormed(db)
    ensures var found := Holders(db, p, x);
      if found == [] then forall u :: !HeldBy(db, p, x, u)
      else HeldBy(db, p, x, found[0]) && found[0] < db.nextUid && forall u :: HeldBy(db, p, x, u) ==> found[0] <= u
  {
    var found := Holders(db, p, x);
    forall u ensures u in found <==> HeldBy(db, p, x, u) {
      assert HeldBy(db, p, x, u) ==> u in db.nodes;
    }
    hide D.Scan, HeldBy;
    assert found != [] ==> found[0] in found;
  }

  // --- Deleting -----------------------------------------------------------------------------------

  /** In any run the lookup of a deletion finds the first account with the requested
      id, if it is answered and there is one. */
  lemma DeleteLooksUp(es: seq<Event>, pid: nat, id: string, f: Fault)
    requires pid in Run(es).procs && Run(es).procs[pid] == Proc(Delete(id), Start)
    ensures var s, t := Run(es), Run(es + [Act(pid, f)]);
      && t.db == s.db && pid in t.procs && t.procs[pid].op == Delete(id)
      && var pc := t.procs[pid].pc;
         if f != NoFault then pc == Done(StoreError)
         else if forall v :: !HeldBy(s.db, D.UserUuid, id, v) then pc == Done(NotFound)
         else && pc.Deleting? && HeldBy(s.db, D.UserUuid, id, pc.uid)
              && forall v :: HeldBy(s.db, D.UserUuid, id, v) ==> pc.uid <= v
  {
    hide Run, HeldBy, D.WellFormed, D.Conflicts, D.Commit, D.Delete;
    Extend(es, Act(pid, f));
    Sound(es);
    HoldersIff(Run(es).db, D.UserUuid, id);
    hide D.Scan;
  }

  /** And its write, unless it is refused, leaves nothing of that account and
      everything of the others. */
  lemma DeleteActs(es: seq<Event>, pid: nat, id: string, u: D.Uid, f: Fault)
    requires pid in Run(es).procs && Run(es).procs[pid] == Proc(Delete(id), Deleting(u))
    ensures var s, t := Run(es), Run(es + [Act(pid, f)]);
      && pid in t.procs && t.procs[pid].pc == Done(if f == NoFault then Deleted else StoreError)
      && if f == Refused then t.db == s.db
         else forall v :: D.NodeAt(t.db, v) == if v == u then map[] else D.NodeAt(s.db, v)
  {
    hide Run, D.WellFormed, D.Delete, HaveActive, Sure;
    Extend(es, Act(pid, f));
    AlwaysOrderly(es);
    var s := Run(es);
    forall v ensures D.NodeAt(D.Delete(s.db, {u}), v) == if v == u then map[] else D.NodeAt(s.db, v) {
      DeleteNode(s.db, u, v);
      OneTidy(s.db, v);
      hide Tidy;
      if D.NodeAt(s.db, v) != map[] {
        HasType(D.NodeAt(s.db, v));
      }
    }
  }

  /** What is deleted stays so: in no continuation does a query by id, email or
      nickname return that account. */
  lemma {:induction false} DeletedForGood(es: seq<Event>, more: seq<Event>, u: D.Uid)
    requires u < Run(es).db.nextUid && D.NodeAt(Run(es).db, u) == map[]
    ensures u < Run(es + more).db.nextUid && D.NodeAt(Run(es + more).db, u) == map[]
    ensures forall p, x :: u !in Holders(Run(es + more).db, p, x)
  {
    hide Run, Step, Orderly, Holders;
    if more == [] {
      assert es + more == es;
    } else {
      var init, last := more[..|more| - 1], more[|more| - 1];
      DeletedForGood(es, init, u);
      assert es + more == es + init + [last];
      Extend(es + init, last);
      AlwaysOrderly(es + init);
      StepOrderly(Run(es + init), last);
    }
    forall p, x ensures u !in Holders(Run(es + more).db, p, x) { EmptyUnheld(Run(es + more).db, u, p, x); }
  }

  lemma EmptyUnheld(db: D.Db, u: D.Uid, p: D.Pred, x: string)
    requires D.NodeAt(db, u) == map[]
    ensures u !in Holders(db, p, x)
  {
  }

  // --- Registering --------------------------------------------------------------------------------

  /** The snapshot of a registration: is the email, in small letters, or the nickname taken? */
  lemma CreateLooksUp(es: seq<Event>, pid: nat, u: User, f: Fault)
    requires pid in Run(es).procs && Run(es).procs[pid] == Proc(Create(u), Start)
    ensures var s, t := Run(es), Run(es + [Act(pid, f)]);
      && t.db == s.db && pid in t.procs && t.procs[pid].op == Create(u)
      && t.procs[pid].pc == Creating(s.db.ts, (forall v :: !HeldBy(s.db, D.Email, Lower(u.email), v))
                                              && (forall v :: !HeldBy(s.db, D.Nickname, u.nickname, v)))
  {
    hide Run, HeldBy, D.WellFormed, D.Conflicts, D.Commit, D.Delete, Lower;
    Extend(es, Act(pid, f));
    Sound(es);
    HoldersIff(Run(es).db, D.Email, Lower(u.email));
    HoldersIff(Run(es).db, D.Nickname, u.nickname);
    hide D.Scan;
  }

  lemma QuietCommits(db: D.Db, quads: seq<D.Quads>)
    requires D.WellFormed(db)
    ensures !D.Conflicts(db, db.ts, quads)
  {
    hide D.Touched;
  }

  /** And its commit: with a free email and nickname, and unless a key it writes was
      committed since, one new account that reads back as the one given; if nobody
      committed anything since, it does succeed. */
  lemma CreateActs(es: seq<Event>, pid: nat, u: User, startTs: nat, free: bool, f: Fault)
    requires pid in Run(es).procs && Run(es).procs[pid] == Proc(Create(u), Creating(startTs, free))
    ensures var s, t := Run(es), Run(es + [Act(pid, f)]);
      var conflict := D.Conflicts(s.db, startTs, CreateQuads(u));
      && (startTs == s.db.ts ==> !conflict)
      && pid in t.procs
      && if !free then t.db == s.db && t.procs[pid].pc == Done(if f == NoFault then AlreadyExists else StoreError)
         else if f == Refused || conflict then t.db == s.db && t.procs[pid].pc == Done(StoreError)
         else && t.procs[pid].pc == Done(if f == NoFault then Created(s.db.nextUid) else StoreError)
              && D.Get(D.NodeAt(t.db, s.db.nextUid), D.DType) == Some(D.Type(D.UserType))
              && UserOf(D.NodeAt(t.db, s.db.nextUid))
                 == u.(createdAt := Trunc(u.createdAt), updatedAt := Trunc(u.updatedAt))
              && forall v :: v != s.db.nextUid ==> D.NodeAt(t.db, v) == D.NodeAt(s.db, v)
  {
    hide Run, D.WellFormed, D.Conflicts, D.Commit, NewUser, UserOf, Trunc;
    Extend(es, Act(pid, f));
    Sound(es);
    var s := Run(es);
    QuietCommits(s.db, CreateQuads(u));
    forall v ensures D.NodeAt(D.Commit(s.db, CreateQuads(u)), v)
                  == if v == s.db.nextUid then NewUser(u) else D.NodeAt(s.db, v) { CreateNode(s.db, u, v); }
    UserReadBack(u);
    NewType(u);
  }

  // --- Updating -----------------------------------------------------------------------------------

  /** The read of an update finds the first account with the requested id. */
  lemma UpdateLooksUp(es: seq<Event>, pid: nat, id: string, i: UpdateInput, now: int, f: Fault)
    requires pid in Run(es).procs && Run(es).procs[pid] == Proc(Update(id, i, now), Start)
    ensures var s, t := Run(es), Run(es + [Act(pid, f)]);
      && t.db == s.db && pid in t.procs && t.procs[pid].op == Update(id, i, now)
      && var pc := t.procs[pid].pc;
         if f != NoFault then pc == Done(StoreError)
         else if forall v :: !HeldBy(s.db, D.UserUuid, id, v) then pc == Done(NotFound)
         else && pc.Updating? && pc.startTs == s.db.ts && pc.read == D.NodeAt(s.db, pc.uid)
              && HeldBy(s.db, D.UserUuid, id, pc.uid)
              && forall v :: HeldBy(s.db, D.UserUuid, id, v) ==> pc.uid <= v
  {
    hide Run, HeldBy, D.WellFormed, D.Conflicts, D.Commit, D.Delete;
    Extend(es, Act(pid, f));
    Sound(es);
    HoldersIff(Run(es).db, D.UserUuid, id);
    hide D.Scan;
  }

  /** And its commit, unless a key it writes was committed since: the four names that
      were given and are not empty are replaced, the time of the update is set, and
      nothing else of the account or of any other changes. The answer is the
      account as it was with the given names, empty or not, without its password. */
  lemma UpdateActs(es: seq<Event>, pid: nat, id: string, i: UpdateInput, now: int, f: Fault)
    requires pid in Run(es).procs && Run(es).procs[pid].op == Update(id, i, now) && Run(es).procs[pid].pc.Updating?
    ensures var s, t := Run(es), Run(es + [Act(pid, f)]);
      var pc := s.procs[pid].pc;
      var conflict := D.Conflicts(s.db, pc.startTs, UpdateQuads(pc.uid, pc.read, i, now));
      var was, becomes := UserOf(D.NodeAt(s.db, pc.uid)), UserOf(D.NodeAt(t.db, pc.uid));
      && (pc.startTs == s.db.ts ==> !conflict)
      && pid in t.procs
      && if f == Refused || conflict then t.db == s.db && t.procs[pid].pc == Done(StoreError)
         else && becomes == was.(
                firstName := if i.firstName.Some? && i.firstName.value != "" then i.firstName.value else was.firstName,
                lastName := if i.lastName.Some? && i.lastName.value != "" then i.lastName.value else was.lastName,
                nickname := if i.nickname.Some? && i.nickname.value != "" then i.nickname.value else was.nickname,
                country := if i.country.Some? && i.country.value != "" then i.country.value else was.country,
                updatedAt := Trunc(now))
              && (forall v :: v != pc.uid ==> D.NodeAt(t.db, v) == D.NodeAt(s.db, v))
              && t.procs[pid].pc == Done(if f != NoFault then StoreError else Updated(was.(
                   firstName := if i.firstName.Some? then i.firstName.value else was.firstName,
                   lastName := if i.lastName.Some? then i.lastName.value else was.lastName,
                   nickname := if i.nickname.Some? then i.nickname.value else was.nickname,
                   country := if i.country.Some? then i.country.value else was.country,
                   passwordHash := "", updatedAt := Trunc(now))))
  {
    hide Run, D.WellFormed, D.Conflicts, D.Commit, UpdateFields, UserOf, Trunc, HaveActive, ReadOk;
    Extend(es, Act(pid, f));
    AlwaysSure(es);
    Sound(es);
    var s := Run(es);
    var pc := s.procs[pid].pc;
    var quads := UpdateQuads(pc.uid, pc.read, i, now);
    QuietCommits(s.db, quads);
    if !D.Conflicts(s.db, pc.startTs, quads) {
      StillRead(s.db, pc, i, now);
    }
    forall v ensures D.NodeAt(D.Commit(s.db, quads), v)
                  == if v == pc.uid then D.NodeAt(s.db, v) + UpdateFields(pc.read, i, now) else D.NodeAt(s.db, v) {
      UpdateNode(s.db, pc.uid, pc.read, i, now, v);
    }
    UpdateStores(pc.read, i, now);
  }
}
