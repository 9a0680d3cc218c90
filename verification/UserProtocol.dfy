// The write methods of internal/repository/dgraph/repository.go as interleaving
// transactions: who may hold an email or a nickname.

module UserProtocol {
  import opened Prelude
  import opened Times
  import opened Text
  import opened Users
  import D = Dgraph

  // --- Queries ---------------------------------------------------------------------------

  function Holders(db: D.Db, p: D.Pred, s: string): seq<D.Uid> {
    D.Scan(db.nodes, n => D.Get(n, p) == Some(D.Text(s)), db.nextUid)
  }

  function GetByEmail(db: D.Db, email: string): Option<User> {
    var found := Holders(db, D.Email, Lower(email));
    if found == [] then None else Some(UserOf(D.NodeAt(db, found[0])))
  }

  /** The condition of the upsert: neither email nor nickname is taken. */
  predicate Free(db: D.Db, u: User) {
    Holders(db, D.Email, Lower(u.email)) == [] && Holders(db, D.Nickname, u.nickname) == []
  }

  // --- Transactions ------------------------------------------------------------------------

  datatype Op = Create(user: User) | Update(id: string, input: UpdateInput, now: int) | Delete(id: string)

  datatype Outcome = Created(uid: D.Uid) | AlreadyExists | Updated(user: User) | Deleted | NotFound | StoreError

  /** Between the snapshot a transaction reads and its commit. */
  datatype Pc =
    | Start
    | Creating(startTs: nat, free: bool)
    | Updating(startTs: nat, uid: D.Uid, read: D.Fields)
    | Deleting(uid: D.Uid)
    | Done(outcome: Outcome)

  function CreateQuads(u: User): seq<D.Quads> { [D.Block(D.Blank, NewUser(u))] }

  function UpdateQuads(uid: D.Uid, read: D.Fields, i: UpdateInput, now: int): seq<D.Quads> {
    [D.Block(D.Iri(uid), UpdateFields(read, i, now))]
  }

  function Answer(f: Fault, o: Outcome): Pc { Done(if f == NoFault then o else StoreError) }

  function Next(db: D.Db, op: Op, pc: Pc, f: Fault): (D.Db, Pc) {
    match (op, pc)
    case (Create(u), Start) => (db, Creating(db.ts, Free(db, u)))
    case (Create(u), Creating(startTs, free)) =>
      if !free then (db, Answer(f, AlreadyExists))
      else if f == Refused || D.Conflicts(db, startTs, CreateQuads(u)) then (db, Done(StoreError))
      else (D.Commit(db, CreateQuads(u)), Answer(f, Created(db.nextUid)))
    case (Update(id, _, _), Start) =>
      var found := Holders(db, D.UserUuid, id);
      if f != NoFault then (db, Done(StoreError))
      else if found == [] then (db, Done(NotFound))
      else (db, Updating(db.ts, found[0], D.NodeAt(db, found[0])))
    case (Update(_, i, now), Updating(startTs, u, n)) =>
      if f == Refused || D.Conflicts(db, startTs, UpdateQuads(u, n, i, now)) then (db, Done(StoreError))
      else (D.Commit(db, UpdateQuads(u, n, i, now)), Answer(f, Updated(Merged(n, i, now))))
    case (Delete(id), Start) =>
      var found := Holders(db, D.UserUuid, id);
      if f != NoFault then (db, Done(StoreError))
      else if found == [] then (db, Done(NotFound))
      else (db, Deleting(found[0]))
    case (Delete(_), Deleting(u)) =>
      if f == Refused then (db, Done(StoreError)) else (D.Delete(db, {u}), Answer(f, Deleted))
    case _ => (db, pc)
  }

  datatype Proc = Proc(op: Op, pc: Pc)

  datatype State = State(db: D.Db, procs: map<nat, Proc>)

  datatype Event = Begin(pid: nat, op: Op) | Act(pid: nat, fault: Fault)

  const INIT := State(D.EMPTY, map[])

  function Step(s: State, e: Event): State {
    match e
    case Begin(pid, op) => if pid in s.procs then s else s.(procs := s.procs[pid := Proc(op, Start)])
    case Act(pid, f) =>
      if pid !in s.procs then s
      else
        var Proc(op, pc) := s.procs[pid];
        var (db, next) := Next(s.db, op, pc, f);
        State(db, s.procs[pid := Proc(op, next)])
  }

  function Run(es: seq<Event>): State {
    if es == [] then INIT else Step(Run(es[..|es| - 1]), es[|es| - 1])
  }

  // --- At most one holder --------------------------------------------------------------------

  ghost predicate HeldBy(db: D.Db, p: D.Pred, x: string, u: D.Uid) { D.Val(db, u, p) == Some(D.Text(x)) }

  ghost predicate AtMostOne(db: D.Db, p: D.Pred, x: string) {
    forall u, v :: HeldBy(db, p, x, u) && HeldBy(db, p, x, v) ==> u == v
  }

  predicate Named(p: D.Pred) { p.Email? || p.Nickname? }

  function FieldOf(u: User, p: D.Pred): string {
    if p.Email? then u.email else u.nickname
  }

  /** A registration under `x` looks `x` up, not some other spelling of it. */
  predicate Normal(op: Op, p: D.Pred, x: string) {
    op.Create? && p.Email? && op.user.email == x ==> Lower(x) == x
  }

  /** An update asks for `x`, which it does not look up. */
  predicate Gives(op: Op, p: D.Pred, x: string) {
    op.Update? && p.Nickname? && op.input.nickname == Some(x) && x != ""
  }

  /** What an open transaction knows, as long as nobody has committed against it. */
  ghost predicate ProcOk(db: D.Db, op: Op, pc: Pc, p: D.Pred, x: string) {
    match pc
    case Creating(startTs, free) =>
      && op.Create? && startTs <= db.ts
      && (free && FieldOf(op.user, p) == x && D.LastWrite(db, D.Index(p, D.Text(x))) <= startTs ==>
            forall u :: !HeldBy(db, p, x, u))
    case Updating(startTs, u, n) =>
      && op.Update? && startTs <= db.ts && u < db.nextUid
      && (D.Get(n, p) == Some(D.Text(x)) && D.LastWrite(db, D.Data(u, p)) <= startTs ==> HeldBy(db, p, x, u))
    case _ => true
  }

  ghost predicate Known(s: State, p: D.Pred, x: string) {
    && D.WellFormed(s.db)
    && (forall pid :: pid in s.procs ==>
          Normal(s.procs[pid].op, p, x) && ProcOk(s.db, s.procs[pid].op, s.procs[pid].pc, p, x))
  }

  ghost predicate Inv(s: State, p: D.Pred, x: string) { Known(s, p, x) && AtMostOne(s.db, p, x) }

  /** Nobody holds `x` that did not before. */
  ghost predicate NoNewHolder(a: D.Db, b: D.Db, p: D.Pred, x: string) {
    forall u :: HeldBy(b, p, x, u) ==> HeldBy(a, p, x, u)
  }

  lemma ProcStable(a: D.Db, b: D.Db, op: Op, pc: Pc, p: D.Pred, x: string)
    requires D.Extends(a, b) && Named(p) && ProcOk(a, op, pc, p, x)
    ensures ProcOk(b, op, pc, p, x)
  {
    match pc
    case Creating(startTs, free) =>
      if D.LastWrite(b, D.Index(p, D.Text(x))) <= startTs {
        assert D.LastWrite(b, D.Index(p, D.Text(x))) == D.LastWrite(a, D.Index(p, D.Text(x)));
        forall u ensures HeldBy(b, p, x, u) <==> HeldBy(a, p, x, u) {
          assert D.Val(b, u, p) == Some(D.Text(x)) <==> D.Val(a, u, p) == Some(D.Text(x));
        }
      }
    case Updating(startTs, u, n) =>
      if D.LastWrite(b, D.Data(u, p)) <= startTs {
        assert D.LastWrite(b, D.Data(u, p)) == D.LastWrite(a, D.Data(u, p));
        assert D.Val(b, u, p) == D.Val(a, u, p);
      }
    case _ =>
  }

  // --- One commit ------------------------------------------------------------------------------

  lemma CreateNode(db: D.Db, u: User, v: D.Uid)
    requires D.WellFormed(db)
    ensures D.NodeAt(D.Commit(db, CreateQuads(u)), v) == if v == db.nextUid then NewUser(u) else D.NodeAt(db, v)
  {
    hide NewUser;
    D.OneBlock(db.nodes, CreateQuads(u)[0], db.nextUid);
    assert map[] + NewUser(u) == NewUser(u);
  }

  lemma UpdateNode(db: D.Db, uid: D.Uid, n: D.Fields, i: UpdateInput, now: int, v: D.Uid)
    ensures D.NodeAt(D.Commit(db, UpdateQuads(uid, n, i, now)), v)
         == if v == uid then D.NodeAt(db, uid) + UpdateFields(n, i, now) else D.NodeAt(db, v)
  {
    hide UpdateFields;
    D.OneBlock(db.nodes, UpdateQuads(uid, n, i, now)[0], db.nextUid);
  }

  lemma NewName(u: User, p: D.Pred, x: string)
    requires Named(p)
    ensures D.Get(NewUser(u), p) == Some(D.Text(x)) <==> x != "" && FieldOf(u, p) == x
  {
    NewUserReads(u);
    hide D.Get, NewUser, Trunc;
  }

  lemma NewId(u: User, x: string)
    ensures D.Get(NewUser(u), D.UserUuid) == Some(D.Text(x)) <==> x != "" && u.id == x
  {
    NewUserReads(u);
    hide D.Get, NewUser, Trunc;
  }

  lemma CreateWrites(db: D.Db, u: User, p: D.Pred)
    requires Named(p) && FieldOf(u, p) != ""
    ensures D.Index(p, D.Text(FieldOf(u, p))) in D.Touched(db.nodes, CreateQuads(u), db.nextUid)
  {
    NewName(u, p, FieldOf(u, p));
    hide NewUser;
    D.TouchedOne(db.nodes, CreateQuads(u)[0], db.nextUid);
  }

  lemma CreateCommits(db: D.Db, u: User, startTs: nat, p: D.Pred, x: string)
    requires D.WellFormed(db) && Named(p) && AtMostOne(db, p, x)
    requires ProcOk(db, Create(u), Creating(startTs, true), p, x) && !D.Conflicts(db, startTs, CreateQuads(u))
    ensures AtMostOne(D.Commit(db, CreateQuads(u)), p, x)
  {
    var t := D.Commit(db, CreateQuads(u));
    if x != "" && FieldOf(u, p) == x {
      CreateWrites(db, u, p);
    }
    assert x != "" && FieldOf(u, p) == x ==> forall v :: !HeldBy(db, p, x, v);
    hide D.Touched, D.WellFormed, D.ApplyQuads, D.Conflicts, D.Commit, ProcOk;
    forall v
      ensures HeldBy(t, p, x, v) <==> if v == db.nextUid then x != "" && FieldOf(u, p) == x else HeldBy(db, p, x, v)
    {
      CreateNode(db, u, v) by {
        assert D.WellFormed(db);
      }
      NewName(u, p, x);
    }
  }

  lemma UpdateName(n: D.Fields, i: UpdateInput, now: int, p: D.Pred, x: string)
    requires Named(p) && !Gives(Update("", i, now), p, x) && D.Get(UpdateFields(n, i, now), p) == Some(D.Text(x))
    ensures D.Get(n, p) == Some(D.Text(x)) && x != ""
  {
    UpdateReads(n, i, now);
    hide UpdateFields, Trunc;
  }

  lemma UpdateCommits(db: D.Db, uid: D.Uid, n: D.Fields, i: UpdateInput, now: int, startTs: nat, id: string,
                      p: D.Pred, x: string)
    requires Named(p) && !Gives(Update(id, i, now), p, x)
    requires ProcOk(db, Update(id, i, now), Updating(startTs, uid, n), p, x)
    requires !D.Conflicts(db, startTs, UpdateQuads(uid, n, i, now))
    ensures NoNewHolder(db, D.Commit(db, UpdateQuads(uid, n, i, now)), p, x)
  {
    var t, f := D.Commit(db, UpdateQuads(uid, n, i, now)), UpdateFields(n, i, now);
    D.TouchedOne(db.nodes, UpdateQuads(uid, n, i, now)[0], db.nextUid);
    if D.Get(f, p) == Some(D.Text(x)) {
      UpdateName(n, i, now, p, x);
      assert D.Data(uid, p) in D.Touched(db.nodes, UpdateQuads(uid, n, i, now), db.nextUid);
    }
    hide D.Touched, D.ApplyQuads, UpdateFields;
    forall v | HeldBy(t, p, x, v) ensures HeldBy(db, p, x, v) {
      UpdateNode(db, uid, n, i, now, v);
      OverReads(D.NodeAt(db, uid), f);
    }
  }

  lemma DeleteKeeps(db: D.Db, u: D.Uid, p: D.Pred, x: string)
    ensures NoNewHolder(db, D.Delete(db, {u}), p, x)
  {
  }

  lemma FewerHolders(a: D.Db, b: D.Db, p: D.Pred, x: string)
    requires AtMostOne(a, p, x) && NoNewHolder(a, b, p, x)
    ensures AtMostOne(b, p, x)
  {
    hide HeldBy;
  }

  // --- One step, any number of steps -----------------------------------------------------------

  /** A step keeps what is known, and uniqueness too unless it gives `x` unseen. */
  ghost predicate Kept(a: D.Db, b: D.Db, op: Op, pc: Pc, p: D.Pred, x: string) {
    D.WellFormed(b) && D.Extends(a, b) && ProcOk(b, op, pc, p, x)
  }

  lemma CreateNext(db: D.Db, u: User, pc: Pc, f: Fault, p: D.Pred, x: string)
    requires D.WellFormed(db) && Named(p) && Normal(Create(u), p, x) && ProcOk(db, Create(u), pc, p, x)
    ensures var t := Next(db, Create(u), pc, f);
      Kept(db, t.0, Create(u), t.1, p, x) && (AtMostOne(db, p, x) ==> AtMostOne(t.0, p, x))
  {
    hide D.Extends, D.WellFormed, D.Conflicts, D.Commit, AtMostOne, D.Scan, NewUser;
    D.ExtendsRefl(db);
    match pc
    case Start =>
      CreateSnapshot(db, u, p, x);
    case Creating(startTs, free) =>
      if free && !D.Conflicts(db, startTs, CreateQuads(u)) {
        if AtMostOne(db, p, x) {
          CreateCommits(db, u, startTs, p, x);
        }
        D.CommitExtends(db, CreateQuads(u));
      }
    case _ =>
  }

  lemma CreateSnapshot(db: D.Db, u: User, p: D.Pred, x: string)
    requires D.WellFormed(db) && Named(p) && Normal(Create(u), p, x)
    ensures ProcOk(db, Create(u), Creating(db.ts, Free(db, u)), p, x)
  {
    if FieldOf(u, p) == x && Free(db, u) {
      var found := Holders(db, p, x);
      assert found == [];
      hide D.Scan, Free;
      forall v ensures !HeldBy(db, p, x, v) {
        assert v !in found;
      }
    }
  }

  lemma UpdateReadsNode(db: D.Db, op: Op, f: Fault, p: D.Pred, x: string)
    requires D.WellFormed(db) && Named(p) && op.Update?
    ensures var t := Next(db, op, Start, f); Kept(db, t.0, op, t.1, p, x) && t.0 == db
  {
    D.ExtendsRefl(db);
    hide D.Extends;
    var found := Holders(db, D.UserUuid, op.id);
    hide D.Scan;
    assert found != [] ==> found[0] in found;
  }

  lemma UpdateLeaves(db: D.Db, op: Op, pc: Pc, p: D.Pred, x: string)
    requires D.WellFormed(db) && Named(p) && op.Update? && ProcOk(db, op, pc, p, x) && pc.Updating?
    requires AtMostOne(db, p, x) && !Gives(op, p, x)
    requires !D.Conflicts(db, pc.startTs, UpdateQuads(pc.uid, pc.read, op.input, op.now))
    ensures AtMostOne(D.Commit(db, UpdateQuads(pc.uid, pc.read, op.input, op.now)), p, x)
  {
    hide D.Extends, AtMostOne;
    UpdateCommits(db, pc.uid, pc.read, op.input, op.now, pc.startTs, op.id, p, x);
    FewerHolders(db, D.Commit(db, UpdateQuads(pc.uid, pc.read, op.input, op.now)), p, x);
  }

  lemma UpdateNext(db: D.Db, op: Op, pc: Pc, f: Fault, p: D.Pred, x: string)
    requires D.WellFormed(db) && Named(p) && op.Update? && ProcOk(db, op, pc, p, x)
    ensures var t := Next(db, op, pc, f);
      Kept(db, t.0, op, t.1, p, x) && (AtMostOne(db, p, x) && !Gives(op, p, x) ==> AtMostOne(t.0, p, x))
  {
    D.ExtendsRefl(db);
    hide D.Extends, AtMostOne, D.Conflicts, D.Commit, UpdateFields, HeldBy;
    match pc
    case Start => UpdateReadsNode(db, op, f, p, x);
    case Updating(startTs, u, n) =>
      var quads := UpdateQuads(u, n, op.input, op.now);
      if !D.Conflicts(db, startTs, quads) {
        if AtMostOne(db, p, x) && !Gives(op, p, x) {
          UpdateLeaves(db, op, pc, p, x);
        }
        D.CommitExtends(db, quads);
        hide D.WellFormed;
      }
    case _ =>
  }

  lemma DeleteNext(db: D.Db, op: Op, pc: Pc, f: Fault, p: D.Pred, x: string)
    requires D.WellFormed(db) && Named(p) && op.Delete? && ProcOk(db, op, pc, p, x)
    ensures var t := Next(db, op, pc, f);
      Kept(db, t.0, op, t.1, p, x) && (AtMostOne(db, p, x) ==> AtMostOne(t.0, p, x))
  {
    D.ExtendsRefl(db);
    hide D.Extends, D.Delete, D.Scan, HeldBy, AtMostOne;
    if pc.Deleting? {
      DeleteKeeps(db, pc.uid, p, x);
      if AtMostOne(db, p, x) {
        FewerHolders(db, D.Delete(db, {pc.uid}), p, x);
      }
      D.DeleteExtends(db, {pc.uid});
      hide D.WellFormed;
    }
  }

  lemma NextKeeps(db: D.Db, op: Op, pc: Pc, f: Fault, p: D.Pred, x: string)
    requires D.WellFormed(db) && Named(p) && Normal(op, p, x) && ProcOk(db, op, pc, p, x)
    ensures var t := Next(db, op, pc, f);
      Kept(db, t.0, op, t.1, p, x) && (AtMostOne(db, p, x) && !Gives(op, p, x) ==> AtMostOne(t.0, p, x))
  {
    hide D.WellFormed, AtMostOne, Next, Kept, ProcOk;
    match op
    case Create(u) => CreateNext(db, u, pc, f, p, x);
    case Update(_, _, _) => UpdateNext(db, op, pc, f, p, x);
    case Delete(_) => DeleteNext(db, op, pc, f, p, x);
  }

  /** This event commits an update that asks for `x`. */
  ghost predicate GivesAway(s: State, e: Event, p: D.Pred, x: string) {
    e.Act? && e.pid in s.procs && Gives(s.procs[e.pid].op, p, x)
    && var Proc(op, pc) := s.procs[e.pid];
       pc.Updating? && e.fault != Refused
       && !D.Conflicts(s.db, pc.startTs, UpdateQuads(pc.uid, pc.read, op.input, op.now))
  }

  /** Whatever an operation does, what open transactions know stays known; and a
      value has at most one holder still, unless it is given away unseen. */
  lemma StepKeeps(s: State, e: Event, p: D.Pred, x: string)
    requires Named(p) && Known(s, p, x) && (e.Begin? ==> Normal(e.op, p, x))
    ensures Known(Step(s, e), p, x) && D.Extends(s.db, Step(s, e).db)
    ensures AtMostOne(s.db, p, x) && !GivesAway(s, e, p, x) ==> AtMostOne(Step(s, e).db, p, x)
  {
    D.ExtendsRefl(s.db);
    hide D.WellFormed, AtMostOne, D.Extends, Next, Normal, D.Conflicts;
    match e
    case Begin(_, _) =>
    case Act(pid, f) =>
      if pid in s.procs {
        var Proc(op, pc) := s.procs[pid];
        NextKeeps(s.db, op, pc, f, p, x);
        if Gives(op, p, x) && !GivesAway(s, e, p, x) {
          Withheld(s.db, op, pc, f);
        }
        hide ProcOk, GivesAway;
        forall q | q in s.procs ensures ProcOk(Next(s.db, op, pc, f).0, s.procs[q].op, s.procs[q].pc, p, x) {
          ProcStable(s.db, Next(s.db, op, pc, f).0, s.procs[q].op, s.procs[q].pc, p, x);
        }
      }
  }

  /** An update that does not commit changes nothing. */
  lemma Withheld(db: D.Db, op: Op, pc: Pc, f: Fault)
    requires op.Update?
    requires pc.Updating? && f != Refused ==>
      D.Conflicts(db, pc.startTs, UpdateQuads(pc.uid, pc.read, op.input, op.now))
    ensures Next(db, op, pc, f).0 == db
  {
    hide D.Conflicts, D.Scan;
  }

  /** Registrations look `x` up, and no update asks for it. */
  ghost predicate AllChecked(es: seq<Event>, p: D.Pred, x: string) {
    forall e :: e in es && e.Begin? ==> Normal(e.op, p, x) && !Gives(e.op, p, x)
  }

  lemma {:induction false} RunKeeps(es: seq<Event>, p: D.Pred, x: string)
    requires Named(p) && AllChecked(es, p, x)
    ensures Inv(Run(es), p, x) && forall pid :: pid in Run(es).procs ==> !Gives(Run(es).procs[pid].op, p, x)
  {
    hide Step, Normal, Gives;
    if es == [] {
    } else {
      var init, last := es[..|es| - 1], es[|es| - 1];
      assert forall e :: e in init ==> e in es;
      assert last in es;
      RunKeeps(init, p, x);
      StepKeeps(Run(init), last, p, x);
      hide Known, AtMostOne, D.Extends;
      OpsKept(Run(init), last);
    }
  }

  lemma OpsKept(s: State, e: Event)
    ensures forall pid :: pid in Step(s, e).procs ==>
      (pid in s.procs && Step(s, e).procs[pid].op == s.procs[pid].op) || (e.Begin? && e.op == Step(s, e).procs[pid].op)
  {
    hide Next;
  }

  // --- Theorems --------------------------------------------------------------------------------

  /** Whatever registrations, updates and deletions interleave, and whatever else
      is stored, a lower-case email belongs to one user at most. */
  lemma EmailUnique(es: seq<Event>, email: string)
    requires Lower(email) == email
    ensures AtMostOne(Run(es).db, D.Email, email)
  {
    hide Run;
    RunKeeps(es, D.Email, email);
  }

  /** When all registrations are in lower case, as validated ones are, every
      email has one holder at most. */
  lemma NormalisedUnique(es: seq<Event>)
    requires forall e :: e in es && e.Begin? && e.op.Create? ==> Lower(e.op.user.email) == e.op.user.email
    ensures forall email :: AtMostOne(Run(es).db, D.Email, email)
  {
    hide Run, Lower;
    forall email ensures AtMostOne(Run(es).db, D.Email, email) {
      RunKeeps(es, D.Email, email);
    }
  }

  /** The first match for an email is the only one, however the caller spells it. */
  lemma EmailLookupSound(es: seq<Event>, email: string, u: D.Uid)
    ensures var db := Run(es).db;
      && |Holders(db, D.Email, Lower(email))| <= 1
      && (HeldBy(db, D.Email, Lower(email), u) ==> GetByEmail(db, email) == Some(UserOf(D.NodeAt(db, u))))
  {
    hide Run, UserOf;
    LowerIdempotent(email);
    RunKeeps(es, D.Email, Lower(email));
    var db := Run(es).db;
    var found := Holders(db, D.Email, Lower(email));
    hide D.Scan, AtMostOne, Inv;
    assert Inv(Run(es), D.Email, Lower(email));
    LookupIn(db, Lower(email), u);
  }

  lemma LookupIn(db: D.Db, email: string, u: D.Uid)
    requires D.WellFormed(db) && AtMostOne(db, D.Email, email)
    ensures |Holders(db, D.Email, email)| <= 1
    ensures HeldBy(db, D.Email, email, u) ==> Holders(db, D.Email, email) == [u]
  {
    var found := Holders(db, D.Email, email);
    hide D.Scan;
    assert forall i :: 0 <= i < |found| ==> found[i] in found;
    assert |found| > 1 ==> HeldBy(db, D.Email, email, found[0]) && HeldBy(db, D.Email, email, found[1]);
    if HeldBy(db, D.Email, email, u) {
      assert u in found;
      assert HeldBy(db, D.Email, email, found[0]);
    }
  }

  // --- Where uniqueness ends ---------------------------------------------------------------------

  lemma Extend(es: seq<Event>, e: Event)
    ensures Run(es + [e]) == Step(Run(es), e)
  {
    assert (es + [e])[..|es|] == es;
  }

  /** An operation from start to end, nobody else moving and every round trip answered. */
  function Solo(pid: nat, op: Op): seq<Event> { [Begin(pid, op), Act(pid, NoFault), Act(pid, NoFault)] }

  lemma RunAlone(es: seq<Event>, pid: nat, op: Op)
    ensures Run(es + Solo(pid, op)) == Step(Step(Step(Run(es), Begin(pid, op)), Act(pid, NoFault)), Act(pid, NoFault))
  {
    hide Run, Step;
    var e1, e2 := es + [Begin(pid, op)], es + [Begin(pid, op)] + [Act(pid, NoFault)];
    Extend(es, Begin(pid, op));
    Extend(e1, Act(pid, NoFault));
    Extend(e2, Act(pid, NoFault));
    assert es + Solo(pid, op) == e2 + [Act(pid, NoFault)];
  }

  lemma NoConflictNow(db: D.Db, quads: seq<D.Quads>)
    requires D.WellFormed(db)
    ensures !D.Conflicts(db, db.ts, quads)
  {
  }

  lemma RegisterAlone(es: seq<Event>, pid: nat, u: User)
    requires pid !in Run(es).procs && Free(Run(es).db, u)
    ensures Run(es + Solo(pid, Create(u))).db == D.Commit(Run(es).db, CreateQuads(u))
    ensures Run(es + Solo(pid, Create(u))).procs.Keys == Run(es).procs.Keys + {pid}
  {
    hide Run, Free, D.Commit, D.Conflicts, CreateQuads, Solo, D.WellFormed;
    Sound(es);
    NoConflictNow(Run(es).db, CreateQuads(u));
    RunAlone(es, pid, Create(u));
  }

  /** Every reachable database is sound: no email can be both absent and taken. */
  lemma Sound(es: seq<Event>)
    ensures D.WellFormed(Run(es).db)
  {
    hide Run;
    assert Lower("") == "";
    RunKeeps(es, D.Email, "");
  }

  function Named2(id: string, nick: string, email: string): User {
    User(id, "Ann", "Lee", nick, "hash", email, "KE", true, 0, 0)
  }

  lemma HeadIn(s: seq<D.Uid>)
    ensures s != [] ==> s[0] in s
  {
  }

  lemma NoHolders(db: D.Db, p: D.Pred, x: string)
    requires forall u :: u in db.nodes ==> D.Get(db.nodes[u], p) != Some(D.Text(x))
    ensures Holders(db, p, x) == []
  {
    var found := Holders(db, p, x);
    hide D.Scan;
    HeadIn(found);
  }

  lemma FirstFree(u: User)
    ensures Free(INIT.db, u)
  {
    hide D.Scan;
    NoHolders(INIT.db, D.Email, Lower(u.email));
    NoHolders(INIT.db, D.Nickname, u.nickname);
  }

  lemma SecondFree(u: User, v: User)
    requires u.nickname != v.nickname && Lower(v.email) != u.email
    ensures Free(D.Commit(INIT.db, CreateQuads(u)), v)
  {
    var db := D.Commit(INIT.db, CreateQuads(u));
    hide NewUser, D.Scan;
    D.OneBlock(map[], CreateQuads(u)[0], 1);
    assert map[] + NewUser(u) == NewUser(u);
    assert db.nodes == map[1 := NewUser(u)];
    hide D.Commit;
    NewName(u, D.Email, Lower(v.email));
    NewName(u, D.Nickname, v.nickname);
    NoHolders(db, D.Email, Lower(v.email));
    NoHolders(db, D.Nickname, v.nickname);
  }

  lemma EmptyNodes()
    ensures forall w :: D.NodeAt(INIT.db, w) == map[]
  {
  }

  lemma TwoNodes(u: User, v: User)
    ensures var db := D.Commit(D.Commit(INIT.db, CreateQuads(u)), CreateQuads(v));
      && db.nextUid == 3
      && D.NodeAt(db, 1) == NewUser(u) && D.NodeAt(db, 2) == NewUser(v)
      && forall w :: w != 1 && w != 2 ==> D.NodeAt(db, w) == map[]
  {
    var a := D.Commit(INIT.db, CreateQuads(u));
    var b := D.Commit(a, CreateQuads(v));
    OneAccount(INIT.db, u);
    OneAccount(a, v);
    EmptyNodes();
    hide D.WellFormed, D.NodeAt, D.Commit, NewUser, CreateQuads;
    forall w
      ensures D.NodeAt(b, w) == if w == 1 then NewUser(u) else if w == 2 then NewUser(v) else D.NodeAt(INIT.db, w)
    {
      CreateNode(INIT.db, u, w);
      CreateNode(a, v, w);
    }
  }

  /** A committed registration takes the next uid. */
  lemma OneAccount(db: D.Db, u: User)
    requires D.WellFormed(db)
    ensures D.WellFormed(D.Commit(db, CreateQuads(u))) && D.Commit(db, CreateQuads(u)).nextUid == db.nextUid + 1
  {
    HasBlank(u);
    D.CommitExtends(db, CreateQuads(u));
    hide D.WellFormed, D.Extends, CreateQuads, D.UsesBlank, D.ApplyQuads, D.Touched, D.Stamp;
  }

  lemma HasBlank(u: User)
    ensures D.UsesBlank(CreateQuads(u))
  {
    hide NewUser;
    assert CreateQuads(u)[0].subject.Blank?;
  }

  lemma RegisterTwo(u: User, v: User) returns (es: seq<Event>)
    requires u.nickname != v.nickname && Lower(v.email) != u.email
    ensures es == Solo(0, Create(u)) + Solo(1, Create(v))
    ensures Run(es).db == D.Commit(D.Commit(INIT.db, CreateQuads(u)), CreateQuads(v))
    ensures Run(es).procs.Keys == {0, 1}
  {
    hide Run, Step, NewUser, Free, D.Commit, CreateQuads, Lower, Solo;
    NoProcs();
    FirstFree(u);
    RegisterAlone([], 0, u);
    assert [] + Solo(0, Create(u)) == Solo(0, Create(u));
    SecondFree(u, v);
    es := Solo(0, Create(u)) + Solo(1, Create(v));
    RegisterAlone(Solo(0, Create(u)), 1, v);
  }

  /** The query lower-cases the email and the mutation does not: two users can
      come to share an email exactly when it is not in lower case already. */
  lemma EmailUniqueIff(email: string)
    ensures (forall es :: AtMostOne(Run(es).db, D.Email, email)) <==> Lower(email) == email
  {
    hide Run;
    if Lower(email) == email {
      forall es ensures AtMostOne(Run(es).db, D.Email, email) {
        EmailUnique(es, email);
      }
    } else {
      var u, v := Named2("1", "ann", email), Named2("2", "bob", email);
      var es := RegisterTwo(u, v);
      TwoNodes(u, v);
      hide D.Commit, Solo;
      NewName(u, D.Email, email);
      NewName(v, D.Email, email);
      hide NewUser;
      assert HeldBy(Run(es).db, D.Email, email, 1) && HeldBy(Run(es).db, D.Email, email, 2);
    }
  }

  /** An update with nobody in its way. */
  lemma UpdateAlone(es: seq<Event>, pid: nat, op: Op, u: D.Uid)
    requires op.Update? && pid !in Run(es).procs && Holders(Run(es).db, D.UserUuid, op.id) == [u]
    ensures Run(es + Solo(pid, op)).db
         == D.Commit(Run(es).db, UpdateQuads(u, D.NodeAt(Run(es).db, u), op.input, op.now))
  {
    hide Run, Holders, D.Commit, D.Conflicts, UpdateQuads, Solo, D.WellFormed, D.NodeAt;
    Sound(es);
    NoConflictNow(Run(es).db, UpdateQuads(u, D.NodeAt(Run(es).db, u), op.input, op.now));
    RunAlone(es, pid, op);
  }

  lemma OnlyHolder(db: D.Db, p: D.Pred, x: string, u: D.Uid)
    requires u < db.nextUid && u in db.nodes
    requires forall v :: v in db.nodes ==> (D.Get(db.nodes[v], p) == Some(D.Text(x)) <==> v == u)
    ensures Holders(db, p, x) == [u]
  {
    var found := Holders(db, p, x);
    hide D.Scan;
    assert u in found;
    assert forall i :: 0 <= i < |found| ==> found[i] in found;
    assert forall v :: v in found <==> v == u;
    assert forall i :: 0 <= i < |found| ==> found[i] == u;
    assert found[0] == u && found[|found| - 1] == u;
  }

  // --- Nicknames --------------------------------------------------------------------------------

  /** Event `j` is the read of the operation of `pid`. */
  ghost predicate ReadAt(es: seq<Event>, j: int, pid: nat) {
    0 <= j < |es| && es[j].Act? && es[j].pid == pid && pid in Run(es[..j]).procs && Run(es[..j]).procs[pid].pc == Start
  }

  /** Event `k` commits an update that asks for the nickname. */
  ghost predicate Handed(es: seq<Event>, k: int, nick: string) {
    0 <= k < |es| && GivesAway(Run(es[..k]), es[k], D.Nickname, nick)
  }

  /** When that update read, nobody but the user it is for held the nickname. */
  ghost predicate Vetted(es: seq<Event>, k: int, nick: string)
    requires Handed(es, k, nick)
  {
    forall j, v :: j < k && ReadAt(es, j, es[k].pid) && HeldBy(Run(es[..j]).db, D.Nickname, nick, v) ==>
      v == Run(es[..k]).procs[es[k].pid].pc.uid
  }

  lemma {:induction false} AlwaysKnown(es: seq<Event>, x: string)
    ensures Known(Run(es), D.Nickname, x)
  {
    hide Step;
    if es == [] {
    } else {
      AlwaysKnown(es[..|es| - 1], x);
      hide Known, AtMostOne, D.Extends;
      StepKeeps(Run(es[..|es| - 1]), es[|es| - 1], D.Nickname, x);
    }
  }

  lemma {:induction false} RunExtends(es: seq<Event>, j: nat, k: nat)
    requires j <= k <= |es|
    ensures D.Extends(Run(es[..j]).db, Run(es[..k]).db)
  {
    hide D.Extends, Run, Known, AtMostOne, Step;
    if j == k {
      D.ExtendsRefl(Run(es[..j]).db);
    } else {
      RunExtends(es, j, k - 1);
      AlwaysKnown(es[..k - 1], "");
      StepKeeps(Run(es[..k - 1]), es[k - 1], D.Nickname, "");
      Prefix(es, k);
      D.ExtendsTrans(Run(es[..j]).db, Run(es[..k - 1]).db, Run(es[..k]).db);
    }
  }

  lemma Prefix(es: seq<Event>, k: nat)
    requires 0 < k <= |es|
    ensures Run(es[..k]) == Step(Run(es[..k - 1]), es[k - 1])
  {
    assert es[..k][..k - 1] == es[..k - 1];
  }

  /** Where an open update read what it has in hand. */
  lemma {:induction false} Snapshot(es: seq<Event>, k: nat, pid: nat) returns (j: nat)
    requires k <= |es| && pid in Run(es[..k]).procs && Run(es[..k]).procs[pid].pc.Updating?
    ensures j < k && ReadAt(es, j, pid) && Run(es[..j]).db.ts == Run(es[..k]).procs[pid].pc.startTs
  {
    hide Run;
    assert k > 0 by { assert es[..0] == []; NoProcs(); }
    Prefix(es, k);
    var s, e := Run(es[..k - 1]), es[k - 1];
    StillUpdating(s, e, pid);
    if pid in s.procs && s.procs[pid].pc.Updating? {
      j := Snapshot(es, k - 1, pid);
    } else {
      j := k - 1;
    }
  }

  lemma NoProcs()
    ensures Run([]) == INIT
  {
  }

  lemma StillUpdating(s: State, e: Event, pid: nat)
    requires pid in Step(s, e).procs && Step(s, e).procs[pid].pc.Updating?
    ensures pid in s.procs
    ensures (s.procs[pid].pc.Updating? && Step(s, e).procs[pid].pc == s.procs[pid].pc)
         || (e.Act? && e.pid == pid && s.procs[pid].pc == Start && Step(s, e).procs[pid].pc.startTs == s.db.ts)
  {
    hide D.Scan, D.Conflicts, D.Commit, D.Delete;
  }

  lemma {:induction false} OneRead(es: seq<Event>, j: nat, k: nat, pid: nat)
    requires j < k <= |es| && ReadAt(es, j, pid)
    ensures pid in Run(es[..k]).procs && Run(es[..k]).procs[pid].pc != Start
  {
    hide Run;
    Prefix(es, k);
    if j == k - 1 {
      LeavesStart(Run(es[..j]), es[j]);
    } else {
      OneRead(es, j, k - 1, pid);
      NeverStarts(Run(es[..k - 1]), es[k - 1], pid);
    }
  }

  lemma LeavesStart(s: State, e: Event)
    requires e.Act? && e.pid in s.procs && s.procs[e.pid].pc == Start
    ensures e.pid in Step(s, e).procs && Step(s, e).procs[e.pid].pc != Start
  {
    hide D.Scan;
  }

  lemma NeverStarts(s: State, e: Event, pid: nat)
    requires pid in s.procs && s.procs[pid].pc != Start
    ensures pid in Step(s, e).procs && Step(s, e).procs[pid].pc != Start
  {
    hide D.Scan, D.Conflicts, D.Commit, D.Delete;
  }

  /** The commit of an update that asks for `x` finds the holders its read found. */
  lemma HoldersSince(snap: D.Db, db: D.Db, uid: D.Uid, n: D.Fields, i: UpdateInput, now: int, x: string)
    requires D.Extends(snap, db) && Gives(Update("", i, now), D.Nickname, x)
    requires !D.Conflicts(db, snap.ts, UpdateQuads(uid, n, i, now))
    ensures forall v :: HeldBy(db, D.Nickname, x, v) <==> HeldBy(snap, D.Nickname, x, v)
  {
    D.TouchedOne(db.nodes, UpdateQuads(uid, n, i, now)[0], db.nextUid);
    UpdateReads(n, i, now);
    hide UpdateFields;
    assert D.Get(UpdateFields(n, i, now), D.Nickname) == Some(D.Text(x));
    assert D.Index(D.Nickname, D.Text(x)) in D.Touched(db.nodes, UpdateQuads(uid, n, i, now), db.nextUid);
    hide D.Touched;
    assert D.LastWrite(db, D.Index(D.Nickname, D.Text(x))) <= snap.ts;
    forall v ensures HeldBy(db, D.Nickname, x, v) <==> HeldBy(snap, D.Nickname, x, v) {
      assert D.Val(db, v, D.Nickname) == Some(D.Text(x)) <==> D.Val(snap, v, D.Nickname) == Some(D.Text(x));
    }
  }

  /** After it, the user it was for holds `x` besides whoever did. */
  lemma HoldersAfter(db: D.Db, uid: D.Uid, n: D.Fields, i: UpdateInput, now: int, x: string, v: D.Uid)
    requires Gives(Update("", i, now), D.Nickname, x)
    ensures HeldBy(D.Commit(db, UpdateQuads(uid, n, i, now)), D.Nickname, x, v)
       <==> v == uid || HeldBy(db, D.Nickname, x, v)
  {
    UpdateReads(n, i, now);
    UpdateNode(db, uid, n, i, now, v);
    OverReads(D.NodeAt(db, uid), UpdateFields(n, i, now));
    hide UpdateFields, D.Commit;
  }

  /** One such commit leaves at most one holder if and only if its read found
      nobody but the user it is for. */
  lemma HandedIff(es: seq<Event>, k: nat, nick: string)
    requires Handed(es, k, nick) && AtMostOne(Run(es[..k]).db, D.Nickname, nick)
    ensures AtMostOne(Run(es[..k + 1]).db, D.Nickname, nick) <==> Vetted(es, k, nick)
  {
    hide Run, D.Extends, D.Conflicts, UpdateFields, D.Commit, HeldBy, Known;
    var s, e := Run(es[..k]), es[k];
    var op, pc := s.procs[e.pid].op, s.procs[e.pid].pc;
    var j := Snapshot(es, k, e.pid);
    var snap := Run(es[..j]).db;
    RunExtends(es, j, k);
    HoldersSince(snap, s.db, pc.uid, pc.read, op.input, op.now, nick);
    Prefix(es, k + 1);
    GivenNow(s, e, nick);
    var t := Run(es[..k + 1]).db;
    forall v ensures HeldBy(t, D.Nickname, nick, v) <==> v == pc.uid || HeldBy(snap, D.Nickname, nick, v) {
      HoldersAfter(s.db, pc.uid, pc.read, op.input, op.now, nick, v);
    }
    assert HeldBy(t, D.Nickname, nick, pc.uid);
    forall i | i < k && ReadAt(es, i, e.pid) ensures i == j {
      SameRead(es, i, j, e.pid);
    }
    hide ReadAt;
  }

  lemma SameRead(es: seq<Event>, i: nat, j: nat, pid: nat)
    requires ReadAt(es, i, pid) && ReadAt(es, j, pid)
    ensures i == j
  {
    hide Run;
    if i < j {
      OneRead(es, i, j, pid);
    } else if j < i {
      OneRead(es, j, i, pid);
    }
  }

  lemma GivenNow(s: State, e: Event, nick: string)
    requires GivesAway(s, e, D.Nickname, nick)
    ensures var Proc(op, pc) := s.procs[e.pid];
      Step(s, e).db == D.Commit(s.db, UpdateQuads(pc.uid, pc.read, op.input, op.now))
  {
    hide D.Conflicts, D.Commit, UpdateFields;
  }

  /** Over every run: a nickname never has two holders if and only if every update
      that gave it out found, when it read, nobody else holding it. That read is
      enough, for the commit refuses if anybody took or left the nickname since. */
  lemma NicknameUniqueIff(es: seq<Event>, nick: string)
    ensures (forall k :: 0 <= k <= |es| ==> AtMostOne(Run(es[..k]).db, D.Nickname, nick))
       <==> (forall k :: Handed(es, k, nick) ==> Vetted(es, k, nick))
  {
    hide Run, AtMostOne, Vetted, Handed;
    if forall k :: Handed(es, k, nick) ==> Vetted(es, k, nick) {
      forall k | 0 <= k <= |es| ensures AtMostOne(Run(es[..k]).db, D.Nickname, nick) {
        UniqueUpTo(es, k, nick);
      }
    }
    if forall k :: 0 <= k <= |es| ==> AtMostOne(Run(es[..k]).db, D.Nickname, nick) {
      forall k | Handed(es, k, nick) ensures Vetted(es, k, nick) {
        HandedWithin(es, k, nick);
        HandedIff(es, k, nick);
      }
    }
  }

  lemma HandedWithin(es: seq<Event>, k: int, nick: string)
    requires Handed(es, k, nick)
    ensures 0 <= k < |es|
  {
  }

  lemma {:induction false} UniqueUpTo(es: seq<Event>, k: nat, nick: string)
    requires k <= |es| && forall i :: Handed(es, i, nick) ==> Vetted(es, i, nick)
    ensures AtMostOne(Run(es[..k]).db, D.Nickname, nick)
  {
    hide Run, AtMostOne, Vetted, Known, D.Extends, Step, GivesAway;
    if k == 0 {
      assert es[..0] == [];
      NoProcs();
      NobodyYet(nick);
    } else {
      UniqueUpTo(es, k - 1, nick);
      Prefix(es, k);
      if Handed(es, k - 1, nick) {
        HandedIff(es, k - 1, nick);
      } else {
        AlwaysKnown(es[..k - 1], nick);
        StepKeeps(Run(es[..k - 1]), es[k - 1], D.Nickname, nick);
      }
    }
  }

  lemma NobodyYet(x: string)
    ensures AtMostOne(INIT.db, D.Nickname, x)
  {
  }

  /** A text without spaces has none to trim. */
  lemma NothingToTrim(s: string)
    requires s != "" && !Space(s[0]) && !Space(s[|s| - 1])
    ensures Trim(s) == s
  {
  }

  lemma Account(id: string, nick: string, email: string)
    requires id != "" && NicknameMatches(nick) && email in {"ann@x.io", "bob@x.io"}
    ensures Registrable(Named2(id, nick, email))
  {
    NothingToTrim("Ann");
    NothingToTrim("Lee");
    NothingToTrim("KE");
    assert OneOf(nick[0], "_-") && OneOf(nick[|nick| - 1], "_-");
    NothingToTrim(nick);
    GoodEmail(email);
    hide NicknameMatches, Trim, EmailMatches, Lower;
  }

  lemma GoodEmail(email: string)
    requires email in {"ann@x.io", "bob@x.io"}
    ensures Trim(email) == email && Lower(email) == email && EmailMatches(email)
  {
    NothingToTrim(email);
    hide Trim;
    assert EmailSplits(email, 3, 5);
  }

  /** Two registrations, and an update that gives the second user the first one's nickname. */
  lemma Share(u: User, v: User, nick: string) returns (es: seq<Event>)
    requires u.nickname == nick != "" && v.nickname != nick && Lower(v.email) != u.email
    requires u.id == "1" && v.id == "2"
    ensures es == Solo(0, Create(u)) + Solo(1, Create(v))
                + Solo(2, Update("2", UpdateInput(None, None, Some(nick), None), 0))
    ensures !AtMostOne(Run(es).db, D.Nickname, nick)
  {
    hide Run, Holders, Solo, Lower, D.Commit, NewUser, UpdateFields, CreateQuads, UpdateQuads;
    var e2 := RegisterTwo(u, v);
    TwoNodes(u, v);
    var db, op := Run(e2).db, Update("2", UpdateInput(None, None, Some(nick), None), 0);
    NewId(u, "2");
    NewId(v, "2");
    assert u.id != "2" by { assert u.id[0] == '1'; }
    forall w | w in db.nodes ensures D.Get(db.nodes[w], D.UserUuid) == Some(D.Text("2")) <==> w == 2 {
      assert db.nodes[w] == D.NodeAt(db, w);
    }
    UidsBelow(e2);
    OnlyHolder(db, D.UserUuid, "2", 2);
    UpdateAlone(e2, 2, op, 2);
    es := e2 + Solo(2, op);
    HoldersAfter(db, 2, D.NodeAt(db, 2), op.input, 0, nick, 1);
    HoldersAfter(db, 2, D.NodeAt(db, 2), op.input, 0, nick, 2);
    NewName(u, D.Nickname, nick);
    assert HeldBy(Run(es).db, D.Nickname, nick, 1) && HeldBy(Run(es).db, D.Nickname, nick, 2);
  }

  lemma UidsBelow(es: seq<Event>)
    ensures D.WellFormed(Run(es).db)
  {
    Sound(es);
  }

  /** Any nickname that registration accepts can come to be shared by users that
      registration accepts: an update gives it to a second one. */
  lemma NicknameShared(nick: string) returns (es: seq<Event>)
    requires NicknameMatches(nick)
    ensures !AtMostOne(Run(es).db, D.Nickname, nick)
    ensures forall e :: e in es && e.Begin? ==>
      (e.op.Create? && Registrable(e.op.user)) || (e.op.Update? && e.op.input.nickname == Some(nick))
  {
    hide Run, Registrable, NicknameMatches, AtMostOne;
    var other := if nick == "bob" then "ann" else "bob";
    ShortNames();
    NotEmpty(nick);
    assert other != nick by { assert "ann"[0] != "bob"[0]; }
    var u, v := Named2("1", nick, "ann@x.io"), Named2("2", other, "bob@x.io");
    Account("1", nick, "ann@x.io");
    Account("2", other, "bob@x.io");
    assert Lower("bob@x.io")[0] == 'b';
    es := Share(u, v, nick);
  }

  lemma ShortNames()
    ensures NicknameMatches("ann") && NicknameMatches("bob")
  {
  }

  lemma NotEmpty(nick: string)
    requires NicknameMatches(nick)
    ensures nick != ""
  {
  }
}
