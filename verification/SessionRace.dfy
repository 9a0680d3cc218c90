// Exactly which commits of others make a rotation lose
// (RotateTokens in internal/repository/dgraph/session.go).

module SessionRaces {
  import opened Prelude
  import opened Sessions
  import opened SessionStore
  import opened SessionRepository
  import D = Dgraph

  /** The keys a mutation writes. */
  function Written(db: D.Db, m: Mutation): set<D.Key> {
    if m.Purge? then D.DeletedKeys(db.nodes, Members(m.uids)) else D.Touched(db.nodes, QuadsOf(m), db.nextUid)
  }

  lemma WriteTimes(db: D.Db, m: Mutation, k: D.Key)
    ensures D.LastWrite(Apply(db, m), k) == if k in Written(db, m) then db.ts + 1 else D.LastWrite(db, k)
  {
    hide D.Touched, D.ApplyQuads, D.DeletedKeys, QuadsOf;
  }

  /** Nothing was ever written at a uid that has not been handed out. */
  ghost predicate NewUidsUnwritten(db: D.Db) {
    forall u, p :: u >= db.nextUid ==> D.LastWrite(db, D.Data(u, p)) == 0
  }

  // --- The keys of one block ---------------------------------------------------------

  lemma PlainKeys(u: D.Uid, n: D.Fields, s: D.Subject, f: D.Fields)
    requires forall p :: p in f ==> Mutable(p)
    ensures D.KeysOf(u, n, D.Block(s, f)) == set p | p in f :: D.Data(u, p)
  {
    assert forall p :: p in f ==> !D.Upsert(p);
  }

  lemma NewPreds(c: Core)
    ensures forall p :: p in NewFields(c) && D.Upsert(p) ==> p.AccessHash? || p.RefreshHash?
    ensures D.AccessHash in NewFields(c) && NewFields(c)[D.AccessHash] == D.Hashed(c.accessHash)
    ensures D.RefreshHash in NewFields(c) && NewFields(c)[D.RefreshHash] == D.Hashed(c.refreshHash)
  {
  }

  /** `v` is one of the two digests of a core. */
  predicate DigestAt(c: Core, p: D.Pred, v: D.Value) {
    (p.AccessHash? && v == D.Hashed(c.accessHash)) || (p.RefreshHash? && v == D.Hashed(c.refreshHash))
  }

  function NewKeySet(u: D.Uid, c: Core): set<D.Key> {
    (set p | p in NewFields(c) :: D.Data(u, p))
    + {D.Index(D.AccessHash, D.Hashed(c.accessHash)), D.Index(D.RefreshHash, D.Hashed(c.refreshHash))}
  }

  lemma NewKeys(u: D.Uid, c: Core)
    ensures D.KeysOf(u, map[], D.Block(D.Blank, NewFields(c))) == NewKeySet(u, c)
  {
    NewPreds(c);
    hide NewFields;
  }

  function DataKeys(u: D.Uid, f: D.Fields): set<D.Key> { set p | p in f :: D.Data(u, p) }

  lemma RotateKeys(db: D.Db, prev: D.Uid, now: int, c: Core)
    requires D.WellFormed(db) && prev < db.nextUid
    ensures Written(db, Rotate(prev, now, c))
         == DataKeys(prev, ReplaceFields(now, c.refreshJti)) + NewKeySet(db.nextUid, c)
  {
    hide NewFields, D.KeysOf, D.Touched;
    var f := ReplaceFields(now, c.refreshJti);
    var a, b := D.Block(D.Iri(prev), f), D.Block(D.Blank, NewFields(c));
    D.TouchedTwo(db.nodes, a, b, db.nextUid);
    D.TouchedOne(db.nodes, a, db.nextUid);
    D.OneBlock(db.nodes, a, db.nextUid);
    D.TouchedOne(D.ApplyQuads(db.nodes, [a], db.nextUid), b, db.nextUid);
    PlainKeys(prev, D.Read(db.nodes, prev), D.Iri(prev), f);
    NewKeys(db.nextUid, c);
  }

  lemma CreateKeys(db: D.Db, c: Core)
    requires D.WellFormed(db)
    ensures Written(db, Create(c)) == NewKeySet(db.nextUid, c)
  {
    hide NewFields, D.KeysOf, D.Touched;
    D.TouchedOne(db.nodes, D.Block(D.Blank, NewFields(c)), db.nextUid);
    NewKeys(db.nextUid, c);
  }

  lemma TouchKeys(db: D.Db, u: D.Uid, now: int)
    ensures Written(db, Mutation.Touch(u, now)) == DataKeys(u, TouchFields(now))
  {
    hide D.KeysOf, D.Touched;
    D.TouchedOne(db.nodes, D.Block(D.Iri(u), TouchFields(now)), db.nextUid);
    PlainKeys(u, D.Read(db.nodes, u), D.Iri(u), TouchFields(now));
  }

  lemma {:induction false} RevokeKeys(nodes: map<D.Uid, D.Fields>, uids: seq<D.Uid>, now: int, blank: D.Uid, k: D.Key)
    ensures k in D.Touched(nodes, RevokeQuads(uids, now), blank)
       <==> k.Data? && k.uid in uids && k.pred in RevokeFields(now)
  {
    var quads := RevokeQuads(uids, now);
    if uids != [] {
      var init, last := uids[..|uids| - 1], uids[|uids| - 1];
      assert quads[..|quads| - 1] == RevokeQuads(init, now);
      assert uids == init + [last];
      RevokeKeys(nodes, init, now, blank, k);
      PlainKeys(last, D.Read(D.ApplyQuads(nodes, RevokeQuads(init, now), blank), last), D.Iri(last), RevokeFields(now));
    }
  }

  // --- What each mutation writes -----------------------------------------------------

  /** The mutation rewrites or removes what a rotation of `u` replaces. */
  predicate Hits(m: Mutation, u: D.Uid) {
    match m
    case Create(_) => false
    case Revoke(uids, _) => u in uids
    case Rotate(prev, _, _) => prev == u
    case Touch(_, _) => false
    case Purge(uids) => u in uids
  }

  /** No mutation uses the digest pair of `c`. */
  predicate Apart(m: Mutation, c: Core) {
    m.Create? || m.Rotate? ==> m.core.accessHash != c.accessHash && m.core.refreshHash != c.refreshHash
  }

  predicate Holds(n: D.Fields, c: Core) {
    D.Get(n, D.AccessHash) == Some(D.Hashed(c.accessHash)) || D.Get(n, D.RefreshHash) == Some(D.Hashed(c.refreshHash))
  }

  ghost predicate Unheld(db: D.Db, c: Core) {
    forall u :: !Holds(D.NodeAt(db, u), c)
  }

  predicate Replaced(p: D.Pred) { p.Revoked? || p.RevokedAt? || p.ReplacedBy? || p.UpdatedAt? }

  lemma WritesReplaced(db: D.Db, m: Mutation, u: D.Uid, p: D.Pred)
    requires D.WellFormed(db) && Grounded(db, m) && u < db.nextUid && Replaced(p)
    ensures D.Data(u, p) in Written(db, m) ==> Hits(m, u)
    ensures Hits(m, u) && Typed(D.NodeAt(db, u)) && Live(D.NodeAt(db, u)) ==> D.Data(u, D.Revoked) in Written(db, m)
  {
    hide NewFields, D.WellFormed;
    match m
    case Create(c) =>
      CreateKeys(db, c);
    case Revoke(uids, now) =>
      RevokeKeys(db.nodes, uids, now, db.nextUid, D.Data(u, p));
      RevokeKeys(db.nodes, uids, now, db.nextUid, D.Data(u, D.Revoked));
    case Rotate(prev, now, c) =>
      RotateKeys(db, prev, now, c);
    case Touch(v, now) =>
      TouchKeys(db, v, now);
    case Purge(_) =>
  }

  lemma PurgesOld(db: D.Db, uids: seq<D.Uid>, u: D.Uid, p: D.Pred)
    requires D.WellFormed(db) && u >= db.nextUid
    ensures D.Data(u, p) !in Written(db, Mutation.Purge(uids))
  {
    assert u !in db.nodes;
  }

  lemma WritesNew(db: D.Db, m: Mutation, u: D.Uid, p: D.Pred)
    requires D.WellFormed(db) && Grounded(db, m)
    requires u >= db.nextUid + (if m.Create? || m.Rotate? then 1 else 0)
    ensures D.Data(u, p) !in Written(db, m)
  {
    hide NewFields, Apply, D.WellFormed;
    match m
    case Create(c) =>
      CreateKeys(db, c);
    case Revoke(uids, now) =>
      RevokeKeys(db.nodes, uids, now, db.nextUid, D.Data(u, p));
    case Rotate(prev, now, c) =>
      RotateKeys(db, prev, now, c);
    case Touch(v, now) =>
      TouchKeys(db, v, now);
    case Purge(uids) =>
      PurgesOld(db, uids, u, p);
  }

  lemma WritesDigest(db: D.Db, m: Mutation, c: Core, p: D.Pred, v: D.Value)
    requires D.WellFormed(db) && Grounded(db, m) && Apart(m, c) && Unheld(db, c) && DigestAt(c, p, v)
    ensures D.Index(p, v) !in Written(db, m)
  {
    hide NewFields, D.WellFormed;
    match m
    case Create(d) =>
      CreateKeys(db, d);
    case Revoke(uids, now) =>
      RevokeKeys(db.nodes, uids, now, db.nextUid, D.Index(p, v));
    case Rotate(prev, now, d) =>
      RotateKeys(db, prev, now, d);
    case Touch(w, now) =>
      TouchKeys(db, w, now);
    case Purge(uids) =>
      assert forall u :: u in db.nodes ==> !Holds(D.NodeAt(db, u), c);
  }

  lemma EffectUnheld(db: D.Db, m: Mutation, c: Core, u: D.Uid)
    requires Apart(m, c) && !Holds(D.NodeAt(db, u), c)
    ensures !Holds(Effect(db, m, u), c)
  {
    if m.Create? || m.Rotate? {
      NewPreds(m.core);
    }
    hide NewFields;
  }

  lemma StaysUnheld(db: D.Db, m: Mutation, c: Core)
    requires D.WellFormed(db) && Grounded(db, m) && Apart(m, c) && Unheld(db, c)
    ensures Unheld(Apply(db, m), c)
  {
    forall u ensures !Holds(D.NodeAt(Apply(db, m), u), c) {
      ApplyEffect(db, m, u);
      hide Apply, NewFields, D.WellFormed, Grounded;
      EffectUnheld(db, m, c, u);
    }
  }

  /** Until something hits it, a live session stays live. */
  lemma StaysLive(db: D.Db, m: Mutation, u: D.Uid)
    requires D.WellFormed(db) && Grounded(db, m) && u < db.nextUid && !Hits(m, u)
    requires Typed(D.NodeAt(db, u)) && Live(D.NodeAt(db, u))
    ensures Typed(D.NodeAt(Apply(db, m), u)) && Live(D.NodeAt(Apply(db, m), u))
  {
    ApplyEffect(db, m, u);
    hide Apply, NewFields;
    if m.Touch? {
      StatusTouched(D.NodeAt(db, u), m.now);
    }
  }

  // --- The race ------------------------------------------------------------------------

  ghost predicate Hit(ms: seq<Mutation>, u: D.Uid) {
    exists i :: 0 <= i < |ms| && Hits(ms[i], u)
  }

  /** Where a rotation of `u` to `c` stands once `ms` are committed. */
  ghost predicate RaceState(start: D.Db, ms: seq<Mutation>, u: D.Uid, c: Core) {
    var db := ApplyAll(start, ms);
    && NewUidsUnwritten(db)
    && Unheld(db, c)
    && (forall p, v :: DigestAt(c, p, v) ==> D.LastWrite(db, D.Index(p, v)) <= start.ts)
    && (forall p :: Replaced(p) && D.LastWrite(db, D.Data(u, p)) > start.ts ==> Hit(ms, u))
    && (Hit(ms, u) ==> D.LastWrite(db, D.Data(u, D.Revoked)) > start.ts)
    && (!Hit(ms, u) ==> Typed(D.NodeAt(db, u)) && Live(D.NodeAt(db, u)))
  }

  lemma HitLast(ms: seq<Mutation>, u: D.Uid)
    requires ms != []
    ensures Hit(ms, u) <==> Hit(ms[..|ms| - 1], u) || Hits(ms[|ms| - 1], u)
  {
    var init := ms[..|ms| - 1];
    if Hit(init, u) {
      var i :| 0 <= i < |init| && Hits(init[i], u);
      assert Hits(ms[i], u);
    }
    if Hit(ms, u) {
      var i :| 0 <= i < |ms| && Hits(ms[i], u);
      assert i < |init| ==> Hits(init[i], u);
    }
  }

  lemma {:induction false} RaceStates(start: D.Db, ms: seq<Mutation>, u: D.Uid, c: Core)
    requires D.WellFormed(start) && NewUidsUnwritten(start) && GroundedAll(start, ms) && u < start.nextUid
    requires Typed(D.NodeAt(start, u)) && Live(D.NodeAt(start, u))
    requires Unheld(start, c) && forall i :: 0 <= i < |ms| ==> Apart(ms[i], c)
    ensures RaceState(start, ms, u, c)
  {
    if ms == [] {
    } else {
      var init, m := ms[..|ms| - 1], ms[|ms| - 1];
      var db := ApplyAll(start, init);
      RaceStates(start, init, u, c);
      ApplyAllExtends(start, init);
      HitLast(ms, u);
      RaceStep(start, init, m, db, u, c);
    }
  }

  lemma RaceStep(start: D.Db, init: seq<Mutation>, m: Mutation, db: D.Db, u: D.Uid, c: Core)
    requires db == ApplyAll(start, init) && D.WellFormed(db) && D.Extends(start, db)
    requires RaceState(start, init, u, c) && Grounded(db, m) && Apart(m, c) && u < start.nextUid
    ensures var next := Apply(db, m);
      && NewUidsUnwritten(next)
      && Unheld(next, c)
      && (forall p, v :: DigestAt(c, p, v) ==> D.LastWrite(next, D.Index(p, v)) <= start.ts)
      && (forall p :: Replaced(p) && D.LastWrite(next, D.Data(u, p)) > start.ts ==> Hit(init, u) || Hits(m, u))
      && (Hit(init, u) || Hits(m, u) ==> D.LastWrite(next, D.Data(u, D.Revoked)) > start.ts)
      && (!Hit(init, u) && !Hits(m, u) ==> Typed(D.NodeAt(next, u)) && Live(D.NodeAt(next, u)))
  {
    hide D.WellFormed, Apply, Written, Hit, Hits, Unheld, Grounded, ApplyAll;
    var next := Apply(db, m);
    ApplyExtends(db, m);
    hide D.Extends;
    forall v, p | v >= next.nextUid ensures D.LastWrite(next, D.Data(v, p)) == 0 {
      WritesNew(db, m, v, p);
      WriteTimes(db, m, D.Data(v, p));
    }
    StaysUnheld(db, m, c);
    forall p, v | DigestAt(c, p, v) ensures D.LastWrite(next, D.Index(p, v)) <= start.ts {
      WritesDigest(db, m, c, p, v);
      WriteTimes(db, m, D.Index(p, v));
    }
    forall p | Replaced(p) && D.LastWrite(next, D.Data(u, p)) > start.ts ensures Hit(init, u) || Hits(m, u) {
      WritesReplaced(db, m, u, p);
      WriteTimes(db, m, D.Data(u, p));
    }
    WritesReplaced(db, m, u, D.Revoked);
    WriteTimes(db, m, D.Data(u, D.Revoked));
    if !Hit(init, u) && !Hits(m, u) {
      StaysLive(db, m, u);
    }
  }

  /** The keys a rotation writes: those of the session it replaces, those of the
      new session, and the digests. */
  lemma RotationKey(db: D.Db, prev: D.Uid, now: int, c: Core, k: D.Key)
    requires D.WellFormed(db) && prev < db.nextUid
    ensures k in Written(db, Rotate(prev, now, c)) && k.Data? ==>
      (k.uid == prev && Replaced(k.pred)) || k.uid == db.nextUid
    ensures k in Written(db, Rotate(prev, now, c)) && k.Index? ==> DigestAt(c, k.ipred, k.value)
    ensures k == D.Data(prev, D.Revoked) ==> k in Written(db, Rotate(prev, now, c))
  {
    RotateKeys(db, prev, now, c);
    hide D.WellFormed, Written;
  }

  lemma LosesIff(db: D.Db, startTs: nat, prev: D.Uid, now: int, c: Core, hit: bool)
    requires D.WellFormed(db) && prev < db.nextUid
    requires forall p :: D.LastWrite(db, D.Data(db.nextUid, p)) == 0
    requires forall p, v :: DigestAt(c, p, v) ==> D.LastWrite(db, D.Index(p, v)) <= startTs
    requires forall p :: Replaced(p) && D.LastWrite(db, D.Data(prev, p)) > startTs ==> hit
    requires hit ==> D.LastWrite(db, D.Data(prev, D.Revoked)) > startTs
    ensures D.Conflicts(db, startTs, QuadsOf(Rotate(prev, now, c))) <==> hit
  {
    hide D.WellFormed, D.LastWrite, D.Touched, QuadsOf, DigestAt, Replaced;
    var m := Rotate(prev, now, c);
    RotationKey(db, prev, now, c, D.Data(prev, D.Revoked));
    forall k | k in Written(db, m) && D.LastWrite(db, k) > startTs ensures hit {
      RotationKey(db, prev, now, c, k);
    }
  }

  /** A rotation that read a live session loses at commit if and only if, since its
      read, another commit revoked, rotated or purged that very session. Touches,
      logins and anything done to other sessions never abort it. */
  lemma RotationRace(start: D.Db, between: seq<Mutation>, prev: D.Uid, now: int, c: Core)
    requires D.WellFormed(start) && NewUidsUnwritten(start) && GroundedAll(start, between) && prev < start.nextUid
    requires Typed(D.NodeAt(start, prev)) && Live(D.NodeAt(start, prev))
    requires Unheld(start, c) && forall i :: 0 <= i < |between| ==> Apart(between[i], c)
    ensures D.Conflicts(ApplyAll(start, between), start.ts, QuadsOf(Rotate(prev, now, c))) <==> Hit(between, prev)
  {
    RaceStates(start, between, prev, c);
    ApplyAllExtends(start, between);
    hide ApplyAll, D.WellFormed, Hit, GroundedAll, Unheld, D.Conflicts;
    LosesIff(ApplyAll(start, between), start.ts, prev, now, c, Hit(between, prev));
  }

  /** What the race theorem asks of the database holds of every one that
      grounded mutations build. */
  lemma {:induction false} UnwrittenAlways(ms: seq<Mutation>)
    requires GroundedAll(D.EMPTY, ms)
    ensures D.WellFormed(ApplyAll(D.EMPTY, ms)) && NewUidsUnwritten(ApplyAll(D.EMPTY, ms))
  {
    hide Apply, Written, Grounded;
    ApplyAllExtends(D.EMPTY, ms);
    hide D.WellFormed, D.Extends;
    if ms != [] {
      var init, m := ms[..|ms| - 1], ms[|ms| - 1];
      var db := ApplyAll(D.EMPTY, init);
      UnwrittenAlways(init);
      ApplyExtends(db, m);
      forall u, p | u >= Apply(db, m).nextUid ensures D.LastWrite(Apply(db, m), D.Data(u, p)) == 0 {
        WritesNew(db, m, u, p);
        WriteTimes(db, m, D.Data(u, p));
      }
    }
  }
}
