// internal/repository/dgraph/repository.go, method by method. `after` is what
// others have made of the database between a method's two round trips.

module UserRepository {
  import opened Prelude
  import opened Times
  import opened Text
  import opened Users
  import opened UserProtocol
  import D = Dgraph

  /** One operation from start to end, others committing in between. */
  function Alone(db: D.Db, op: Op, first: Fault, after: D.Db, second: Fault): (D.Db, Pc) {
    var (db1, pc) := Next(db, op, Start, first);
    if pc.Done? then (db1, pc) else Next(after, op, pc, second)
  }

  class UserRepo {
    var db: D.Db

    ghost predicate Valid()
      reads this
    {
      D.WellFormed(db)
    }

    constructor ()
      ensures Valid() && db == D.EMPTY
    {
      db := D.EMPTY;
    }

    /** A commit that is refused if another transaction was there first. */
    method Commit(startTs: nat, quads: seq<D.Quads>, f: Fault) returns (ok: bool)
      requires Valid() && D.Grounded(db, quads)
      modifies this
      ensures Valid()
      ensures ok <==> f == NoFault && !D.Conflicts(old(db), startTs, quads)
      ensures db == if f == Refused || D.Conflicts(old(db), startTs, quads) then old(db) else D.Commit(old(db), quads)
    {
      if f == Refused || D.Conflicts(db, startTs, quads) {
        return false;
      }
      D.CommitExtends(db, quads);
      db := D.Commit(db, quads);
      ok := f == NoFault;
    }

    /** Query and conditional mutation of one upsert request. */
    method Create(u: User, after: D.Db, f: Fault) returns (r: Outcome)
      requires Valid() && D.WellFormed(after) && D.Extends(db, after)
      modifies this
      ensures Valid()
      ensures (db, Done(r)) == Alone(old(db), Op.Create(u), NoFault, after, f)
    {
      var startTs := db.ts;
      var email := Holders(db, D.Email, Lower(u.email));
      var nickname := Holders(db, D.Nickname, u.nickname);
      db := after;
      if email != [] || nickname != [] {
        return if f == NoFault then AlreadyExists else StoreError;
      }
      hide D.WellFormed, D.Extends, D.Conflicts, NewUser, D.Commit, D.Scan;
      var quads := [D.Block(D.Blank, NewUser(u))];
      var uid := db.nextUid;
      var ok := Commit(startTs, quads, f);
      return if ok then Created(uid) else StoreError;
    }

    /** The fields the caller gave, one by one, on top of what was read. */
    method Assign(node: D.Fields, input: UpdateInput, now: int) returns (du: User)
      ensures du == Merged(node, input, now)
    {
      du := UserOf(node).(passwordHash := "");
      if input.firstName.Some? {
        du := du.(firstName := input.firstName.value);
      }
      if input.lastName.Some? {
        du := du.(lastName := input.lastName.value);
      }
      if input.nickname.Some? {
        du := du.(nickname := input.nickname.value);
      }
      if input.country.Some? {
        du := du.(country := input.country.value);
      }
      du := du.(updatedAt := Trunc(now));
    }

    /** Read, assign the fields the caller gave, write all of it back. */
    method Update(id: string, input: UpdateInput, now: int, read: Fault, after: D.Db, f: Fault) returns (r: Outcome)
      requires Valid() && D.WellFormed(after) && D.Extends(db, after)
      modifies this
      ensures Valid()
      ensures (db, Done(r)) == Alone(old(db), Op.Update(id, input, now), read, after, f)
    {
      if read != NoFault {
        return StoreError;
      }
      var startTs := db.ts;
      var found := Holders(db, D.UserUuid, id);
      if found == [] {
        return NotFound;
      }
      assert found[0] in found;
      var node := D.NodeAt(db, found[0]);
      var du := Assign(node, input, now);
      assert found[0] < after.nextUid;
      hide D.WellFormed, D.Extends, D.Conflicts, UpdateFields, D.Commit, D.Scan, Merged, UserOf, Trunc;
      db := after;
      var quads := UpdateQuads(found[0], node, input, now);
      var ok := Commit(startTs, quads, f);
      return if ok then Updated(du) else StoreError;
    }

    /** Look the uid up in one transaction, delete it in another. */
    method Delete(id: string, lookup: Fault, after: D.Db, f: Fault) returns (r: Outcome)
      requires Valid() && D.WellFormed(after) && D.Extends(db, after)
      modifies this
      ensures Valid()
      ensures (db, Done(r)) == Alone(old(db), Op.Delete(id), lookup, after, f)
    {
      if lookup != NoFault {
        return StoreError;
      }
      var found := Holders(db, D.UserUuid, id);
      if found == [] {
        return NotFound;
      }
      db := after;
      if f == Refused {
        return StoreError;
      }
      D.DeleteExtends(db, {found[0]});
      hide D.WellFormed, D.Extends, D.Delete, D.Scan;
      db := D.Delete(db, {found[0]});
      return if f == NoFault then Deleted else StoreError;
    }
  }
}
