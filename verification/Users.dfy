// User accounts: internal/domain/user.go, and the stored form of a user in
// internal/repository/dgraph/repository.go.

module Users {
  import opened Prelude
  import opened Times
  import opened StoredValues
  import opened Text
  import D = Dgraph

  datatype User = User(
    id: string, firstName: string, lastName: string, nickname: string, passwordHash: string,
    email: string, country: string, active: bool, createdAt: int, updatedAt: int)

  /** A partial update: a field that is not given is left alone. */
  datatype UpdateInput = UpdateInput(
    firstName: Option<string>, lastName: Option<string>, nickname: Option<string>, country: Option<string>)

  class CreateUserInput {
    var firstName: string
    var lastName: string
    var nickname: string
    var password: string
    var email: string
    var country: string

    constructor (first: string, last: string, nick: string, pass: string, mail: string, land: string)
      ensures firstName == first && lastName == last && nickname == nick
      ensures password == pass && email == mail && country == land
    {
      firstName, lastName, nickname, password, email, country := first, last, nick, pass, mail, land;
    }

    method Validate() returns (ok: bool)
      modifies this
      ensures email == Lower(Trim(old(email))) && Lower(email) == email
      ensures nickname == Trim(old(nickname)) && password == old(password)
      ensures firstName == Trim(old(firstName)) && lastName == Trim(old(lastName)) && country == Trim(old(country))
      ensures ok <==> firstName != "" && lastName != "" && country != "" && Bytes(password) >= 8
                      && EmailMatches(email) && NicknameMatches(nickname)
    {
      LowerIdempotent(Trim(email));
      email := Lower(Trim(email));
      nickname := Trim(nickname);
      firstName := Trim(firstName);
      lastName := Trim(lastName);
      country := Trim(country);
      if firstName == "" || lastName == "" {
        return false;
      }
      if !EmailMatches(email) {
        return false;
      }
      if !NicknameMatches(nickname) {
        return false;
      }
      if Bytes(password) < 8 {
        return false;
      }
      if country == "" {
        return false;
      }
      return true;
    }
  }

  /** A user as Register builds it from validated input. */
  predicate Registrable(u: User) {
    && u.id != "" && u.passwordHash != "" && u.active && u.createdAt == u.updatedAt
    && u.firstName == Trim(u.firstName) != "" && u.lastName == Trim(u.lastName) != ""
    && u.country == Trim(u.country) != ""
    && u.email == Lower(Trim(u.email)) && EmailMatches(u.email)
    && u.nickname == Trim(u.nickname) && NicknameMatches(u.nickname)
  }

  // --- The stored form -----------------------------------------------------------------

  /** Empty text is left out of the JSON, so it is not written. */
  function Put(n: D.Fields, p: D.Pred, s: string): D.Fields {
    if s == "" then n else n[p := D.Text(s)]
  }

  function Names(n: D.Fields, u: User): D.Fields {
    Put(Put(Put(Put(n, D.FirstName, u.firstName), D.LastName, u.lastName), D.Nickname, u.nickname),
        D.Country, u.country)
  }

  function NewUser(u: User): D.Fields {
    Names(Put(Put(Put(map[D.DType := D.Type(D.UserType), D.Active := D.Flag(u.active),
                          D.UserCreatedAt := D.Instant(Trunc(u.createdAt)),
                          D.UserUpdatedAt := D.Instant(Trunc(u.updatedAt))],
                      D.UserUuid, u.id), D.PasswordHash, u.passwordHash), D.Email, u.email), u)
  }

  /** toDomain. */
  function UserOf(n: D.Fields): User {
    User(TextOf(D.Get(n, D.UserUuid)), TextOf(D.Get(n, D.FirstName)), TextOf(D.Get(n, D.LastName)),
         TextOf(D.Get(n, D.Nickname)), TextOf(D.Get(n, D.PasswordHash)), TextOf(D.Get(n, D.Email)),
         TextOf(D.Get(n, D.Country)), D.Get(n, D.Active) == Some(D.Flag(true)),
         InstantOf(D.Get(n, D.UserCreatedAt)), InstantOf(D.Get(n, D.UserUpdatedAt)))
  }

  predicate Reads(n: D.Fields, u: User) {
    && TextOf(D.Get(n, D.UserUuid)) == u.id && TextOf(D.Get(n, D.PasswordHash)) == u.passwordHash
    && TextOf(D.Get(n, D.FirstName)) == u.firstName && TextOf(D.Get(n, D.LastName)) == u.lastName
    && TextOf(D.Get(n, D.Nickname)) == u.nickname && TextOf(D.Get(n, D.Country)) == u.country
    && TextOf(D.Get(n, D.Email)) == u.email && (D.Get(n, D.Active) == Some(D.Flag(true)) <==> u.active)
    && InstantOf(D.Get(n, D.UserCreatedAt)) == u.createdAt && InstantOf(D.Get(n, D.UserUpdatedAt)) == u.updatedAt
  }

  lemma UserReads(n: D.Fields, u: User)
    ensures Reads(n, u) <==> UserOf(n) == u
  {
    hide TextOf, InstantOf, D.Get;
  }

  lemma PutReads(n: D.Fields, p: D.Pred, s: string)
    ensures forall q :: D.Get(Put(n, p, s), q) == if q == p && s != "" then Some(D.Text(s)) else D.Get(n, q)
  {
  }

  lemma OverReads(n: D.Fields, f: D.Fields)
    ensures forall q :: D.Get(n + f, q) == if D.Get(f, q).Some? then D.Get(f, q) else D.Get(n, q)
  {
  }

  function NameAt(u: User, q: D.Pred): string {
    match q
    case FirstName => u.firstName
    case LastName => u.lastName
    case Nickname => u.nickname
    case Country => u.country
    case _ => ""
  }

  lemma NamesReads(n: D.Fields, u: User)
    ensures forall q :: D.Get(Names(n, u), q) == if NameAt(u, q) != "" then Some(D.Text(NameAt(u, q))) else D.Get(n, q)
  {
    hide D.Get, Put;
    var a := Put(n, D.FirstName, u.firstName);
    var b := Put(a, D.LastName, u.lastName);
    var c := Put(b, D.Nickname, u.nickname);
    PutReads(n, D.FirstName, u.firstName);
    PutReads(a, D.LastName, u.lastName);
    PutReads(b, D.Nickname, u.nickname);
    PutReads(c, D.Country, u.country);
  }

  lemma NewUserReads(u: User)
    ensures forall q :: NameAt(u, q) != "" ==> D.Get(NewUser(u), q) == Some(D.Text(NameAt(u, q)))
    ensures forall q :: NameAt(u, q) == "" ==>
      D.Get(NewUser(u), q) ==
        if q.DType? then Some(D.Type(D.UserType))
        else if q.Active? then Some(D.Flag(u.active))
        else if q.UserCreatedAt? then Some(D.Instant(Trunc(u.createdAt)))
        else if q.UserUpdatedAt? then Some(D.Instant(Trunc(u.updatedAt)))
        else if q.UserUuid? && u.id != "" then Some(D.Text(u.id))
        else if q.PasswordHash? && u.passwordHash != "" then Some(D.Text(u.passwordHash))
        else if q.Email? && u.email != "" then Some(D.Text(u.email))
        else None
  {
    var base: D.Fields := map[D.DType := D.Type(D.UserType), D.Active := D.Flag(u.active),
                    D.UserCreatedAt := D.Instant(Trunc(u.createdAt)),
                    D.UserUpdatedAt := D.Instant(Trunc(u.updatedAt))];
    assert forall q :: D.Get(base, q) == (if q.DType? then Some(D.Type(D.UserType))
                                         else if q.Active? then Some(D.Flag(u.active))
                                         else if q.UserCreatedAt? then Some(D.Instant(Trunc(u.createdAt)))
                                         else if q.UserUpdatedAt? then Some(D.Instant(Trunc(u.updatedAt)))
                                         else None);
    hide D.Get, Put, Names, Trunc;
    var a := Put(base, D.UserUuid, u.id);
    var b := Put(a, D.PasswordHash, u.passwordHash);
    var c := Put(b, D.Email, u.email);
    PutReads(base, D.UserUuid, u.id);
    PutReads(a, D.PasswordHash, u.passwordHash);
    PutReads(b, D.Email, u.email);
    NamesReads(c, u);
  }

  /** Writing a user and reading it back gives the same user, to the second. */
  lemma UserReadBack(u: User)
    ensures UserOf(NewUser(u)) == u.(createdAt := Trunc(u.createdAt), updatedAt := Trunc(u.updatedAt))
  {
    NewUserReads(u);
    hide D.Get, NewUser, Trunc, UserOf;
    UserReads(NewUser(u), u.(createdAt := Trunc(u.createdAt), updatedAt := Trunc(u.updatedAt)));
  }

  function Given(o: Option<string>, was: string): string { if o.Some? then o.value else was }

  /** What `Update` makes of the node it read; the password is not among what it reads. */
  function Merged(n: D.Fields, i: UpdateInput, now: int): User {
    var u := UserOf(n);
    u.(firstName := Given(i.firstName, u.firstName), lastName := Given(i.lastName, u.lastName),
       nickname := Given(i.nickname, u.nickname), country := Given(i.country, u.country),
       passwordHash := "", updatedAt := Trunc(now))
  }

  function UpdateFields(n: D.Fields, i: UpdateInput, now: int): D.Fields {
    var u := Merged(n, i, now);
    var base := map[D.Active := D.Flag(u.active), D.UserUpdatedAt := D.Instant(u.updatedAt)];
    var dated := if D.UserCreatedAt in n then base[D.UserCreatedAt := D.Instant(u.createdAt)] else base;
    Names(Put(Put(dated, D.UserUuid, u.id), D.Email, u.email), u)
  }

  lemma UpdateReads(n: D.Fields, i: UpdateInput, now: int)
    ensures var u, f := Merged(n, i, now), UpdateFields(n, i, now);
      && (forall q :: NameAt(u, q) != "" ==> D.Get(f, q) == Some(D.Text(NameAt(u, q))))
      && (forall q :: NameAt(u, q) == "" ==>
            D.Get(f, q) ==
              if q.Active? then Some(D.Flag(u.active))
              else if q.UserUpdatedAt? then Some(D.Instant(Trunc(now)))
              else if q.UserCreatedAt? && D.Get(n, q).Some? then Some(D.Instant(u.createdAt))
              else if q.UserUuid? && u.id != "" then Some(D.Text(u.id))
              else if q.Email? && u.email != "" then Some(D.Text(u.email))
              else None)
  {
    var u := Merged(n, i, now);
    var base: D.Fields := map[D.Active := D.Flag(u.active), D.UserUpdatedAt := D.Instant(u.updatedAt)];
    var dated := if D.UserCreatedAt in n then base[D.UserCreatedAt := D.Instant(u.createdAt)] else base;
    assert forall q :: D.Get(dated, q) == (if q.Active? then Some(D.Flag(u.active))
                                          else if q.UserUpdatedAt? then Some(D.Instant(u.updatedAt))
                                          else if q.UserCreatedAt? && D.Get(n, q).Some?
                                          then Some(D.Instant(u.createdAt))
                                          else None);
    assert u.updatedAt == Trunc(now);
    hide D.Get, Put, Names, Trunc, UserOf, Merged;
    var a := Put(dated, D.UserUuid, u.id);
    PutReads(dated, D.UserUuid, u.id);
    PutReads(a, D.Email, u.email);
    NamesReads(Put(a, D.Email, u.email), u);
  }

  function Nonempty(o: Option<string>, was: string): string {
    if o.Some? && o.value != "" then o.value else was
  }

  lemma UpdateName(n: D.Fields, i: UpdateInput, now: int, q: D.Pred, o: Option<string>)
    requires q.FirstName? || q.LastName? || q.Nickname? || q.Country?
    requires NameAt(Merged(n, i, now), q) == Given(o, TextOf(D.Get(n, q)))
    ensures TextOf(D.Get(n + UpdateFields(n, i, now), q)) == Nonempty(o, TextOf(D.Get(n, q)))
  {
    UpdateReads(n, i, now);
    OverReads(n, UpdateFields(n, i, now));
    hide D.Get, UpdateFields, Trunc, Merged, NameAt;
  }

  lemma UpdateNames(n: D.Fields, i: UpdateInput, now: int)
    ensures var u, m := UserOf(n), n + UpdateFields(n, i, now);
      && TextOf(D.Get(m, D.FirstName)) == Nonempty(i.firstName, u.firstName)
      && TextOf(D.Get(m, D.LastName)) == Nonempty(i.lastName, u.lastName)
      && TextOf(D.Get(m, D.Nickname)) == Nonempty(i.nickname, u.nickname)
      && TextOf(D.Get(m, D.Country)) == Nonempty(i.country, u.country)
  {
    hide D.Get, UpdateFields, Trunc, InstantOf, TextOf;
    UpdateName(n, i, now, D.FirstName, i.firstName);
    UpdateName(n, i, now, D.LastName, i.lastName);
    UpdateName(n, i, now, D.Nickname, i.nickname);
    UpdateName(n, i, now, D.Country, i.country);
  }

  lemma UpdateRest(n: D.Fields, i: UpdateInput, now: int)
    ensures var u, m := UserOf(n), n + UpdateFields(n, i, now);
      && TextOf(D.Get(m, D.UserUuid)) == u.id && TextOf(D.Get(m, D.Email)) == u.email
      && D.Get(m, D.PasswordHash) == D.Get(n, D.PasswordHash)
      && (D.Get(m, D.Active) == Some(D.Flag(true)) <==> u.active)
      && InstantOf(D.Get(m, D.UserCreatedAt)) == u.createdAt && InstantOf(D.Get(m, D.UserUpdatedAt)) == Trunc(now)
  {
    var f, u := UpdateFields(n, i, now), UserOf(n);
    UpdateReads(n, i, now);
    OverReads(n, f);
    UserReads(n, u);
    hide D.Get, UpdateFields, Trunc, UserOf, Given;
  }

  /** What an update leaves in the store: every given field that is not empty is
      replaced, everything else kept, the password included. */
  lemma UpdateStores(n: D.Fields, i: UpdateInput, now: int)
    ensures var u := UserOf(n);
      UserOf(n + UpdateFields(n, i, now))
      == u.(firstName := Nonempty(i.firstName, u.firstName), lastName := Nonempty(i.lastName, u.lastName),
            nickname := Nonempty(i.nickname, u.nickname), country := Nonempty(i.country, u.country),
            updatedAt := Trunc(now))
  {
    var u := UserOf(n);
    UpdateNames(n, i, now);
    UpdateRest(n, i, now);
    UserReads(n, u);
    hide D.Get, UpdateFields, Trunc, UserOf, Nonempty, TextOf, InstantOf;
    UserReads(n + UpdateFields(n, i, now),
              u.(firstName := Nonempty(i.firstName, u.firstName), lastName := Nonempty(i.lastName, u.lastName),
                 nickname := Nonempty(i.nickname, u.nickname), country := Nonempty(i.country, u.country),
                 updatedAt := Trunc(now)));
  }

  predicate Clears(o: Option<string>, was: string) { o == Some("") && was != "" }

  /** The user that `Update` returns is the one it stored, password aside, exactly
      when it was not asked to empty a field that is not. */
  lemma UpdateReturnsStored(n: D.Fields, i: UpdateInput, now: int)
    ensures var u := UserOf(n);
      Merged(n, i, now) == UserOf(n + UpdateFields(n, i, now)).(passwordHash := "")
      <==> !Clears(i.firstName, u.firstName) && !Clears(i.lastName, u.lastName)
           && !Clears(i.nickname, u.nickname) && !Clears(i.country, u.country)
  {
    UpdateStores(n, i, now);
    hide UserOf, UpdateFields;
  }
}
