/** The user store: the `user` table with its unique email column, the `find`/`save`
    contract the authentication service relies on, and the profile operations built on it. */
module Users {
  import opened Wrappers
  import opened UserEntity

  /** The error the table raises when a save would give two rows the same email. */
  const UniqueViolation := "duplicate key value violates unique constraint on user.email"
  const UserNotFound := "User not found"
  /** What `user.data` on the `null` that `find` returns for an unknown id raises. */
  const NullDataAccess := "TypeError: Cannot read properties of null (reading 'data')"

  /** The table's rows by primary key, the next key the id sequence hands out, and the error
      (if any) the database currently answers reads and writes with. */
  datatype Store = Store(
    rows: map<nat, User>,
    nextId: nat,
    readFault: Option<Error>,
    writeFault: Option<Error>)

  ghost predicate EmailsUnique(rows: map<nat, User>)
  {
    forall j, k | j in rows && k in rows && rows[j].email == rows[k].email :: j == k
  }

  /** Every row sits under its own id, below the next id, and no two rows share an email. */
  ghost predicate Valid(s: Store)
  {
    && (forall k | k in s.rows :: k < s.nextId && s.rows[k].id == Some(k))
    && EmailsUnique(s.rows)
  }

  /** The lowest key in `[from, bound)` whose row matches `w`. */
  function FirstKey(rows: map<nat, User>, w: UserWhere, from: nat, bound: nat): (r: Option<nat>)
    decreases bound - from
    ensures r.Some? ==> from <= r.value < bound && r.value in rows && Matches(rows[r.value], w)
    ensures r.Some? ==> forall i | from <= i < r.value && i in rows :: !Matches(rows[i], w)
    ensures r.None? ==> forall i | from <= i < bound && i in rows :: !Matches(rows[i], w)
  {
    if from >= bound then None
    else if from in rows && Matches(rows[from], w) then Some(from)
    else FirstKey(rows, w, from + 1, bound)
  }

  /** `findOneBy(where)`: the matching row with the lowest id, or none; a database error is
      passed on unchanged. */
  function Lookup(s: Store, w: UserWhere): (r: Result<Option<User>>)
    ensures s.readFault.Some? <==> r.Failure?
    ensures r.Failure? ==> r.error == s.readFault.value
    ensures r.Success? && r.value.Some? ==> Matches(r.value.value, w)
    ensures Valid(s) && r.Success? && r.value.Some? ==>
      var u := r.value.value;
      && u.id.Some? && u.id.value in s.rows && s.rows[u.id.value] == u
      && forall i | i in s.rows && i < u.id.value :: !Matches(s.rows[i], w)
    ensures Valid(s) && r.Success? ==>
      (r.value.None? <==> forall k | k in s.rows :: !Matches(s.rows[k], w))
  {
    if s.readFault.Some? then Failure(s.readFault.value)
    else
      var k := FirstKey(s.rows, w, 0, s.nextId);
      Success(if k.Some? then Some(s.rows[k.value]) else None)
  }

  /** The key a save writes to: the user's own id, or the next id for a new user. */
  function SlotFor(s: Store, u: User): nat
  {
    if u.id.Some? then u.id.value else s.nextId
  }

  /** Some row other than `slot` already holds `email`. */
  predicate EmailTaken(rows: map<nat, User>, email: string, slot: nat)
  {
    exists j | j in rows :: j != slot && rows[j].email == email
  }

  /** `save(user)`: an upsert at the user's id, or an insert under a fresh id when the id is
      undefined. The unique email column rejects a save that would duplicate an email. */
  function Upsert(s: Store, u: User): (r: (Result<User>, Store))
    ensures r.0.Failure? ==> r.1 == s
    ensures s.writeFault.Some? ==> r.0 == Failure(s.writeFault.value)
    ensures s.writeFault.None? ==>
      (r.0.Success? <==> !EmailTaken(s.rows, u.email, SlotFor(s, u)))
    ensures s.writeFault.None? && r.0.Failure? ==> r.0.error == Failed(UniqueViolation)
    ensures r.0.Success? ==>
      && r.0.value == u.(id := Some(SlotFor(s, u)))
      && r.1 == s.(rows := s.rows[SlotFor(s, u) := r.0.value],
                   nextId := if SlotFor(s, u) < s.nextId then s.nextId else SlotFor(s, u) + 1)
    ensures u.id.None? && r.0.Success? ==> SlotFor(s, u) == s.nextId && (Valid(s) ==> s.nextId !in s.rows)
    ensures Valid(s) ==> Valid(r.1)
  {
    if s.writeFault.Some? then (Failure(s.writeFault.value), s)
    else
      var k := SlotFor(s, u);
      if EmailTaken(s.rows, u.email, k) then (Failure(Failed(UniqueViolation)), s)
      else
        var saved := u.(id := Some(k));
        (Success(saved), s.(rows := s.rows[k := saved], nextId := if k < s.nextId then s.nextId else k + 1))
  }

  /** `photo` in an update body: left out, `null`, or a string. */
  datatype PhotoField = Undefined | Null | Text(value: string)

  datatype UserUpdateBody = UserUpdateBody(
    firstName: Option<string>,
    lastName: Option<string>,
    dateOfBirth: Option<string>,
    photo: PhotoField)

  /** The photo after an update: `null` clears it, a non-empty string replaces it, anything
      else keeps it. */
  function NewPhoto(f: PhotoField, current: Option<string>): (r: Option<string>)
    ensures f.Null? ==> r.None?
    ensures f.Text? && f.value != "" ==> r == Some(f.value)
    ensures f.Undefined? || f == Text("") ==> r == current
  {
    match f
    case Null => None
    case Text(p) => Or(Some(p), current)
    case Undefined => current
  }

  function DataOf(u: User): PersonalData
  {
    if u.data.Some? then u.data.value else EmptyPersonalData
  }

  /** The profile merge of `updateUser`. */
  function MergeUpdate(u: User, b: UserUpdateBody): (r: User)
    ensures r.data.Some?
    ensures Truthy(b.firstName) ==> r.data.value.firstName == b.firstName
    ensures !Truthy(b.firstName) ==> r.data.value.firstName == DataOf(u).firstName
    ensures Truthy(b.lastName) ==> r.data.value.lastName == b.lastName
    ensures !Truthy(b.lastName) ==> r.data.value.lastName == DataOf(u).lastName
    ensures Truthy(b.dateOfBirth) ==> r.data.value.dateOfBirth == b.dateOfBirth
    ensures !Truthy(b.dateOfBirth) ==> r.data.value.dateOfBirth == DataOf(u).dateOfBirth
    ensures r.data.value.sex == DataOf(u).sex
    ensures r.photo == NewPhoto(b.photo, u.photo)
    // nothing but the personal data and the photo changes
    ensures r.(data := u.data, photo := u.photo) == u
  {
    var d := DataOf(u);
    u.(data := Some(d.(firstName := Or(b.firstName, d.firstName),
                       lastName := Or(b.lastName, d.lastName),
                       dateOfBirth := Or(b.dateOfBirth, d.dateOfBirth))),
       photo := NewPhoto(b.photo, u.photo))
  }

  /** Applying the same update twice is the same as applying it once. */
  lemma MergeUpdateIdempotent(u: User, b: UserUpdateBody)
    ensures MergeUpdate(MergeUpdate(u, b), b) == MergeUpdate(u, b)
  {
  }

  /** `updateUser(userId, body)`: find by id, merge, save. An unknown id makes the merge
      dereference `null`. */
  function UpdateUserIn(s: Store, userId: nat, b: UserUpdateBody): (r: (Result<User>, Store))
    ensures r.0.Failure? ==> r.1 == s
    ensures s.readFault.Some? ==> r.0 == Failure(s.readFault.value)
    ensures Valid(s) && s.readFault.None? && userId !in s.rows ==> r.0 == Failure(Failed(NullDataAccess))
    ensures Valid(s) ==> Valid(r.1)
  {
    match Lookup(s, ById(userId))
    case Failure(e) => (Failure(e), s)
    case Success(None) => (Failure(Failed(NullDataAccess)), s)
    case Success(Some(u)) => Upsert(s, MergeUpdate(u, b))
  }

  /** A profile update of a stored user succeeds whenever the database accepts writes, and
      leaves the row's email, password, role, verification state, tokens and external flag as
      they were; every other row stays as it was. */
  lemma UpdateUserKeepsAccount(s: Store, userId: nat, b: UserUpdateBody)
    requires Valid(s) && s.readFault.None? && s.writeFault.None? && userId in s.rows
    ensures UpdateUserIn(s, userId, b).0 == Success(MergeUpdate(s.rows[userId], b))
    ensures UpdateUserIn(s, userId, b).1 == s.(rows := s.rows[userId := MergeUpdate(s.rows[userId], b)])
  {
    var u := s.rows[userId];
    MatchesOnlyGivenFields(u, userId, "", "");
    assert Lookup(s, ById(userId)) == Success(Some(u));
    assert !EmailTaken(s.rows, u.email, userId);
  }

  datatype UserProfile = UserProfile(photo: Option<string>, email: string, personalData: Option<PersonalData>)

  /** `getProfile(id)`: the photo, email and personal data of that user. */
  function ProfileOf(s: Store, id: nat): (r: Result<UserProfile>)
    ensures s.readFault.Some? ==> r == Failure(s.readFault.value)
    ensures Valid(s) && s.readFault.None? ==> (r.Failure? <==> id !in s.rows)
    ensures Valid(s) && s.readFault.None? && id !in s.rows ==> r == Failure(Failed(UserNotFound))
    ensures Valid(s) && r.Success? ==>
      id in s.rows && r.value == UserProfile(s.rows[id].photo, s.rows[id].email, s.rows[id].data)
  {
    match Lookup(s, ById(id))
    case Failure(e) => Failure(e)
    case Success(None) => Failure(Failed(UserNotFound))
    case Success(Some(u)) => Success(UserProfile(u.photo, u.email, u.data))
  }

  datatype DisplayUser = DisplayUser(id: nat, email: string, personalData: Option<PersonalData>)

  function DisplayOf(id: nat, u: User): DisplayUser
  {
    DisplayUser(id, u.email, u.data)
  }

  /** The entries for the rows with keys in `[from, bound)` that are listed in `ids`, by key. */
  function ListFrom(rows: map<nat, User>, ids: seq<nat>, from: nat, bound: nat): (r: seq<DisplayUser>)
    decreases bound - from
    ensures forall i | 0 <= i < |r| ::
      from <= r[i].id < bound && r[i].id in rows && r[i].id in ids && r[i] == DisplayOf(r[i].id, rows[r[i].id])
    ensures forall i, j | 0 <= i < j < |r| :: r[i].id < r[j].id
    ensures forall k | from <= k < bound && k in rows && k in ids :: DisplayOf(k, rows[k]) in r
  {
    if from >= bound then []
    else if from in rows && from in ids then [DisplayOf(from, rows[from])] + ListFrom(rows, ids, from + 1, bound)
    else ListFrom(rows, ids, from + 1, bound)
  }

  /** `displayUsers(ids)`: one entry per stored user whose id is listed, each with that user's
      id, email and personal data, once each, in id order. */
  function Listing(s: Store, ids: seq<nat>): (r: Result<seq<DisplayUser>>)
    ensures s.readFault.Some? <==> r.Failure?
    ensures r.Failure? ==> r.error == s.readFault.value
    ensures r.Success? ==> forall i | 0 <= i < |r.value| ::
      var e := r.value[i]; e.id in s.rows && e.id in ids && e == DisplayOf(e.id, s.rows[e.id])
    ensures r.Success? ==> forall i, j | 0 <= i < j < |r.value| :: r.value[i].id < r.value[j].id
    ensures Valid(s) && r.Success? ==> forall k | k in s.rows && k in ids :: DisplayOf(k, s.rows[k]) in r.value
  {
    if s.readFault.Some? then Failure(s.readFault.value) else Success(ListFrom(s.rows, ids, 0, s.nextId))
  }

  /** The service with the repository it wraps. The fault fields are set by the environment:
      they say what the database answers while it is failing. */
  class UserService {
    var rows: map<nat, User>
    var nextId: nat
    var readFault: Option<Error>
    var writeFault: Option<Error>

    function Model(): Store
      reads this
    {
      Store(rows, nextId, readFault, writeFault)
    }

    /** An empty table whose id sequence starts at 1. */
    constructor ()
      ensures Model() == Store(map[], 1, None, None) && Valid(Model())
    {
      rows, nextId, readFault, writeFault := map[], 1, None, None;
    }

    method Find(w: UserWhere) returns (r: Result<Option<User>>)
      ensures r == Lookup(Model(), w)
    {
      if readFault.Some? {
        return Failure(readFault.value);
      }
      var k := FirstKey(rows, w, 0, nextId);
      r := Success(if k.Some? then Some(rows[k.value]) else None);
    }

    method Save(u: User) returns (r: Result<User>)
      modifies this
      ensures (r, Model()) == Upsert(old(Model()), u)
    {
      if writeFault.Some? {
        return Failure(writeFault.value);
      }
      var k := if u.id.Some? then u.id.value else nextId;
      if EmailTaken(rows, u.email, k) {
        return Failure(Failed(UniqueViolation));
      }
      var saved := u.(id := Some(k));
      rows := rows[k := saved];
      if nextId <= k {
        nextId := k + 1;
      }
      r := Success(saved);
    }

    method GetProfile(id: nat) returns (r: Result<UserProfile>)
      ensures r == ProfileOf(Model(), id)
    {
      var found := Find(ById(id));
      if found.Failure? {
        return Failure(found.error);
      }
      if found.value.None? {
        return Failure(Failed(UserNotFound));
      }
      var user := found.value.value;
      r := Success(UserProfile(user.photo, user.email, user.data));
    }

    /** Loads the user, fills in the personal data field by field and the photo, saves. */
    method UpdateUser(userId: nat, body: UserUpdateBody) returns (r: Result<User>)
      modifies this
      ensures (r, Model()) == UpdateUserIn(old(Model()), userId, body)
    {
      var found := Find(ById(userId));
      if found.Failure? {
        return Failure(found.error);
      }
      if found.value.None? {
        return Failure(Failed(NullDataAccess));
      }
      var user := found.value.value;
      var data := if user.data.Some? then user.data.value else EmptyPersonalData;
      data := data.(firstName := Or(body.firstName, data.firstName));
      data := data.(lastName := Or(body.lastName, data.lastName));
      data := data.(dateOfBirth := Or(body.dateOfBirth, data.dateOfBirth));
      user := user.(data := Some(data));
      user := user.(photo := NewPhoto(body.photo, user.photo));
      r := Save(user);
    }

    method DisplayUsers(ids: seq<nat>) returns (r: Result<seq<DisplayUser>>)
      ensures r == Listing(Model(), ids)
    {
      if readFault.Some? {
        return Failure(readFault.value);
      }
      var users := ListFrom(rows, ids, 0, nextId);
      r := Success(users);
    }
  }
}
