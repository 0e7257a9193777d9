/** The user session context: the logged-in user, mirrored into a key/value
    storage under the key "userM". */
module UserContext {
  import opened Common

  /** The session user record. */
  datatype User = User(
    userId: string,
    fname: string,
    lname: string,
    hub: string,
    locationUser: string,
    email: string,
    role: string,
    machineId: string,
    permissions: seq<string>)

  /** The storage key under which the session user is kept. */
  const StorageKey: string := "userM"

  /** The record `login` builds for a simulated login. */
  function MockUser(email: string, userId: string, name: string, machineId: string): (u: User)
    ensures u.email == email && u.userId == userId && u.machineId == machineId
    ensures u.fname == name && u.lname == name
    ensures u.hub == "Main Hub" && u.locationUser == "Location A"
    ensures u.role == "admin" && u.permissions == ["read", "write"]
  {
    User(userId, name, name, "Main Hub", "Location A", email, "admin", machineId, ["read", "write"])
  }

  /** The storage that the mirroring effect leaves behind for a given user:
      the user stored under "userM", or that key removed. */
  function Mirrored(storage: map<string, User>, user: Option<User>): (s: map<string, User>)
    ensures user.Some? ==> StorageKey in s && s[StorageKey] == user.value
    ensures user.None? ==> StorageKey !in s
    ensures forall k :: k in storage && k != StorageKey ==> k in s && s[k] == storage[k]
    ensures forall k :: k in s && k != StorageKey ==> k in storage
  {
    match user
    case Some(u) => storage[StorageKey := u]
    case None => storage - {StorageKey}
  }

  /** The user the mount effect restores from storage. */
  function Stored(storage: map<string, User>): (u: Option<User>)
    ensures u.Some? <==> StorageKey in storage
    ensures u.Some? ==> u.value == storage[StorageKey]
  {
    if StorageKey in storage then Some(storage[StorageKey]) else None
  }

  /** Mirroring is a fixed point once the storage already agrees with the user. */
  lemma MirroredStable(storage: map<string, User>, user: Option<User>)
    ensures Mirrored(Mirrored(storage, user), user) == Mirrored(storage, user)
    ensures Stored(Mirrored(storage, user)) == user
  {
  }

  /** A restored user is mirrored back to exactly the storage it came from. */
  lemma {:induction false} RestoreRoundTrip(storage: map<string, User>)
    ensures Mirrored(storage, Stored(storage)) == storage
  {
    if StorageKey in storage {
      assert storage[StorageKey := storage[StorageKey]] == storage;
    } else {
      assert storage - {StorageKey} == storage;
    }
  }

  /** The provider: the user state and the storage it is mirrored into. */
  class UserSession {
    var user: Option<User>
    var storage: map<string, User>

    /** The storage mirrors the user. */
    ghost predicate Valid()
      reads this
    {
      storage == Mirrored(storage, user)
    }

    /** Mounting the provider: the user starts null, the load effect schedules
        the stored user, the mirroring effect then runs once with the null user
        (removing the key) and once more with the restored user. */
    constructor (initial: map<string, User>)
      ensures Valid()
      ensures user == Stored(initial)
      ensures storage == initial
    {
      user := None;
      storage := initial;
      new;
      var restored := Stored(initial);
      storage := Mirrored(storage, user);
      if restored.Some? {
        user := restored;
        storage := Mirrored(storage, user);
      }
      RestoreRoundTrip(initial);
      assert storage == Mirrored(initial, Stored(initial));
    }

    /** `setUser` followed by the mirroring effect. */
    method SetUser(u: Option<User>)
      modifies this
      ensures Valid()
      ensures user == u
      ensures storage == Mirrored(old(storage), u)
    {
      user := u;
      storage := Mirrored(storage, user);
      MirroredStable(old(storage), u);
    }

    /** `login`: installs the simulated user. */
    method Login(email: string, userId: string, name: string, machineId: string)
      modifies this
      ensures Valid()
      ensures user == Some(MockUser(email, userId, name, machineId))
      ensures storage == Mirrored(old(storage), user)
    {
      SetUser(Some(MockUser(email, userId, name, machineId)));
    }

    /** `logout`: clears the user, and with it the stored entry. */
    method Logout()
      modifies this
      ensures Valid()
      ensures user == None && StorageKey !in storage
      ensures storage == Mirrored(old(storage), None)
    {
      SetUser(None);
    }
  }
}
