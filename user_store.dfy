/**
 * The user store of src/app/js/main/user-store.ts: a `Store` of `User` values (user.ts) whose
 * documents carry the user as payload under the user's id.
 */
module UserStores {
  import opened Wrappers
  import opened Stores

  datatype User = User(id: string, displayName: string, email: string)

  /** `StoredUser`: the nedb document. */
  datatype StoredUser = StoredUser(id: string, payload: User)

  function UserId(u: User): string {
    u.id
  }

  /** `serializer`: the user's id as `_id`, the user itself as payload. */
  function SerializeUser(u: User): (s: StoredUser)
    ensures s.id == u.id && s.payload == u
  {
    StoredUser(u.id, u)
  }

  /** `deserializer`: rebuilds the user from `_id` and the payload's name and mail address. */
  function DeserializeUser(obj: StoredUser): (u: User)
    ensures u.id == obj.id
    ensures u.displayName == obj.payload.displayName && u.email == obj.payload.email
  {
    User(obj.id, obj.payload.displayName, obj.payload.email)
  }

  /** The deserializer never throws. */
  function ReadUser(obj: StoredUser): Result<User, string> {
    Success(DeserializeUser(obj))
  }

  /** Serializing then deserializing gives the user back. */
  lemma UserRoundTrip(u: User)
    ensures DeserializeUser(SerializeUser(u)) == u
  {
  }

  /** `getByIds` is a stub: whatever the ids, it resolves to an empty map. */
  function GetByIds(ids: set<string>): (r: map<string, User>)
    ensures |r| == 0
  {
    map[]
  }

  /** `new UserStore()`: an empty in-memory store with the user serializer and deserializer. */
  method NewUserStore() returns (s: Store<User, StoredUser, string>)
    ensures fresh(s) && s.docs == map[]
    ensures s.idOf == UserId && s.serializer == SerializeUser && s.deserializer == ReadUser
  {
    s := new Store(UserId, SerializeUser, ReadUser);
  }

  /**
   * user-store.test.ts: nothing is found before the first write; after a write the same user is
   * read back; after a second write under the same id the newer user is read back.
   */
  lemma UserStoreScenario(first: User, second: User)
    requires first.id == second.id
    ensures Lookup(map[], first.id, ReadUser) == Success(None)
    ensures var once := Upsert(map[], first.id, SerializeUser(first));
      Lookup(once, first.id, ReadUser) == Success(Some(first))
      && Lookup(Upsert(once, second.id, SerializeUser(second)), first.id, ReadUser) == Success(Some(second))
  {
    var once := Upsert(map[], first.id, SerializeUser(first));
    GetAfterSet(map[], first.id, SerializeUser(first), ReadUser);
    UserRoundTrip(first);
    GetAfterSet(once, second.id, SerializeUser(second), ReadUser);
    UserRoundTrip(second);
  }
}
