/**
 * The client-side user store of `lib/user-store.ts`: a module-level current
 * user, filled from three demo users by role, cached in memory and
 * remembered in the browser's key/value storage.
 *
 * The browser storage is a map from keys to stored items; the JSON text of
 * a stored profile is left abstract as `Serialized(user)`. Whether a
 * browser window exists is the constant `hasWindow`. A page reload, which
 * drops the in-memory cache but keeps the storage, is `Reload`.
 */
module UserStore {
  import opened Wrappers

  datatype Role = Teacher | Parent | Student

  function RoleName(role: Role): string
  {
    match role
    case Teacher => "teacher"
    case Parent => "parent"
    case Student => "student"
  }

  /** The stored role text read back as a role; any other text names no demo user. */
  function ParseRole(s: string): (role: Option<Role>)
    ensures role.Some? ==> RoleName(role.value) == s
  {
    if s == "teacher" then Some(Teacher)
    else if s == "parent" then Some(Parent)
    else if s == "student" then Some(Student)
    else None
  }

  lemma ParseRoleName(role: Role)
    ensures ParseRole(RoleName(role)) == Some(role)
  {
  }

  datatype User = User(id: string, name: string, email: string, role: Role, avatar: string,
                       school: Option<string>, grade: Option<string>, childName: Option<string>)

  /** A `Partial<User>`: `None` is a key absent from the update; an optional field may be set to undefined. */
  datatype UserUpdate = UserUpdate(id: Option<string>, name: Option<string>, email: Option<string>,
                                   role: Option<Role>, avatar: Option<string>,
                                   school: Option<Option<string>>, grade: Option<Option<string>>,
                                   childName: Option<Option<string>>)

  /** What the store writes to the browser storage: plain text, or a profile as JSON. */
  datatype Item = Text(text: string) | Serialized(user: User)

  const RoleKey := "currentUserRole"
  const ProfileKeyPrefix := "user_"

  /** The demo user of each role. */
  function DefaultUser(role: Role): (u: User)
    ensures u.role == role
  {
    match role
    case Teacher =>
      User("teacher-001", "Sarah Johnson", "sarah.johnson@school.edu", Teacher, "\U{1F469}\U{200D}\U{1F3EB}",
           Some("Lincoln Elementary School"), None, None)
    case Parent =>
      User("parent-001", "Michael Thompson", "m.thompson@email.com", Parent, "\U{1F468}",
           None, None, Some("Emma Thompson"))
    case Student =>
      User("student-001", "Emma Thompson", "emma.t@school.edu", Student, "\U{1F467}",
           None, Some("Grade 3"), None)
  }

  function Pick<T>(update: Option<T>, current: T): T
  {
    if update.Some? then update.value else current
  }

  /** `{ ...user, ...updates }`. */
  function Merge(u: User, updates: UserUpdate): User
  {
    User(Pick(updates.id, u.id), Pick(updates.name, u.name), Pick(updates.email, u.email),
         Pick(updates.role, u.role), Pick(updates.avatar, u.avatar),
         Pick(updates.school, u.school), Pick(updates.grade, u.grade), Pick(updates.childName, u.childName))
  }

  function ProfileKey(role: Role): string
  {
    ProfileKeyPrefix + RoleName(role)
  }

  /** The store's state: the in-memory current user and the browser storage. */
  datatype Store = Store(currentUser: Option<User>, storage: map<string, Item>)

  /** `setCurrentUser(role)`. */
  function SetUser(s: Store, hasWindow: bool, role: Role): Store
  {
    Store(Some(DefaultUser(role)),
          if hasWindow then s.storage[RoleKey := Text(RoleName(role))] else s.storage)
  }

  /**
   * `getCurrentUser()`: the cached user if there is one; else, in a browser,
   * the demo user of the stored role, which is also cached; else nothing.
   * A stored role that is empty gives nothing; so does any other text that
   * names no role, as `defaultUsers[role]` is undefined for it. A text that
   * names an inherited property of the object (such as "constructor") would
   * give that property in JavaScript; the model gives nothing there too.
   */
  function GetUser(s: Store, hasWindow: bool): (Option<User>, Store)
  {
    if s.currentUser.Some? then (s.currentUser, s)
    else if hasWindow && RoleKey in s.storage && s.storage[RoleKey].Text? && s.storage[RoleKey].text != "" then
      var restored := ParseRole(s.storage[RoleKey].text);
      var u := if restored.Some? then Some(DefaultUser(restored.value)) else None;
      (u, s.(currentUser := u))
    else (None, s)
  }

  /** `updateUserProfile(updates)`: merge into the current user and, in a browser, store it by role. */
  function UpdateUser(s: Store, hasWindow: bool, updates: UserUpdate): Store
  {
    if s.currentUser.None? then s
    else
      var merged := Merge(s.currentUser.value, updates);
      Store(Some(merged),
            if hasWindow then s.storage[ProfileKey(merged.role) := Serialized(merged)] else s.storage)
  }

  /** A page reload: the module is evaluated afresh, the storage survives. */
  function Reload(s: Store): (r: Store)
    ensures r.currentUser == None && r.storage == s.storage
  {
    Store(None, s.storage)
  }

  /** A cached user is returned unchanged and nothing else changes. */
  lemma CachedUserReturned(s: Store, hasWindow: bool)
    requires s.currentUser.Some?
    ensures GetUser(s, hasWindow) == (s.currentUser, s)
  {
  }

  /**
   * After `setCurrentUser(role)` the store hands back the demo user of that
   * role; in a browser it still does after a reload, restoring the cache.
   */
  lemma SetThenGet(s: Store, hasWindow: bool, role: Role)
    ensures GetUser(SetUser(s, hasWindow, role), hasWindow).0 == Some(DefaultUser(role))
    ensures hasWindow ==>
              var (u, after) := GetUser(Reload(SetUser(s, hasWindow, role)), hasWindow);
              u == Some(DefaultUser(role)) && after.currentUser == u
  {
    ParseRoleName(role);
  }

  /** Without a browser nothing survives a reload. */
  lemma NoWindowForgets(s: Store)
    ensures GetUser(Reload(s), false) == (None, Reload(s))
  {
  }

  /** Updating with no current user changes neither the user nor the storage. */
  lemma UpdateWithoutUser(s: Store, hasWindow: bool, updates: UserUpdate)
    requires s.currentUser.None?
    ensures UpdateUser(s, hasWindow, updates) == s
  {
  }

  /**
   * An update overwrites exactly the fields it carries, keeps the others,
   * and in a browser stores the result under "user_" and its role, leaving
   * every other key, the remembered role included, as it was.
   */
  lemma UpdateRules(s: Store, hasWindow: bool, updates: UserUpdate)
    requires s.currentUser.Some?
    ensures var after := UpdateUser(s, hasWindow, updates);
            var u, m := s.currentUser.value, after.currentUser.value;
            after.currentUser.Some?
            && (if updates.id.Some? then m.id == updates.id.value else m.id == u.id)
            && (if updates.name.Some? then m.name == updates.name.value else m.name == u.name)
            && (if updates.email.Some? then m.email == updates.email.value else m.email == u.email)
            && (if updates.role.Some? then m.role == updates.role.value else m.role == u.role)
            && (if updates.avatar.Some? then m.avatar == updates.avatar.value else m.avatar == u.avatar)
            && (if updates.school.Some? then m.school == updates.school.value else m.school == u.school)
            && (if updates.grade.Some? then m.grade == updates.grade.value else m.grade == u.grade)
            && (if updates.childName.Some? then m.childName == updates.childName.value else m.childName == u.childName)
            && (hasWindow ==> after.storage == s.storage[ProfileKey(m.role) := Serialized(m)])
            && (!hasWindow ==> after.storage == s.storage)
            && (forall k :: k in s.storage && k != ProfileKey(m.role) ==> k in after.storage && after.storage[k] == s.storage[k])
  {
  }

  /** A profile key is never the key of the remembered role. */
  lemma ProfileKeyIsNotRoleKey(role: Role)
    ensures ProfileKey(role) != RoleKey
  {
    assert ProfileKey(role)[0] != RoleKey[0];
  }

  /**
   * An edited profile is stored but never read back: after a reload the
   * store restores the demo user of the remembered role, not the edit.
   */
  lemma EditLostOnReload(s: Store, role: Role, updates: UserUpdate)
    ensures var edited := UpdateUser(SetUser(s, true, role), true, updates);
            GetUser(Reload(edited), true).0 == Some(DefaultUser(role))
  {
    ParseRoleName(role);
    var set1 := SetUser(s, true, role);
    var edited := UpdateUser(set1, true, updates);
    ProfileKeyIsNotRoleKey(Merge(DefaultUser(role), updates).role);
    assert edited.storage[RoleKey] == Text(RoleName(role));
  }

  /** The module-level store of one page, with its methods. */
  class UserSession {
    var currentUser: Option<User>
    var storage: map<string, Item>
    const hasWindow: bool

    function State(): Store
      reads this
    {
      Store(currentUser, storage)
    }

    /** A page load: no cached user, the storage the browser kept. */
    constructor (storage: map<string, Item>, hasWindow: bool)
      ensures State() == Store(None, storage) && this.hasWindow == hasWindow
    {
      this.currentUser := None;
      this.storage := storage;
      this.hasWindow := hasWindow;
    }

    method SetCurrentUser(role: Role)
      modifies this
      ensures State() == SetUser(old(State()), hasWindow, role)
    {
      currentUser := Some(DefaultUser(role));
      if hasWindow {
        storage := storage[RoleKey := Text(RoleName(role))];
      }
    }

    method GetCurrentUser() returns (u: Option<User>)
      modifies this
      ensures (u, State()) == GetUser(old(State()), hasWindow)
    {
      if currentUser.Some? {
        return currentUser;
      }
      if hasWindow && RoleKey in storage && storage[RoleKey].Text? {
        var role := storage[RoleKey].text;
        if role != "" {
          var restored := ParseRole(role);
          currentUser := if restored.Some? then Some(DefaultUser(restored.value)) else None;
          return currentUser;
        }
      }
      return None;
    }

    method UpdateUserProfile(updates: UserUpdate)
      modifies this
      ensures State() == UpdateUser(old(State()), hasWindow, updates)
    {
      if currentUser.Some? {
        var merged := Merge(currentUser.value, updates);
        currentUser := Some(merged);
        if hasWindow {
          storage := storage[ProfileKey(merged.role) := Serialized(merged)];
        }
      }
    }
  }
}
