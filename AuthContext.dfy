/**
 * The mock session controller: who is logged in, the loading and error flags
 * it shows, and the record it keeps under the local-storage key 'user'.
 */
module Auth {
  import opened Wrappers

  /** A user profile; `age`, `location` and `isAdmin` are optional properties. */
  datatype User = User(
    id: string,
    name: string,
    email: string,
    age: Option<int>,
    location: Option<string>,
    isAdmin: Option<bool>)

  const AdminEmail := "admin@example.com"
  const UserEmail := "user@example.com"
  const MockPassword := "password"
  const InvalidCredentials := "Invalid email or password"
  const OutsideProvider := "useAuth must be used within an AuthProvider"

  /** The record the admin credentials log in as. */
  const AdminUser := User("123e4567-e89b-12d3-a456-426614174000", "Admin User", AdminEmail,
                          None, None, Some(true))

  /** The record the regular credentials log in as. */
  const RegularUser := User("123e4567-e89b-12d3-a456-426614174001", "John Doe", UserEmail,
                            Some(30), Some("New York"), Some(false))

  /** The user the two hardcoded credential pairs log in as; None for every other pair. */
  function Credentials(email: string, password: string): (r: Option<User>)
    ensures r == Some(AdminUser) <==> email == AdminEmail && password == MockPassword
    ensures r == Some(RegularUser) <==> email == UserEmail && password == MockPassword
    ensures r.None? <==> password != MockPassword || (email != AdminEmail && email != UserEmail)
  {
    assert AdminUser != RegularUser by { assert AdminUser.isAdmin != RegularUser.isAdmin; }
    assert AdminEmail != UserEmail by { assert AdminEmail[0] != UserEmail[0]; }
    if email == AdminEmail && password == MockPassword then Some(AdminUser)
    else if email == UserEmail && password == MockPassword then Some(RegularUser)
    else None
  }

  /** What `crypto.randomUUID()` did: produce an id or throw an error with a message. */
  datatype IdSource = Generated(id: string) | GeneratorThrew(message: string)

  /** The provider's state; `stored` is the local-storage slot, which outlives the provider. */
  datatype Session = Session(user: Option<User>, loading: bool, error: Option<string>, stored: Option<User>)
  {
    /** No operation in progress, and the storage slot holds exactly the current user. */
    predicate Settled()
    {
      !loading && stored == user
    }
  }

  /** The provider as first rendered, over whatever storage holds. */
  function Initial(stored: Option<User>): (r: Session)
    ensures r.user.None? && r.loading && r.error.None? && r.stored == stored
  {
    Session(None, true, None, stored)
  }

  /** The mount effect: adopt the stored record if there is one, then stop loading. */
  function AfterStartup(s: Session): (r: Session)
    ensures !r.loading
    ensures r.user == (if s.stored.Some? then s.stored else s.user)
    ensures r.stored == s.stored && r.error == s.error
  {
    Session(if s.stored.Some? then s.stored else s.user, false, s.error, s.stored)
  }

  /** `login(email, password)`: set and store the matching mock user, or report the error and change nothing else. */
  function AfterLogin(s: Session, email: string, password: string): (r: Session)
    ensures !r.loading
    ensures Credentials(email, password).Some? ==>
              r.user == Credentials(email, password) && r.stored == r.user && r.error.None?
    ensures Credentials(email, password).None? ==>
              r.user == s.user && r.stored == s.stored && r.error == Some(InvalidCredentials)
  {
    match Credentials(email, password)
    case Some(u) => Session(Some(u), false, None, Some(u))
    case None => Session(s.user, false, Some(InvalidCredentials), s.stored)
  }

  /** The record `signup` builds: the given fields, the generated id, and never an admin. */
  function NewUser(id: string, name: string, email: string, age: int, location: string): (u: User)
    ensures u.isAdmin == Some(false)
    ensures u.id == id && u.name == name && u.email == email
    ensures u.age == Some(age) && u.location == Some(location)
  {
    User(id, name, email, Some(age), Some(location), Some(false))
  }

  /** `signup(...)`: the password is not used; a throwing id generator reports its message. */
  function AfterSignup(s: Session, name: string, email: string, password: string, age: int,
                       location: string, uuid: IdSource): (r: Session)
    ensures !r.loading
    ensures uuid.Generated? ==>
              r.user == Some(NewUser(uuid.id, name, email, age, location)) && r.stored == r.user
              && r.error.None?
    ensures uuid.GeneratorThrew? ==>
              r.user == s.user && r.stored == s.stored && r.error == Some(uuid.message)
  {
    match uuid
    case Generated(id) =>
      var u := NewUser(id, name, email, age, location);
      Session(Some(u), false, None, Some(u))
    case GeneratorThrew(m) => Session(s.user, false, Some(m), s.stored)
  }

  /** `logout()`: forget the user and empty the slot; loading and error stay as they are. */
  function AfterLogout(s: Session): (r: Session)
    ensures r.user.None? && r.stored.None?
    ensures r.loading == s.loading && r.error == s.error
  {
    s.(user := None, stored := None)
  }

  /** No successful signup makes an admin, whatever the inputs. */
  lemma SignupNeverAdmin(s: Session, name: string, email: string, password: string, age: int,
                         location: string, uuid: IdSource)
    ensures var r := AfterSignup(s, name, email, password, age, location, uuid);
            uuid.Generated? ==> r.user.Some? && r.user.value.isAdmin == Some(false)
  {
  }

  /** Logging out twice is logging out once. */
  lemma LogoutIdempotent(s: Session)
    ensures AfterLogout(AfterLogout(s)) == AfterLogout(s)
  {
  }

  /** Repeating a login with the same pair changes nothing further. */
  lemma LoginIdempotent(s: Session, email: string, password: string)
    ensures AfterLogin(AfterLogin(s, email, password), email, password) == AfterLogin(s, email, password)
  {
  }

  /** A session operation as the application calls it. */
  datatype Action =
    | Login(email: string, password: string)
    | Signup(name: string, email: string, password: string, age: int, location: string, uuid: IdSource)
    | Logout

  /** One action applied to the session. */
  function Step(s: Session, a: Action): Session
  {
    match a
    case Login(e, p) => AfterLogin(s, e, p)
    case Signup(n, e, p, age, loc, uuid) => AfterSignup(s, n, e, p, age, loc, uuid)
    case Logout => AfterLogout(s)
  }

  /** The session after the actions, in order. */
  function Run(s: Session, actions: seq<Action>): Session
    decreases |actions|
  {
    if actions == [] then s else Run(Step(s, actions[0]), actions[1..])
  }

  /** Every action keeps a settled session settled. */
  lemma StepKeepsSettled(s: Session, a: Action)
    requires s.Settled()
    ensures Step(s, a).Settled()
  {
  }

  /** Once started, whatever the user does, loading is off and storage mirrors the user. */
  lemma {:induction false} RunKeepsSettled(stored: Option<User>, actions: seq<Action>)
    ensures Run(AfterStartup(Initial(stored)), actions).Settled()
  {
    SettledRun(AfterStartup(Initial(stored)), actions);
  }

  /** Induction step for RunKeepsSettled. */
  lemma {:induction false} SettledRun(s: Session, actions: seq<Action>)
    requires s.Settled()
    ensures Run(s, actions).Settled()
    decreases |actions|
  {
    if actions != [] {
      StepKeepsSettled(s, actions[0]);
      SettledRun(Step(s, actions[0]), actions[1..]);
    }
  }

  /** `useAuth()`: the provider's value, or the error thrown outside a provider. */
  function UseAuth<T>(context: Option<T>): (r: Result<T, string>)
    ensures context.None? ==> r == Failure(OutsideProvider)
    ensures context.Some? ==> r == Success(context.value)
  {
    match context
    case None => Failure(OutsideProvider)
    case Some(v) => Success(v)
  }

  /** `AuthProvider`: the React state plus the local-storage slot. */
  class AuthProvider {
    var user: Option<User>
    var loading: bool
    var error: Option<string>
    var stored: Option<User>

    /** The provider's state as a value. */
    function State(): Session
      reads this
    {
      Session(user, loading, error, stored)
    }

    /** The first render, before the mount effect: no user yet, loading. */
    constructor (storage: Option<User>)
      ensures State() == Initial(storage)
    {
      user := None;
      loading := true;
      error := None;
      stored := storage;
    }

    /** The mount effect, run once. */
    method Start()
      modifies this
      ensures State() == AfterStartup(old(State()))
      ensures old(user).None? ==> State().Settled()
    {
      var storedUser := stored;
      if storedUser.Some? {
        user := storedUser;
      }
      loading := false;
    }

    /** `login`. */
    method Login(email: string, password: string)
      modifies this
      ensures State() == AfterLogin(old(State()), email, password)
      ensures old(State()).Settled() ==> State().Settled()
    {
      loading := true;
      error := None;
      if email == AdminEmail && password == MockPassword {
        user := Some(AdminUser);
        stored := Some(AdminUser);
      } else if email == UserEmail && password == MockPassword {
        user := Some(RegularUser);
        stored := Some(RegularUser);
      } else {
        error := Some(InvalidCredentials);
      }
      loading := false;
    }

    /** `signup`, with the id generator's behaviour given as `uuid`. */
    method Signup(name: string, email: string, password: string, age: int, location: string,
                  uuid: IdSource)
      modifies this
      ensures State() == AfterSignup(old(State()), name, email, password, age, location, uuid)
      ensures old(State()).Settled() ==> State().Settled()
    {
      loading := true;
      error := None;
      match uuid {
        case Generated(id) =>
          var newUser := User(id, name, email, Some(age), Some(location), Some(false));
          user := Some(newUser);
          stored := Some(newUser);
        case GeneratorThrew(message) =>
          error := Some(message);
      }
      loading := false;
    }

    /** `logout`. */
    method Logout()
      modifies this
      ensures State() == AfterLogout(old(State()))
      ensures old(State()).Settled() ==> State().Settled()
    {
      user := None;
      stored := None;
    }
  }
}
