/**
 * The user manager, its users and the database manager as objects (SimpleUserManager.java, SimpleUser.java,
 * SimpleDBManager.java, NodeServiceGrpc.java), each operation proved to take one step of the session machine.
 * Moments are passed in; databases answer whether an object could be created.
 */
module UserManager {

  import opened Sessions
  import opened Wrappers

  class SimpleUser {
    var isLoggedIn: bool
    var lastLoginTime: Option<int>

    constructor ()
      ensures !isLoggedIn && lastLoginTime == None
    {
      isLoggedIn, lastLoginTime := false, None;
    }
  }

  class SimpleDBManager {
    var dbObjects: map<SimpleUser, map<string, string>>

    constructor ()
      ensures dbObjects == map[]
    {
      dbObjects := map[];
    }

    /** Every drop succeeds. */
    method CleanupUser(user: SimpleUser)
      modifies this
      ensures dbObjects == old(dbObjects) - {user}
    {
      dbObjects := dbObjects - {user};
    }

    /** addView and addForeignTable: nothing is remembered when the database refuses the object. */
    method AddObject(user: SimpleUser, requested: string, actual: string, created: bool)
      modifies this
      ensures dbObjects == if created then Register(old(dbObjects), user, requested, actual) else old(dbObjects)
    {
      if created {
        if user !in dbObjects {
          dbObjects := dbObjects[user := map[]];
        }
        dbObjects := dbObjects[user := dbObjects[user][requested := actual]];
      }
    }

    /** Looking a name up leaves an empty entry for a user who had none. */
    method Translate(requested: string, user: SimpleUser) returns (r: Option<string>)
      modifies this
      ensures dbObjects == old(dbObjects)[user := ObjectsOf(old(dbObjects), user)]
      ensures r == var names := ObjectsOf(old(dbObjects), user);
                   if requested in names then Some(names[requested]) else None
    {
      if user !in dbObjects {
        dbObjects := dbObjects[user := map[]];
      }
      r := if requested in dbObjects[user] then Some(dbObjects[user][requested]) else None;
    }
  }

  datatype Response = Success(actual: string) | Unauthenticated | NoSuchObject(requested: string) | DatabaseRefused

  function Accounts(accounts: seq<(string, string)>): map<string, string>
  {
    if accounts == [] then map[]
    else
      var (name, password) := accounts[|accounts| - 1];
      Accounts(accounts[..|accounts| - 1])[name := password]
  }

  /** Every registered user has a password. */
  ghost predicate Known(registered: map<string, SimpleUser>, passwords: map<SimpleUser, string>)
  {
    forall name :: name in registered ==> registered[name] in passwords
  }

  ghost function PasswordsOf(registered: map<string, SimpleUser>, passwords: map<SimpleUser, string>):
      map<string, string>
    requires Known(registered, passwords)
  {
    map name | name in registered :: passwords[registered[name]]
  }

  lemma OneMoreUser(registered: map<string, SimpleUser>, passwords: map<SimpleUser, string>, name: string,
                    user: SimpleUser, password: string)
    requires Known(registered, passwords) && user !in passwords
    ensures Known(registered[name := user], passwords[user := password])
    ensures PasswordsOf(registered[name := user], passwords[user := password]) ==
            PasswordsOf(registered, passwords)[name := password]
  {}

  /** The fields of a user say whether it is logged in and when it logged in last. */
  ghost predicate Shows(u: SimpleUser, loggedIn: set<SimpleUser>, lastLogin: map<SimpleUser, int>)
    reads u
  {
    (u.isLoggedIn <==> u in loggedIn) && (u.lastLoginTime.Some? <==> u in lastLogin) &&
    (u in lastLogin ==> u.lastLoginTime == Some(lastLogin[u]))
  }

  /** The users show who is logged in and since when, and nobody else is. */
  ghost predicate Recorded(users: set<SimpleUser>, loggedIn: set<SimpleUser>, lastLogin: map<SimpleUser, int>)
    reads users
  {
    (forall u :: u in loggedIn ==> u in users) && (forall u :: u in lastLogin ==> u in users) &&
    forall u :: u in users ==> Shows(u, loggedIn, lastLogin)
  }

  class SimpleUserManager {
    const dbManager: SimpleDBManager
    var registeredUsers: map<string, SimpleUser>
    var usersWithPasswords: map<SimpleUser, string>
    var loggedInUsers: seq<SimpleUser>
    /** The state of the session machine that the fields represent. */
    ghost var state: State<SimpleUser>

    ghost predicate Valid()
      reads this, dbManager, usersWithPasswords.Keys
    {
      Known(registeredUsers, usersWithPasswords) && Inv(state) &&
      state.deque == loggedInUsers && state.objects == dbManager.dbObjects &&
      Recorded(usersWithPasswords.Keys, state.loggedIn, state.lastLogin)
    }

    /** The password each registered name answers to. */
    ghost function Passwords(): map<string, string>
      reads this
      requires Known(registeredUsers, usersWithPasswords)
    {
      PasswordsOf(registeredUsers, usersWithPasswords)
    }

    /** A manager starts with nobody logged in. */
    constructor (start: int)
      ensures Valid() && fresh(dbManager) && usersWithPasswords == map[]
      ensures state == Initial(start) && Passwords() == map[]
    {
      dbManager := new SimpleDBManager();
      registeredUsers, usersWithPasswords, loggedInUsers := map[], map[], [];
      state := Initial(start);
    }

    /** Registers one account; its user starts logged out. */
    method AddUser(name: string, password: string)
      requires Valid()
      modifies this`registeredUsers, this`usersWithPasswords
      ensures Valid() && state == old(state) && Passwords() == old(Passwords())[name := password]
      ensures fresh(usersWithPasswords.Keys - old(usersWithPasswords).Keys)
    {
      hide Inv;
      var user := new SimpleUser();
      OneMoreUser(registeredUsers, usersWithPasswords, name, user, password);
      hide Known, PasswordsOf;
      assert user !in state.loggedIn && user !in state.lastLogin;
      usersWithPasswords := usersWithPasswords[user := password];
      assert Recorded(usersWithPasswords.Keys, state.loggedIn, state.lastLogin);
      hide Recorded;
      registeredUsers := registeredUsers[name := user];
    }

    /** Registers the accounts in turn; of two with one name the later counts. */
    method AddUsers(accounts: seq<(string, string)>)
      requires Valid()
      modifies this`registeredUsers, this`usersWithPasswords
      ensures Valid() && state == old(state) && Passwords() == old(Passwords()) + Accounts(accounts)
      ensures fresh(usersWithPasswords.Keys - old(usersWithPasswords).Keys)
    {
      hide Inv, Recorded, Known, Passwords;
      for k := 0 to |accounts|
        invariant Valid() && state == old(state) && Passwords() == old(Passwords()) + Accounts(accounts[..k])
        invariant fresh(usersWithPasswords.Keys - old(usersWithPasswords).Keys)
      {
        assert accounts[..k + 1][..k] == accounts[..k];
        AddUser(accounts[k].0, accounts[k].1);
      }
      assert accounts[..|accounts|] == accounts;
    }

    /** SimpleUser.login and its hook. */
    method LoginUser(user: SimpleUser, time: int)
      requires Valid() && user in usersWithPasswords && state.now <= time
      modifies this`loggedInUsers, this`state, user
      ensures Valid() && state == Login(old(state), user, time)
    {
      LoginInv(state, user, time);
      hide Inv, Remove;
      user.isLoggedIn := true;
      user.lastLoginTime := Some(time);
      ghost var s := state;
      state := Login(s, user, time);
      forall u | u in usersWithPasswords.Keys ensures Shows(u, state.loggedIn, state.lastLogin) {
        assert u != user ==> Shows(u, s.loggedIn, s.lastLogin);
      }
      assert Recorded(usersWithPasswords.Keys, state.loggedIn, state.lastLogin);
      hide Recorded;
      loggedInUsers := Remove(loggedInUsers, user) + [user];
    }

    /** SimpleUser.logout and its hook; the answer is whether the user was in the queue. */
    method LogoutUser(user: SimpleUser, time: int) returns (loggedOut: bool)
      requires Valid() && user in usersWithPasswords && state.now <= time
      modifies this`loggedInUsers, this`state, user`isLoggedIn, dbManager
      ensures Valid() && state == Logout(old(state), user).(now := time)
      ensures loggedOut <==> user in old(loggedInUsers)
    {
      LogoutInv(state, user, time);
      hide Inv, Remove;
      user.isLoggedIn := false;
      ghost var s := state;
      state := Logout(s, user).(now := time);
      forall u | u in usersWithPasswords.Keys ensures Shows(u, state.loggedIn, state.lastLogin) {
        assert u != user ==> Shows(u, s.loggedIn, s.lastLogin);
      }
      assert Recorded(usersWithPasswords.Keys, state.loggedIn, state.lastLogin);
      hide Recorded;
      loggedOut := user in loggedInUsers;
      loggedInUsers := Remove(loggedInUsers, user);
      dbManager.CleanupUser(user);
    }

    /** A request logs its user in exactly when the password is the registered one. */
    method Authenticate(name: string, password: string, time: int) returns (r: Option<SimpleUser>)
      requires Valid() && state.now <= time
      modifies this`loggedInUsers, this`state, usersWithPasswords.Keys
      ensures Valid()
      ensures r == if name in registeredUsers && usersWithPasswords[registeredUsers[name]] == password
                   then Some(registeredUsers[name]) else None
      ensures state == if r.Some? then Login(old(state), r.value, time) else old(state)
    {
      r := None;
      if name in registeredUsers {
        var user := registeredUsers[name];
        if usersWithPasswords[user] == password {
          LoginUser(user, time);
          r := Some(user);
        }
      }
    }

    /** The createView and addForeignTable requests. */
    method Create(name: string, password: string, requested: string, actual: string, created: bool, time: int)
      returns (r: Response)
      requires Valid() && state.now <= time
      modifies this`loggedInUsers, this`state, usersWithPasswords.Keys, dbManager
      ensures Valid()
      ensures r == Unauthenticated <==>
              !(name in registeredUsers && usersWithPasswords[registeredUsers[name]] == password)
      ensures r == Unauthenticated ==> state == old(state)
      ensures r != Unauthenticated ==>
                r == (if created then Success(actual) else DatabaseRefused) &&
                state == Next(old(state), CreateStep(registeredUsers[name], requested, actual, created), time)
    {
      hide Inv, Recorded, Known;
      var user := Authenticate(name, password, time);
      if user.None? { return Unauthenticated; }
      dbManager.AddObject(user.value, requested, actual, created);
      r := if created then Success(actual) else DatabaseRefused;
      state := state.(objects := dbManager.dbObjects);
      NextInv(old(state), CreateStep(user.value, requested, actual, created), time);
    }

    /** The translate request; a name that is not known is sent back as it came. */
    method TranslateName(name: string, password: string, requested: string, time: int) returns (r: Response)
      requires Valid() && state.now <= time
      modifies this`loggedInUsers, this`state, usersWithPasswords.Keys, dbManager
      ensures Valid()
      ensures r == Unauthenticated <==>
              !(name in registeredUsers && usersWithPasswords[registeredUsers[name]] == password)
      ensures r == Unauthenticated ==> state == old(state)
      ensures r != Unauthenticated ==>
                state == Next(old(state), TranslateStep(registeredUsers[name], requested), time) &&
                r == match Lookup(old(state), registeredUsers[name], requested)
                     case None => NoSuchObject(requested)
                     case Some(actual) => Success(actual)
    {
      hide Inv, Recorded, Known;
      var user := Authenticate(name, password, time);
      if user.None? { return Unauthenticated; }
      var found := dbManager.Translate(requested, user.value);
      r := match found
           case None => NoSuchObject(requested)
           case Some(actual) => Success(actual);
      state := state.(objects := dbManager.dbObjects);
      NextInv(old(state), TranslateStep(user.value, requested), time);
    }

    /**
     * One check of the cleaner; the answer is the user to check next. A user without a login time would keep it
     * busy for ever; the invariant rules that out.
     */
    method CheckOldest(oldestUser: SimpleUser, time: int) returns (next: SimpleUser?)
      requires Valid() && loggedInUsers != [] && oldestUser == loggedInUsers[0] && state.now <= time
      modifies this`loggedInUsers, this`state, usersWithPasswords.Keys, dbManager
      ensures Valid() && state == Check(old(state), time)
      ensures next == if HeadExpired(old(state), time) && loggedInUsers != [] then loggedInUsers[0] else null
    {
      HeadHasLoggedIn(state);
      NextInv(state, CheckStep, time);
      hide Inv;
      match oldestUser.lastLoginTime
      case None =>
        assert false;
      case Some(last) =>
        if Expired(last, time) {
          var _ := LogoutUser(oldestUser, time);
          next := if loggedInUsers == [] then null else loggedInUsers[0];
        } else {
          state := state.(now := time);
          next := null;
        }
    }

    /** One pass of the cleaner, its k-th check at clock[k]. */
    method Cleanup(clock: seq<int>) returns (checks: nat)
      requires Valid() && Rising(state.now, clock) && |clock| > |loggedInUsers|
      modifies this`loggedInUsers, this`state, usersWithPasswords.Keys, dbManager
      ensures Valid() && (state, checks) == Pass(old(state), clock)
    {
      hide Inv, Recorded, Known, Pass, Check, HeadExpired;
      PassOfNobody(state, clock);
      checks := 0;
      var oldestUser: SimpleUser? := if loggedInUsers == [] then null else loggedInUsers[0];
      while oldestUser != null
        invariant Valid() && checks <= |clock|
        invariant oldestUser != null ==>
                    loggedInUsers != [] && oldestUser == loggedInUsers[0] &&
                    |clock| - checks > |loggedInUsers| && Rising(state.now, clock[checks..])
        invariant var (t, n) := if oldestUser == null then (state, 0) else Pass(state, clock[checks..]);
                  Pass(old(state), clock) == (t, checks + n)
        decreases if oldestUser == null then 0 else 1 + |loggedInUsers|
      {
        assert clock[checks..][1..] == clock[checks + 1..];
        PassNext(state, clock[checks..]);
        oldestUser := CheckOldest(oldestUser, clock[checks]);
        checks := checks + 1;
      }
    }
  }
}
