/** The mock session store: the signed-in user, the loading flag, and the two browser storage
    slots `rfp_user` (the session) and `rfp_signup_data` (the latest sign-up, password included).

    Each asynchronous operation is one atomic step; the clock readings (`Date.now()` and
    `new Date()`) are the parameter `now`, in milliseconds. */
module Auth {
  import opened Wrappers
  import opened Text

  datatype Role = Admin | Manager | Member

  datatype User = User(
    id: string, email: string, firstName: string, lastName: string, company: string,
    role: Role, lastLogin: nat)

  /** What the sign-up form sends. */
  datatype SignupData = SignupData(firstName: string, lastName: string, email: string, password: string, company: string)

  /** The record `signup` stores for a later `login`. */
  datatype SignupRecord = SignupRecord(
    id: string, email: string, firstName: string, lastName: string, company: string, password: string)

  /** A value held in browser storage under one of the two keys. */
  datatype Stored = StoredUser(user: User) | StoredSignup(record: SignupRecord)

  const UserKey: string := "rfp_user"
  const SignupKey: string := "rfp_signup_data"
  const DemoPassword: string := "password123"

  /** Each key holds the kind of value written under it. */
  predicate WellTyped(storage: map<string, Stored>)
  {
    && (UserKey in storage ==> storage[UserKey].StoredUser?)
    && (SignupKey in storage ==> storage[SignupKey].StoredSignup?)
  }

  /** The session a page load restores: the stored user, if any. */
  function RestoredUser(storage: map<string, Stored>): (u: Option<User>)
    requires WellTyped(storage)
    ensures u.Some? <==> UserKey in storage
    ensures u.Some? ==> storage[UserKey] == StoredUser(u.value)
  {
    if UserKey in storage then Some(storage[UserKey].user) else None
  }

  /** The three demo accounts, keyed by email. */
  function DemoUser(email: string, now: nat): (u: Option<User>)
    ensures u.Some? <==> email in {"admin@example.com", "manager@example.com", "user@example.com"}
    ensures u.Some? ==> u.value.email == email && u.value.lastLogin == now
    ensures email == "admin@example.com" ==> u.Some? && u.value.role == Admin
    ensures email == "manager@example.com" ==> u.Some? && u.value.role == Manager
    ensures email == "user@example.com" ==> u.Some? && u.value.role == Member
  {
    if email == "admin@example.com" then Some(User("1", email, "John", "Admin", "ACME Corp", Admin, now))
    else if email == "manager@example.com" then Some(User("2", email, "Jane", "Manager", "Tech Solutions Inc", Manager, now))
    else if email == "user@example.com" then Some(User("3", email, "Bob", "User", "StartupXYZ", Member, now))
    else None
  }

  /** The stored sign-up has exactly this email and password. */
  predicate SignupMatches(storage: map<string, Stored>, email: string, password: string)
    requires WellTyped(storage)
  {
    SignupKey in storage && storage[SignupKey].record.email == email && storage[SignupKey].record.password == password
  }

  /** The account a matching sign-up logs into. */
  function UserFromSignup(r: SignupRecord, now: nat): (u: User)
    ensures u.id == r.id && u.email == r.email && u.role == Member && u.lastLogin == now
  {
    User(r.id, r.email, r.firstName, r.lastName, r.company, Member, now)
  }

  datatype LoginOutcome = SignupLogin(user: User) | DemoLogin(user: User) | InvalidCredentials

  /** The credential check of `login`: the stored sign-up first, then the demo accounts
      with the shared demo password. */
  function Authenticate(storage: map<string, Stored>, email: string, password: string, now: nat): (o: LoginOutcome)
    requires WellTyped(storage)
    ensures o.SignupLogin? <==> SignupMatches(storage, email, password)
    ensures o.SignupLogin? ==> o.user == UserFromSignup(storage[SignupKey].record, now)
    ensures o.DemoLogin? <==> !SignupMatches(storage, email, password) && DemoUser(email, now).Some? && password == DemoPassword
    ensures o.DemoLogin? ==> o.user == DemoUser(email, now).value
    ensures o.InvalidCredentials? <==>
      !SignupMatches(storage, email, password) && (DemoUser(email, now).None? || password != DemoPassword)
  {
    if SignupMatches(storage, email, password) then SignupLogin(UserFromSignup(storage[SignupKey].record, now))
    else if DemoUser(email, now).Some? && password == DemoPassword then DemoLogin(DemoUser(email, now).value)
    else InvalidCredentials
  }

  /** The record `signup` stores: `Date.now().toString()` as its id. */
  function NewSignupRecord(data: SignupData, now: nat): (r: SignupRecord)
    ensures r.email == data.email && r.password == data.password
    ensures forall i :: 0 <= i < |r.id| ==> IsDigit(r.id[i])
    ensures DecimalValue(r.id) == now
  {
    NatToStringValue(now);
    SignupRecord(NatToString(now), data.email, data.firstName, data.lastName, data.company, data.password)
  }

  /** The account `googleLogin` always signs into. */
  function GoogleUser(now: nat): (u: User)
    ensures u.email == "google.user@gmail.com" && u.role == Member
    ensures u.id == "google_" + NatToString(now)
  {
    User("google_" + NatToString(now), "google.user@gmail.com", "Google", "User", "Google Login Test", Member, now)
  }

  /** Signing up and then logging in with the same email and password logs into the new
      account, whatever was stored before. */
  lemma SignupThenLogin(storage: map<string, Stored>, data: SignupData, signedUpAt: nat, now: nat)
    requires WellTyped(storage)
    ensures var after := storage[SignupKey := StoredSignup(NewSignupRecord(data, signedUpAt))];
      && WellTyped(after)
      && Authenticate(after, data.email, data.password, now)
         == SignupLogin(User(NatToString(signedUpAt), data.email, data.firstName, data.lastName, data.company, Member, now))
  {
  }

  /** A sign-up login is single use: the record is gone afterwards, so the same credentials
      only work again if they are a demo account's. */
  lemma SignupLoginIsSingleUse(storage: map<string, Stored>, email: string, password: string, now: nat, later: nat)
    requires WellTyped(storage)
    requires Authenticate(storage, email, password, now).SignupLogin?
    ensures var after := storage[UserKey := StoredUser(Authenticate(storage, email, password, now).user)] - {SignupKey};
      && WellTyped(after)
      && !Authenticate(after, email, password, later).SignupLogin?
  {
  }

  class AuthProvider {
    var user: Option<User>
    var isLoading: bool
    var storage: map<string, Stored>

    /** Storage is well typed, and the user in memory is the one a reload would restore. */
    ghost predicate Valid()
      reads this
    {
      WellTyped(storage) && user == RestoredUser(storage)
    }

    /** `isAuthenticated`. */
    predicate IsAuthenticated()
      reads this
    {
      user.Some?
    }

    /** Mounting the provider: the stored session, if any, is restored and loading ends. */
    constructor(initial: map<string, Stored>)
      requires WellTyped(initial)
      ensures Valid()
      ensures storage == initial && !isLoading
      ensures user == RestoredUser(initial)
    {
      user := None;
      isLoading := true;
      storage := initial;
      if UserKey in initial {
        user := Some(initial[UserKey].user);
      }
      isLoading := false;
    }

    /** `login`. A failed attempt returns the error and leaves the session and storage as they were. */
    method Login(email: string, password: string, now: nat) returns (error: Option<string>)
      requires Valid()
      modifies this
      ensures Valid() && !isLoading
      ensures match Authenticate(old(storage), email, password, now)
        case SignupLogin(u) =>
          user == Some(u) && storage == old(storage)[UserKey := StoredUser(u)] - {SignupKey} && error.None?
        case DemoLogin(u) =>
          user == Some(u) && storage == old(storage)[UserKey := StoredUser(u)] && error.None?
        case InvalidCredentials =>
          user == old(user) && storage == old(storage) && error == Some("Invalid credentials")
    {
      isLoading := true;
      if SignupKey in storage {
        var record := storage[SignupKey].record;
        if record.email == email && record.password == password {
          var newUser := UserFromSignup(record, now);
          user := Some(newUser);
          storage := storage[UserKey := StoredUser(newUser)];
          storage := storage - {SignupKey};
          isLoading := false;
          return None;
        }
      }
      var found := DemoUser(email, now);
      if found.Some? && password == DemoPassword {
        user := found;
        storage := storage[UserKey := StoredUser(found.value)];
        isLoading := false;
        return None;
      }
      isLoading := false;
      return Some("Invalid credentials");
    }

    /** `signup`: only the sign-up slot is overwritten; nobody is signed in by it. */
    method Signup(data: SignupData, now: nat)
      requires Valid()
      modifies this
      ensures Valid() && !isLoading
      ensures user == old(user)
      ensures storage == old(storage)[SignupKey := StoredSignup(NewSignupRecord(data, now))]
    {
      isLoading := true;
      var record := NewSignupRecord(data, now);
      storage := storage[SignupKey := StoredSignup(record)];
      isLoading := false;
    }

    /** `googleLogin`: always succeeds, as the fixed Google account. */
    method GoogleLogin(now: nat)
      requires Valid()
      modifies this
      ensures Valid() && !isLoading
      ensures user == Some(GoogleUser(now))
      ensures storage == old(storage)[UserKey := StoredUser(GoogleUser(now))]
    {
      isLoading := true;
      var googleUser := GoogleUser(now);
      user := Some(googleUser);
      storage := storage[UserKey := StoredUser(googleUser)];
      isLoading := false;
    }

    /** `logout`: signs out and clears both slots; doing it twice is doing it once. */
    method Logout()
      requires Valid()
      modifies this
      ensures Valid() && !IsAuthenticated()
      ensures user.None? && isLoading == old(isLoading)
      ensures storage == old(storage) - {UserKey, SignupKey}
    {
      user := None;
      storage := storage - {UserKey};
      storage := storage - {SignupKey};
    }
  }

  /** Signing up and then logging in with the same credentials signs the new account in and
      clears the sign-up slot; logging out twice leaves nothing behind. */
  method SignupLoginLogout(p: AuthProvider, data: SignupData, t1: nat, t2: nat)
    requires p.Valid()
    modifies p
    ensures p.Valid() && !p.IsAuthenticated()
    ensures p.storage == old(p.storage) - {UserKey, SignupKey}
  {
    p.Signup(data, t1);
    var error := p.Login(data.email, data.password, t2);
    assert error.None? && p.user.Some? && p.user.value.email == data.email;
    assert SignupKey !in p.storage;
    p.Logout();
    p.Logout();
  }
}
