/**
 * The session store: the signed-in user record, mirrored into the browser's
 * key-value storage under one key.
 */
module Auth {
  import opened Wrappers

  /** A field value of a user record. */
  datatype Value = Str(s: string) | Num(n: int) | Bool(b: bool) | Null

  /** A user record: field name to value. */
  type Record = map<string, Value>

  /** The storage key the signed-in user is kept under. */
  const UserKey: string := "user"

  const MockUserId: string := "user123"
  const StartingCredits: int := 5
  const FreePlan: string := "Free"

  /** The fields of every record that login or signup builds. */
  const UserFields: set<string> := {"id", "email", "name", "credits", "subscription", "expiresAt"}

  /**
   * `email.split('@')[0]`: the part of `email` before its first '@', or all
   * of it when it has none.
   */
  function EmailPrefix(email: string): (r: string)
    ensures '@' !in r
    ensures r <= email
    ensures |r| < |email| ==> email[|r|] == '@'
  {
    if email == [] || email[0] == '@' then []
    else [email[0]] + EmailPrefix(email[1..])
  }

  /** The three properties of EmailPrefix single out its result. */
  lemma EmailPrefixUnique(email: string, r: string)
    requires '@' !in r && r <= email
    requires |r| < |email| ==> email[|r|] == '@'
    ensures r == EmailPrefix(email)
  {
    // Both r and EmailPrefix(email) are '@'-free prefixes of email that stop
    // at an '@' or at its end, so neither can be shorter than the other.
  }

  /** The name derived from `local@domain` is `local`. */
  lemma EmailPrefixOfAddress(local: string, domain: string)
    requires '@' !in local
    ensures EmailPrefix(local + "@" + domain) == local
  {
    var email := local + "@" + domain;
    assert email[|local|] == '@';
    assert local <= email by {
      assert email[..|local|] == local;
    }
    EmailPrefixUnique(email, local);
  }

  /** An address without '@' is its own name. */
  lemma EmailPrefixWithoutAt(email: string)
    requires '@' !in email
    ensures EmailPrefix(email) == email
  {
    EmailPrefixUnique(email, email);
  }

  /** The mock user record with the given email and display name. */
  function NewUser(email: string, name: string): (u: Record)
    ensures u.Keys == UserFields
    ensures u["id"] == Str(MockUserId) && u["email"] == Str(email) && u["name"] == Str(name)
    ensures u["credits"] == Num(StartingCredits) && u["subscription"] == Str(FreePlan)
    ensures u["expiresAt"] == Null
  {
    map["id" := Str(MockUserId), "email" := Str(email), "name" := Str(name),
        "credits" := Num(StartingCredits), "subscription" := Str(FreePlan), "expiresAt" := Null]
  }

  /** The record login builds: its name is the email's prefix. */
  function LoginUser(email: string): (u: Record)
    ensures u.Keys == UserFields
    ensures u["email"] == Str(email)
    ensures u["name"] == Str(EmailPrefix(email))
    ensures u["id"] == Str(MockUserId) && u["credits"] == Num(StartingCredits)
    ensures u["subscription"] == Str(FreePlan) && u["expiresAt"] == Null
  {
    NewUser(email, EmailPrefix(email))
  }

  /** The record signup builds: login's record, named `name` unless it is empty. */
  function SignupUser(email: string, name: string): (u: Record)
    ensures name == "" ==> u == LoginUser(email)
    ensures name != "" ==> u == LoginUser(email)["name" := Str(name)]
  {
    NewUser(email, if name != "" then name else EmailPrefix(email))
  }

  /** The fields of `current`, none for a null record. */
  function FieldsOf(current: Option<Record>): set<string> {
    if current.Some? then current.value.Keys else {}
  }

  /**
   * `{...current, ...userData}`: every field of `userData` with its value,
   * and every other field of `current` with the value it had.
   */
  function Merge(current: Option<Record>, userData: Record): (r: Record)
    ensures r.Keys == FieldsOf(current) + userData.Keys
    ensures forall k :: k in userData ==> r[k] == userData[k]
    ensures forall k :: k in r && k !in userData ==> current.Some? && r[k] == current.value[k]
  {
    if current.Some? then current.value + userData else userData
  }

  /** Merging the same fields a second time changes nothing. */
  lemma MergeIdempotent(current: Option<Record>, userData: Record)
    ensures Merge(Some(Merge(current, userData)), userData) == Merge(current, userData)
  {
  }

  /** Merging no fields into a record keeps it as it is. */
  lemma MergeNothing(current: Record)
    ensures Merge(Some(current), map[]) == current
  {
  }

  /** Later fields override earlier ones: two merges are one merge of their union. */
  lemma MergeTwice(current: Option<Record>, d1: Record, d2: Record)
    ensures Merge(Some(Merge(current, d1)), d2) == Merge(current, d1 + d2)
  {
  }

  /** The user the storage holds, if any. */
  function Stored(storage: map<string, Record>): Option<Record> {
    if UserKey in storage then Some(storage[UserKey]) else None
  }

  class AuthProvider {
    var currentUser: Option<Record>
    var loading: bool
    /** The browser's key-value storage, values read back as records. */
    var storage: map<string, Record>

    /** Until the first load no one is signed in; after it the current user mirrors storage. */
    ghost predicate Valid()
      reads this
    {
      && (loading ==> currentUser.None?)
      && (!loading ==> currentUser == Stored(storage))
    }

    /** The provider mounts over whatever `browserStorage` holds. */
    constructor (browserStorage: map<string, Record>)
      ensures Valid()
      ensures currentUser == None && loading && storage == browserStorage
    {
      currentUser := None;
      loading := true;
      storage := browserStorage;
    }

    /** The mount effect: restore a stored user, then stop loading. */
    method LoadFromStorage()
      requires Valid()
      modifies this`currentUser, this`loading
      ensures Valid() && !loading
      ensures UserKey in storage ==> currentUser == Some(storage[UserKey])
      ensures UserKey !in storage ==> currentUser == None
    {
      if UserKey in storage {
        currentUser := Some(storage[UserKey]);
      }
      loading := false;
    }

    /** Mock login: any password is accepted. */
    method Login(email: string, password: string) returns (user: Record)
      requires Valid() && !loading
      modifies this`currentUser, this`storage
      ensures Valid()
      ensures user == LoginUser(email)
      ensures currentUser == Some(user)
      ensures storage == old(storage)[UserKey := user]
    {
      user := LoginUser(email);
      storage := storage[UserKey := user];
      currentUser := Some(user);
    }

    /** Mock signup: any password is accepted. */
    method Signup(email: string, password: string, name: string) returns (user: Record)
      requires Valid() && !loading
      modifies this`currentUser, this`storage
      ensures Valid()
      ensures user == SignupUser(email, name)
      ensures currentUser == Some(user)
      ensures storage == old(storage)[UserKey := user]
    {
      user := SignupUser(email, name);
      storage := storage[UserKey := user];
      currentUser := Some(user);
    }

    method Logout()
      requires Valid() && !loading
      modifies this`currentUser, this`storage
      ensures Valid()
      ensures currentUser == None
      ensures storage == old(storage) - {UserKey}
    {
      storage := storage - {UserKey};
      currentUser := None;
    }

    /** Merges `userData` into the current user, storing and keeping the result. */
    method UpdateUser(userData: Record)
      requires Valid() && !loading
      modifies this`currentUser, this`storage
      ensures Valid()
      ensures currentUser == Some(Merge(old(currentUser), userData))
      ensures storage == old(storage)[UserKey := Merge(old(currentUser), userData)]
    {
      var updated := Merge(currentUser, userData);
      storage := storage[UserKey := updated];
      currentUser := Some(updated);
    }
  }
}
