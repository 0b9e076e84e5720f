/** The account handlers (backend/src/controllers/authController.js) over
    in-memory User and InvitationCode collections. bcrypt's hash and compare
    and the random code generator are foreign: the hash digest and the new
    code text are parameters, the comparison an uninterpreted function. */
module AuthController {
  import opened Json
  import opened Http
  import opened InvitationModel

  datatype Role = Admin | Member

  /** The `role` strings of the user records. */
  function RoleName(r: Role): string {
    match r
    case Admin => "admin"
    case Member => "user"
  }

  /** A user record: its role and the fields the handlers read and write.
      The User schema is not part of this model, so fields are untyped. */
  datatype User = User(role: Role, attrs: map<string, Value>)

  /** A user as the replies show it, with its id. */
  datatype Account = Account(id: Id, user: User)

  /** `doc[key]`: a field's value, or `None` when it is undefined. */
  function Field(attrs: map<string, Value>, key: string): (r: Option<Value>)
    ensures r.Some? <==> key in attrs
    ensures r.Some? ==> r.value == attrs[key]
  {
    if key in attrs then Some(attrs[key]) else None
  }

  /** The first index at or after `from` whose user satisfies `p`: what
      `findOne` returns for a filter, in insertion order. */
  function First(users: seq<User>, p: User -> bool, from: nat): (r: Option<nat>)
    decreases |users| - from
    ensures r.Some? ==> from <= r.value < |users| && p(users[r.value])
    ensures r.Some? ==> forall j :: from <= j < r.value ==> !p(users[j])
    ensures r.None? ==> forall j :: from <= j < |users| ==> !p(users[j])
  {
    if from >= |users| then None
    else if p(users[from]) then Some(from)
    else First(users, p, from + 1)
  }

  /** The login filter `{ $or: [{ email: id }, { username: id }] }`. */
  predicate Identifies(u: User, id: Option<Value>) {
    Field(u.attrs, "email") == id || Field(u.attrs, "username") == id
  }

  /** The register filter `{ email }`. */
  predicate HasEmail(u: User, email: Option<Value>) {
    Field(u.attrs, "email") == email
  }

  /** The text `findOne({ code: invitationCode, isUsed: false })` looks for;
      the schema's `trim` applies to the filter value. Only a string can
      name a code. */
  function CodeKey(body: Payload): (r: Option<string>)
    ensures r.Some? <==> "invitationCode" in body && IsText(body["invitationCode"])
    ensures r.Some? ==> r.value == Trim(TextOf(body["invitationCode"]))
  {
    if "invitationCode" in body && IsText(body["invitationCode"]) then Some(Trim(TextOf(body["invitationCode"]))) else None
  }

  /** The code lookup ignores whitespace around the code: a trimmed code
      sent with padding names the same stored code as the code alone. */
  lemma CodeKeyIgnoresPadding(body: Payload, pad1: string, c: string, pad2: string)
    requires forall i :: 0 <= i < |pad1| ==> IsSpace(pad1[i])
    requires forall i :: 0 <= i < |pad2| ==> IsSpace(pad2[i])
    requires IsTrimmed(c)
    ensures CodeKey(body["invitationCode" := Str(pad1 + c + pad2)]) == Some(c)
    ensures CodeKey(body["invitationCode" := Str(c)]) == Some(c)
  {
    var padded := body["invitationCode" := Str(pad1 + c + pad2)];
    var plain := body["invitationCode" := Str(c)];
    assert padded["invitationCode"] == Str(pad1 + c + pad2);
    assert plain["invitationCode"] == Str(c);
    assert TextOf(padded["invitationCode"]) == pad1 + c + pad2;
    assert TextOf(plain["invitationCode"]) == c;
    assert Trim(pad1 + c + pad2) == c by { TrimPadding(pad1, c, pad2); }
    assert Trim(c) == c by { TrimTrimmed(c); }
    assert CodeKey(padded) == Some(Trim(pad1 + c + pad2));
    assert CodeKey(plain) == Some(Trim(c));
  }

  /** `findOne({ email })` finds a user. */
  predicate EmailTaken(users: seq<User>, body: Payload) {
    First(users, u => HasEmail(u, Field(body, "email")), 0).Some?
  }

  /** bcrypt can hash the submitted password: it is a string. */
  predicate PasswordGiven(body: Payload) {
    "password" in body && IsText(body["password"])
  }

  /** The code the body names exists and is unused. */
  predicate Usable(codes: map<string, InvitationCode>, body: Payload) {
    CodeKey(body).Some? && CodeKey(body).value in codes && !codes[CodeKey(body).value].isUsed
  }

  /** `new User({ email, password, name, role: 'user' })` with the password
      replaced by its hash `digest`; undefined fields are not set. */
  function NewUser(body: Payload, digest: string): (u: User)
    ensures u.role == Member
    ensures u.attrs.Keys == {"password"} + (body.Keys * {"email", "name"})
    ensures u.attrs["password"] == Str(digest)
    ensures Field(u.attrs, "email") == Field(body, "email")
    ensures Field(u.attrs, "name") == Field(body, "name")
  {
    User(Member, (map k | k in body.Keys * {"email", "name"} :: body[k])["password" := Str(digest)])
  }

  /** `allowedUpdates` of `updateProfile`. */
  const AllowedUpdates: set<string> := {"firstName", "lastName", "email", "phone", "password"}

  /** `updates.every(update => allowedUpdates.includes(update))`. */
  predicate ValidOperation(body: Payload) {
    forall k :: k in body ==> k in AllowedUpdates
  }

  /** The user and code collections. `passwordMatches(password, hash)` is
      bcrypt's `compare`. Users are never removed, so a user's id is its
      position. */
  class AuthService {
    var users: seq<User>
    var codes: map<string, InvitationCode>
    const passwordMatches: (string, string) -> bool

    /** Codes are stored under their own text, which makes them unique;
        a code is used exactly when it names a user, and no two codes name
        the same user. */
    ghost predicate Valid()
      reads this
    {
      && (forall k :: k in codes ==> codes[k].code == k && k != [] && IsTrimmed(k))
      && (forall k :: k in codes ==> (codes[k].isUsed <==> codes[k].usedBy.Some?))
      && (forall k :: k in codes && codes[k].usedBy.Some? ==> codes[k].usedBy.value < |users|)
      && (forall k, k' :: k in codes && k' in codes && k != k' && codes[k].usedBy.Some? ==>
            codes[k].usedBy != codes[k'].usedBy)
    }

    /** Used codes are final: each stays stored and unchanged. */
    twostate predicate UsedCodesKept()
      reads this
    {
      forall k :: k in old(codes) && old(codes)[k].isUsed ==> k in codes && codes[k] == old(codes)[k]
    }

    constructor (users: seq<User>, passwordMatches: (string, string) -> bool)
      ensures Valid() && this.users == users && codes == map[]
      ensures this.passwordMatches == passwordMatches
    {
      this.users := users;
      this.codes := map[];
      this.passwordMatches := passwordMatches;
    }

    /** `generateInvitationCode` for the signed-in user `caller`; `code` is
        the random text and `now` the clock. */
    method GenerateInvitationCode(caller: Id, code: string, now: int) returns (r: Reply<string>)
      requires Valid() && caller < |users|
      modifies this
      ensures Valid() && UsedCodesKept() && users == old(users)
      ensures users[caller].role != Admin ==>
        r == Forbidden("Not authorized to generate invitation codes") && codes == old(codes)
      ensures users[caller].role == Admin && (New(code, now).None? || Trim(code) in old(codes)) ==>
        r == ServerError("Error generating invitation code") && codes == old(codes)
      ensures users[caller].role == Admin && New(code, now).Some? && Trim(code) !in old(codes) ==>
        && r == Created(code)
        && codes == old(codes)[Trim(code) := InvitationCode(Trim(code), false, None, now)]
    {
      if users[caller].role != Admin {
        r := Forbidden("Not authorized to generate invitation codes");
        return;
      }
      var made := New(code, now);
      if made.None? || made.value.code in codes {
        r := ServerError("Error generating invitation code");
        return;
      }
      codes := codes[made.value.code := made.value];
      r := Created(code);
    }

    /** `register`: the code check, the email check, hashing (`digest` is
        bcrypt's output; a non-string password makes it throw), then the
        new user and the code marked as used by it. */
    method Register(body: Payload, digest: string) returns (r: Reply<Account>)
      requires Valid()
      modifies this
      ensures Valid() && UsedCodesKept()
      ensures !Usable(old(codes), body) ==>
        r == BadRequest("Invalid or used invitation code") && users == old(users) && codes == old(codes)
      ensures Usable(old(codes), body) && EmailTaken(old(users), body) ==>
        r == BadRequest("User already exists") && users == old(users) && codes == old(codes)
      ensures Usable(old(codes), body) && !EmailTaken(old(users), body) && !PasswordGiven(body) ==>
        r == ServerError("Error registering user") && users == old(users) && codes == old(codes)
      ensures Usable(old(codes), body) && !EmailTaken(old(users), body) && PasswordGiven(body) ==>
        && users == old(users) + [NewUser(body, digest)]
        && codes == old(codes)[CodeKey(body).value :=
             old(codes)[CodeKey(body).value].(isUsed := true, usedBy := Some(|old(users)|))]
        && r == Created(Account(|old(users)|, NewUser(body, digest)))
    {
      if !Usable(codes, body) {
        r := BadRequest("Invalid or used invitation code");
        return;
      }
      var key := CodeKey(body).value;
      if EmailTaken(users, body) {
        r := BadRequest("User already exists");
        return;
      }
      if !PasswordGiven(body) {
        r := ServerError("Error registering user");
        return;
      }
      var user := NewUser(body, digest);
      var id := Enroll(user, key);
      r := Created(Account(id, user));
    }

    /** `user.save()` followed by `code.isUsed = true; code.usedBy =
        user._id; code.save()`. */
    method Enroll(user: User, key: string) returns (id: Id)
      requires Valid() && key in codes && !codes[key].isUsed
      modifies this
      ensures Valid() && UsedCodesKept()
      ensures id == |old(users)| && users == old(users) + [user]
      ensures codes == old(codes)[key := old(codes)[key].(isUsed := true, usedBy := Some(id))]
    {
      id := |users|;
      users := users + [user];
      codes := codes[key := codes[key].(isUsed := true, usedBy := Some(id))];
    }

    /** `login`: the first user whose email or username is the given
        identifier, then bcrypt's comparison (which throws unless both the
        password and the stored hash are strings). */
    method Login(body: Payload) returns (r: Reply<Account>)
      ensures First(users, u => Identifies(u, Field(body, "email")), 0).None? ==>
        r == BadRequest("Invalid credentials")
      ensures First(users, u => Identifies(u, Field(body, "email")), 0).Some? ==>
        var i := First(users, u => Identifies(u, Field(body, "email")), 0).value;
        var stored := Field(users[i].attrs, "password");
        if !(Field(body, "password").Some? && IsText(body["password"]) && stored.Some? && IsText(stored.value)) then
          r == ServerError("Error logging in")
        else if !passwordMatches(TextOf(body["password"]), TextOf(stored.value)) then
          r == BadRequest("Invalid credentials")
        else r == Ok(Account(i, users[i]))
    {
      var found := First(users, u => Identifies(u, Field(body, "email")), 0);
      if found.None? {
        r := BadRequest("Invalid credentials");
        return;
      }
      var i := found.value;
      var stored := Field(users[i].attrs, "password");
      if !(Field(body, "password").Some? && IsText(body["password"]) && stored.Some? && IsText(stored.value)) {
        r := ServerError("Error logging in");
      } else if !passwordMatches(TextOf(body["password"]), TextOf(stored.value)) {
        r := BadRequest("Invalid credentials");
      } else {
        r := Ok(Account(i, users[i]));
      }
    }

    /** `updateProfile` for the signed-in user `caller`: all or nothing
        against the allow-list, then each submitted key assigned in turn. */
    method UpdateProfile(caller: Id, body: Payload) returns (r: Reply<Account>)
      requires Valid() && caller < |users|
      modifies this
      ensures Valid() && codes == old(codes) && |users| == |old(users)|
      ensures !ValidOperation(body) ==> r == BadRequest("Invalid updates") && users == old(users)
      ensures ValidOperation(body) ==>
        && users == old(users)[caller := User(old(users)[caller].role, old(users)[caller].attrs + body)]
        && r == Ok(Account(caller, users[caller]))
    {
      if !ValidOperation(body) {
        r := BadRequest("Invalid updates");
        return;
      }
      var attrs := users[caller].attrs;
      var pending := body.Keys;
      while pending != {}
        invariant pending <= body.Keys
        invariant attrs == users[caller].attrs + (body - pending)
        decreases pending
      {
        var k :| k in pending;
        attrs := attrs[k := body[k]];
        pending := pending - {k};
      }
      assert body - {} == body;
      users := users[caller := User(users[caller].role, attrs)];
      r := Ok(Account(caller, users[caller]));
    }
  }

  /** Appending a user does not change an earlier `findOne` match, and the
      new user is found only when no earlier one matches. */
  lemma {:induction false} FirstAppend(users: seq<User>, u: User, p: User -> bool, from: nat)
    requires from <= |users|
    decreases |users| - from
    ensures First(users + [u], p, from) ==
      if First(users, p, from).Some? then First(users, p, from)
      else if p(u) then Some(|users|) else None
  {
    var all := users + [u];
    if from < |users| {
      assert all[from] == users[from];
      FirstAppend(users, u, p, from + 1);
    } else {
      assert all[from] == u;
      assert First(all, p, from + 1) == None;
    }
  }

  /** When no earlier user matches the registered email, login's lookup by
      that email finds the new user, and the hash it then checks is the
      stored `digest`. */
  lemma LoginAfterRegister(users: seq<User>, body: Payload, digest: string)
    requires PasswordGiven(body)
    requires First(users, u => Identifies(u, Field(body, "email")), 0).None?
    ensures First(users + [NewUser(body, digest)], u => Identifies(u, Field(body, "email")), 0) == Some(|users|)
    ensures Field(NewUser(body, digest).attrs, "password") == Some(Str(digest))
  {
    FirstAppend(users, NewUser(body, digest), u => Identifies(u, Field(body, "email")), 0);
  }

  /** Once a registration has marked a code as used, no later body naming
      that code can use it again. */
  lemma CodeUsedOnce(codes: map<string, InvitationCode>, body: Payload, later: Payload, id: Id)
    requires Usable(codes, body)
    requires CodeKey(later) == CodeKey(body)
    ensures !Usable(codes[CodeKey(body).value := codes[CodeKey(body).value].(isUsed := true, usedBy := Some(id))], later)
  {
  }

  /** The allow-list check accepts exactly the bodies whose keys are all
      allowed, so `password` may be changed but `role` may not. */
  lemma AllowList(body: Payload)
    ensures ValidOperation(body) <==> body.Keys <= AllowedUpdates
    ensures "role" in body ==> !ValidOperation(body)
  {
  }
}
