/** The user table and the Basic credential check (section 2 of RFC 7617). */
module Authentication {
  import opened Text
  import opened Base64

  datatype AuthResult = Ok | Incorrect | Error

  type Users = map<Bytes, Bytes>

  const COLON: Byte := 58
  const BASIC: string := "Basic "

  function FindColon(b: Bytes): (r: nat)
    ensures r <= |b|
    ensures forall i :: 0 <= i < r ==> b[i] != COLON
    ensures r < |b| ==> b[r] == COLON
  {
    if b == [] || b[0] == COLON then 0 else 1 + FindColon(b[1..])
  }

  lemma {:induction false} FindColonIn(user: Bytes, password: Bytes)
    requires COLON !in user
    ensures FindColon(user + [COLON] + password) == |user|
    decreases |user|
  {
    var b := user + [COLON] + password;
    if user == [] {
      assert b[0] == COLON;
    } else {
      assert b[1..] == user[1..] + [COLON] + password;
      FindColonIn(user[1..], password);
    }
  }

  /** The verdict on the credentials after the scheme name. */
  function BasicVerdict(users: Users, credentials: string): AuthResult {
    match Decoded(credentials)
    case None => Error
    case Some(b) =>
      var colon := FindColon(b);
      if colon == |b| then Error
      else if b[..colon] in users && users[b[..colon]] == b[colon + 1..] then Ok
      else Incorrect
  }

  /** The verdict on the value of a Proxy-Authorization field. */
  function Verdict(users: Users, value: string): AuthResult {
    if |value| > 6 && value[..6] == BASIC then BasicVerdict(users, value[6..]) else Error
  }

  /** The program's one authentication object. */
  class AuthenticationTable {
    var usersMap: Users

    constructor ()
      ensures usersMap == map[]
    {
      usersMap := map[];
    }

    method AddUser(username: Bytes, password: Bytes)
      modifies this
      ensures usersMap == old(usersMap)[username := password]
    {
      usersMap := usersMap[username := password];
    }

    method RemoveAllUsers()
      modifies this
      ensures usersMap == map[]
    {
      usersMap := map[];
    }

    method AuthBasic(credentials: string) returns (r: AuthResult)
      ensures r == BasicVerdict(usersMap, credentials)
    {
      var authorization := Decode(credentials);
      if authorization.None? {
        return Error;
      }
      var b := authorization.value;
      var colon := FindColon(b);
      if colon == |b| {
        return Error;
      }
      var username, password := b[..colon], b[colon + 1..];
      if username in usersMap && usersMap[username] == password {
        return Ok;
      }
      return Incorrect;
    }

    method Auth(value: string) returns (r: AuthResult)
      ensures r == Verdict(usersMap, value)
    {
      if |value| > 6 && value[..6] == BASIC {
        r := AuthBasic(value[6..]);
      } else {
        r := Error;
      }
    }
  }

  // ----------------------------------------------------------------- histories

  datatype Change = AddUser(username: Bytes, password: Bytes) | RemoveAllUsers

  /** The table after a history of calls, oldest first. */
  function Table(history: seq<Change>): Users {
    if history == [] then map[]
    else
      var before := Table(history[..|history| - 1]);
      match history[|history| - 1]
      case AddUser(u, p) => before[u := p]
      case RemoveAllUsers => map[]
  }

  /** Looking back from the end, the last call that says anything about a user. */
  ghost predicate LastPassword(history: seq<Change>, user: Bytes, password: Bytes) {
    exists i :: 0 <= i < |history| && history[i] == AddUser(user, password)
      && forall j :: i < j < |history| ==> !Concerns(history[j], user)
  }

  predicate Concerns(c: Change, user: Bytes) {
    c.RemoveAllUsers? || c.username == user
  }

  lemma {:induction false} TableIsLastPassword(history: seq<Change>, user: Bytes, password: Bytes)
    ensures (user in Table(history) && Table(history)[user] == password) <==> LastPassword(history, user, password)
    decreases |history|
  {
    if history != [] {
      var n := |history| - 1;
      var front, c := history[..n], history[n];
      if Concerns(c, user) {
        assert history[n] == AddUser(user, password) ==> LastPassword(history, user, password);
      } else {
        TableIsLastPassword(front, user, password);
        if LastPassword(front, user, password) {
          var i :| 0 <= i < n && front[i] == AddUser(user, password)
                   && forall j :: i < j < n ==> !Concerns(front[j], user);
          assert history[i] == AddUser(user, password);
          assert forall j :: i < j < n ==> history[j] == front[j];
        }
        if LastPassword(history, user, password) {
          var i :| 0 <= i < |history| && history[i] == AddUser(user, password)
                   && forall j :: i < j < |history| ==> !Concerns(history[j], user);
          assert front[i] == AddUser(user, password);
          assert forall j :: i < j < n ==> history[j] == front[j];
        }
      }
    }
  }

  /** What a client sends for a user and a password. */
  function Credentials(user: Bytes, password: Bytes): string {
    "Basic " + Encoded(user + [':' as int] + password)
  }

  /** After any history, the credentials of a user are accepted exactly when they
      carry the password last set for that user and not removed since. */
  lemma AcceptedIffLastPassword(history: seq<Change>, user: Bytes, password: Bytes)
    requires COLON !in user
    ensures Verdict(Table(history), Credentials(user, password)) == Ok <==> LastPassword(history, user, password)
    ensures Verdict(Table(history), Credentials(user, password)) != Error
  {
    var b := user + [COLON] + password;
    var value := Credentials(user, password);
    assert value[..6] == BASIC && value[6..] == Encoded(b);
    DecodeEncode(b);
    FindColonIn(user, password);
    assert b[..|user|] == user && b[|user| + 1..] == password;
    TableIsLastPassword(history, user, password);
  }

  /** A name with a colon in it cannot log in under that name: what comes after
      its first colon is taken as part of the password. */
  lemma ColonSplitsName(users: Users, user: Bytes, more: Bytes, password: Bytes)
    requires COLON !in user
    ensures Verdict(users, Credentials(user + [COLON] + more, password))
         == Verdict(users, Credentials(user, more + [COLON] + password))
  {
    assert user + [COLON] + more + [COLON] + password == user + [COLON] + (more + [COLON] + password);
  }

  /** A name without a colon, a colon, and a password. */
  ghost predicate Joins(b: Bytes, user: Bytes, password: Bytes) {
    ':' as int !in user && b == user + [':' as int] + password
  }

  /** "Basic " and the coding of a name, a colon and the password the table has for that
      name. */
  ghost predicate Carries(users: Users, value: string) {
    && |value| > 6 && value[..6] == "Basic " && Decoded(value[6..]).Some?
    && exists user, password ::
         Joins(Decoded(value[6..]).value, user, password) && user in users && users[user] == password
  }

  lemma AcceptedIff(users: Users, value: string)
    ensures Verdict(users, value) == Ok <==> Carries(users, value)
  {
    hide Decoded, FindColon;
    if |value| > 6 && value[..6] == "Basic " && Decoded(value[6..]).Some? {
      var b := Decoded(value[6..]).value;
      var k := FindColon(b);
      if Verdict(users, value) == Ok {
        assert b == b[..k] + [':' as int] + b[k + 1..];
        assert Joins(b, b[..k], b[k + 1..]);
      }
      forall user, password | Joins(b, user, password)
        ensures k == |user| && b[..k] == user && b[k + 1..] == password
      {
        FindColonIn(user, password);
      }
    }
  }
}
