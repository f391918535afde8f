/**
 * The user registry and the stats-updating interaction route of the Express server
 * (server/index.js). The users collection is the `users` field; `_id` is the position
 * of the user in it. Password hashing, hash comparison and token verification are
 * function parameters; a signed token is represented by the claims it carries.
 * The User schema (server/models/User.js) is not part of this model: a new user is
 * assumed to start with no interactions, `solvedProblems = 0` and `accuracy = 0`.
 */
module Server {
  import opened Common

  /** One entry of `user.interactions`. */
  datatype HistoryEntry = HistoryEntry(problemId: string, correct: bool)

  datatype User = User(
    id: nat,
    name: string,
    email: string,
    password: string,
    avatar: string,
    interactions: seq<HistoryEntry>,
    solvedProblems: nat,
    accuracy: nat)

  /** What `jwt.sign({ id, email }, ...)` puts in a token. */
  datatype Claims = Claims(id: nat, email: string)

  datatype Body = Message(text: string) | SignedIn(token: Claims, user: User) | Logged(text: string, user: User)

  datatype Response = Response(status: nat, body: Body)

  const MissingSignupFields := Response(400, Message("Please provide all required fields."))
  const DuplicateEmail := Response(400, Message("User with this email already exists."))
  const MissingLoginFields := Response(400, Message("Please provide email and password."))
  const InvalidCredentials := Response(400, Message("Invalid credentials."))
  const NoToken := Response(401, Message("Authentication failed: No token provided."))
  const InvalidToken := Response(401, Message("Authentication failed: Invalid token."))
  const MissingInteractionFields := Response(400, Message("Missing problemId or correctness status."))
  const UserNotFound := Response(404, Message("User not found."))
  const LoggedMessage := "Interaction logged successfully"
  const AvatarPrefix := "https://api.pravatar.cc/150?u="

  /** JavaScript truthiness of an optional string field of a request body. */
  predicate Truthy(s: Option<string>) {
    s.Some? && s.value != ""
  }

  function CorrectCount(h: seq<HistoryEntry>): (n: nat)
    ensures n <= |h|
  {
    if h == [] then 0 else (if h[0].correct then 1 else 0) + CorrectCount(h[1..])
  }

  lemma {:induction false} CorrectCountAppend(a: seq<HistoryEntry>, b: seq<HistoryEntry>)
    ensures CorrectCount(a + b) == CorrectCount(a) + CorrectCount(b)
  {
    if a == [] {
      assert a + b == b;
    } else {
      assert (a + b)[1..] == a[1..] + b;
      CorrectCountAppend(a[1..], b);
    }
  }

  /** `Math.round(totalCorrect / interactions.length * 100)`, computed exactly. */
  function Accuracy(h: seq<HistoryEntry>): (r: nat)
    requires |h| > 0
    ensures r <= 100
    ensures CorrectCount(h) == |h| ==> r == 100
    ensures CorrectCount(h) == 0 ==> r == 0
  {
    RoundedPercent(CorrectCount(h), |h|)
  }

  /** The number of correct entries depends only on which entries the history holds. */
  lemma {:induction false} CorrectCountMultiset(h1: seq<HistoryEntry>, h2: seq<HistoryEntry>)
    requires multiset(h1) == multiset(h2)
    ensures CorrectCount(h1) == CorrectCount(h2)
    decreases |h1|
  {
    if h1 == [] {
      assert |multiset(h2)| == 0;
    } else {
      var x := h1[0];
      assert h1 == [x] + h1[1..];
      assert x in multiset(h2);
      var k :| 0 <= k < |h2| && h2[k] == x;
      var rest := h2[..k] + h2[k + 1..];
      assert h2 == h2[..k] + ([x] + h2[k + 1..]);
      assert multiset(rest) == multiset(h2) - multiset{x};
      assert multiset(rest) == multiset(h1[1..]);
      CorrectCountMultiset(h1[1..], rest);
      CorrectCountAppend(h2[..k], [x] + h2[k + 1..]);
      CorrectCountAppend([x], h2[k + 1..]);
      CorrectCountAppend(h2[..k], h2[k + 1..]);
      CorrectCountAppend([x], h1[1..]);
    }
  }

  /** Recomputing accuracy from the full history does not depend on the order of its entries. */
  lemma AccuracyOrderIndependent(h1: seq<HistoryEntry>, h2: seq<HistoryEntry>)
    requires |h1| > 0 && multiset(h1) == multiset(h2)
    ensures |h2| == |h1| && Accuracy(h1) == Accuracy(h2)
  {
    assert |multiset(h1)| == |multiset(h2)|;
    CorrectCountMultiset(h1, h2);
  }

  /** The stats of a user are the ones the interaction route recomputes from the history. */
  predicate StatsConsistent(u: User) {
    && u.solvedProblems == |u.interactions|
    && u.accuracy == (if u.interactions == [] then 0 else Accuracy(u.interactions))
  }

  /** The user the interaction route saves: the entry is appended and the stats recomputed. */
  function WithInteraction(u: User, problemId: string, correct: bool): (v: User)
    ensures v.interactions == u.interactions + [HistoryEntry(problemId, correct)]
    ensures v.solvedProblems == u.solvedProblems + 1
    ensures v.accuracy <= 100 && v.accuracy == Accuracy(v.interactions)
    ensures v.id == u.id && v.avatar == u.avatar && v.email == u.email && v.name == u.name && v.password == u.password
    ensures StatsConsistent(u) ==> StatsConsistent(v)
  {
    var h := u.interactions + [HistoryEntry(problemId, correct)];
    u.(interactions := h, solvedProblems := u.solvedProblems + 1, accuracy := Accuracy(h))
  }

  /** Position of the first user with this email (`User.findOne({ email })`). */
  function FindByEmail(users: seq<User>, email: string): (r: Option<nat>)
    ensures r.Some? ==> r.value < |users| && users[r.value].email == email
    ensures r.Some? ==> forall j :: 0 <= j < r.value ==> users[j].email != email
    ensures r.None? ==> forall j :: 0 <= j < |users| ==> users[j].email != email
  {
    if users == [] then None
    else if users[0].email == email then Some(0)
    else
      var r := FindByEmail(users[1..], email);
      if r.Some? then Some(r.value + 1) else None
  }

  /** Position of the first occurrence of `c` in `s`. */
  function IndexOfChar(s: string, c: char): (r: Option<nat>)
    ensures r.Some? ==> r.value < |s| && s[r.value] == c && c !in s[..r.value]
    ensures r.None? ==> c !in s
  {
    if s == [] then None
    else if s[0] == c then Some(0)
    else
      var r := IndexOfChar(s[1..], c);
      if r.Some? then
        assert s[..r.value + 1] == [s[0]] + s[1..][..r.value];
        Some(r.value + 1)
      else None
  }

  /** `t` is the second field of `h` split at spaces: it follows the first space and ends at the next one or at the end. */
  ghost predicate SecondField(h: string, t: string) {
    ' ' !in t && exists i :: SecondFieldAt(h, t, i)
  }

  ghost predicate SecondFieldAt(h: string, t: string, i: int) {
    0 <= i < |h| && h[i] == ' ' && ' ' !in h[..i]
    && (h[i + 1..] == t || (i + 1 + |t| < |h| && h[i + 1..i + 2 + |t|] == t + [' ']))
  }

  /** `req.headers.authorization?.split(' ')[1]`: absent when the header has no space. */
  function BearerToken(header: Option<string>): (r: Option<string>)
    ensures r.None? <==> header.None? || ' ' !in header.value
    ensures r.Some? ==> SecondField(header.value, r.value)
  {
    if header.None? then None
    else
      var h := header.value;
      match IndexOfChar(h, ' ')
      case None => None
      case Some(i) =>
        var rest := h[i + 1..];
        match IndexOfChar(rest, ' ')
        case None =>
          assert SecondFieldAt(h, rest, i);
          Some(rest)
        case Some(j) =>
          assert h[i + 1..i + 2 + j] == rest[..j] + [' '];
          assert SecondFieldAt(h, rest[..j], i);
          Some(rest[..j])
  }

  /**
   * `authMiddleware`: a missing or empty token is refused with 401 before any verification;
   * a token `verify` rejects is refused with 401; otherwise the handler runs with its claims.
   */
  function AuthMiddleware(authorization: Option<string>, verify: string -> Option<Claims>): (r: Result<Claims, Response>)
    ensures !Truthy(BearerToken(authorization)) ==> r == Err(NoToken)
    ensures Truthy(BearerToken(authorization)) && verify(BearerToken(authorization).value).None? ==> r == Err(InvalidToken)
    ensures r.Ok? <==> Truthy(BearerToken(authorization)) && verify(BearerToken(authorization).value).Some?
    ensures r.Ok? ==> Some(r.value) == verify(BearerToken(authorization).value)
    ensures r.Err? ==> r.error.status == 401
  {
    var token := BearerToken(authorization);
    if !Truthy(token) then Err(NoToken)
    else match verify(token.value)
      case None => Err(InvalidToken)
      case Some(claims) => Ok(claims)
  }

  class UserStore {
    var users: seq<User>

    ghost predicate Valid()
      reads this
    {
      && (forall i :: 0 <= i < |users| ==> users[i].id == i && StatsConsistent(users[i]))
      && (forall i, j :: 0 <= i < j < |users| ==> users[i].email != users[j].email)
    }

    constructor()
      ensures Valid() && users == []
    {
      users := [];
    }

    /**
     * `/api/signup`: a missing or empty name, email or password, or an email already
     * registered, is refused with 400 and creates no user; otherwise exactly one user is
     * added with the hashed password, and a token for it is returned with 201.
     */
    method Signup(name: Option<string>, email: Option<string>, password: Option<string>, hash: string -> string)
      returns (resp: Response)
      requires Valid()
      modifies this
      ensures Valid()
      ensures !(Truthy(name) && Truthy(email) && Truthy(password)) ==> resp == MissingSignupFields && users == old(users)
      ensures Truthy(name) && Truthy(email) && Truthy(password) && FindByEmail(old(users), email.value).Some? ==>
                resp == DuplicateEmail && users == old(users)
      ensures Truthy(name) && Truthy(email) && Truthy(password) && FindByEmail(old(users), email.value).None? ==>
                var u := User(|old(users)|, name.value, email.value, hash(password.value), AvatarPrefix + email.value, [], 0, 0);
                users == old(users) + [u] && resp == Response(201, SignedIn(Claims(u.id, u.email), u))
      ensures resp.status == 201 || resp.status == 400
    {
      if !(Truthy(name) && Truthy(email) && Truthy(password)) {
        return MissingSignupFields;
      }
      if FindByEmail(users, email.value).Some? {
        return DuplicateEmail;
      }
      var u := User(|users|, name.value, email.value, hash(password.value), AvatarPrefix + email.value, [], 0, 0);
      users := users + [u];
      resp := Response(201, SignedIn(Claims(u.id, u.email), u));
    }

    /**
     * `/api/login`: an unknown email and a wrong password give the very same response,
     * so the reply does not reveal which emails are registered.
     */
    method Login(email: Option<string>, password: Option<string>, compare: (string, string) -> bool)
      returns (resp: Response)
      ensures !(Truthy(email) && Truthy(password)) ==> resp == MissingLoginFields
      ensures Truthy(email) && Truthy(password) && FindByEmail(users, email.value).None? ==> resp == InvalidCredentials
      ensures Truthy(email) && Truthy(password) && FindByEmail(users, email.value).Some? ==>
                var u := users[FindByEmail(users, email.value).value];
                if compare(password.value, u.password) then resp == Response(200, SignedIn(Claims(u.id, u.email), u))
                else resp == InvalidCredentials
    {
      if !(Truthy(email) && Truthy(password)) {
        return MissingLoginFields;
      }
      var found := FindByEmail(users, email.value);
      if found.None? {
        return InvalidCredentials;
      }
      var u := users[found.value];
      if !compare(password.value, u.password) {
        return InvalidCredentials;
      }
      resp := Response(200, SignedIn(Claims(u.id, u.email), u));
    }

    /**
     * The `/api/user/interaction` handler: a missing `problemId` or `correct` gives 400 and an
     * unknown user 404, both without change; otherwise the entry is appended, `solvedProblems`
     * grows by one whatever `correct` is, and accuracy is recomputed from the whole history.
     */
    method LogInteraction(claims: Claims, problemId: Option<string>, correct: Option<bool>)
      returns (resp: Response)
      requires Valid()
      modifies this
      ensures Valid()
      ensures problemId.None? || correct.None? ==> resp == MissingInteractionFields && users == old(users)
      ensures problemId.Some? && correct.Some? && claims.id >= |old(users)| ==> resp == UserNotFound && users == old(users)
      ensures problemId.Some? && correct.Some? && claims.id < |old(users)| ==>
                var u := WithInteraction(old(users)[claims.id], problemId.value, correct.value);
                users == old(users)[claims.id := u] && resp == Response(200, Logged(LoggedMessage, u))
    {
      if problemId.None? || correct.None? {
        return MissingInteractionFields;
      }
      if claims.id >= |users| {
        return UserNotFound;
      }
      var u := WithInteraction(users[claims.id], problemId.value, correct.value);
      users := users[claims.id := u];
      resp := Response(200, Logged(LoggedMessage, u));
    }

    /** The route as mounted: the middleware runs first and a refused request changes nothing. */
    method PostInteraction(authorization: Option<string>, verify: string -> Option<Claims>,
                           problemId: Option<string>, correct: Option<bool>)
      returns (resp: Response)
      requires Valid()
      modifies this
      ensures Valid()
      ensures AuthMiddleware(authorization, verify).Err? ==>
                resp == AuthMiddleware(authorization, verify).error && resp.status == 401 && users == old(users)
      ensures !Truthy(BearerToken(authorization)) ==> resp == NoToken && users == old(users)
      ensures AuthMiddleware(authorization, verify).Ok? ==>
                var claims := AuthMiddleware(authorization, verify).value;
                if problemId.None? || correct.None? then resp == MissingInteractionFields && users == old(users)
                else if claims.id >= |old(users)| then resp == UserNotFound && users == old(users)
                else
                  var u := WithInteraction(old(users)[claims.id], problemId.value, correct.value);
                  users == old(users)[claims.id := u] && resp == Response(200, Logged(LoggedMessage, u))
    {
      var auth := AuthMiddleware(authorization, verify);
      if auth.Err? {
        return auth.error;
      }
      resp := LogInteraction(auth.value, problemId, correct);
    }
  }
}
