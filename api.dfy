/**
  The four routes of the API over an in-memory account collection. The
  class `Users` stands for the User collection: a map from account id to
  account, plus the next fresh id. Password hashing and comparison, token
  signing and verification, and the call to the inference API are
  parameters of the handlers.
 */
module Api {
  import opened Wrappers
  import opened Json
  import opened Text
  import opened Sentiment
  import opened Auth

  /** A password digest as produced by the hashing library. */
  type Digest = string

  /** The random salt the hashing library draws for one digest. */
  type Salt = nat

  /** One stored analysis: the submitted text, its label and the classifier's score. */
  datatype Record = Record(text: string, sentiment: Label, confidence: Option<Value>)

  /** A stored account. */
  datatype Account = Account(username: string, password: Digest, analyses: seq<Record>)

  /** Every reply the routes send, each with its own message. */
  datatype Response =
    | Registered                   // 201 "User registered successfully"
    | UsernameExists               // 400 "Username already exists"
    | LoggedIn(token: string)      // 200 { token }
    | InvalidCredentials           // 401 "Invalid credentials"
    | AuthenticationRequired       // 401 "Authentication required"
    | InvalidOrExpiredToken        // 403 "Invalid or expired token"
    | TextRequired                 // 400 "Text is required"
    | AnalysisFailed               // 500 "Error analyzing sentiment: ..."
    | UserNotFound                 // 404 "User not found"
    | Analysis(sentiment: Label, confidence: Option<Value>)  // 200 { sentiment, confidence }
    | Analyses(analyses: seq<Record>)                        // 200 [ ...analyses ]
    | Unhandled                    // the handler threw outside its try block: no reply is sent by the route
  {
    /**
      The HTTP status code of the reply: a 2xx code exactly for the replies
      that report success, 401 for both a refused login and a missing token.
     */
    function Status(): (code: nat)
      requires !Unhandled?
      ensures code in {200, 201, 400, 401, 403, 404, 500}
      ensures code < 300 <==> Registered? || LoggedIn? || Analysis? || Analyses?
      ensures code == 401 <==> InvalidCredentials? || AuthenticationRequired?
      ensures code == 400 <==> UsernameExists? || TextRequired?
      ensures code == 200 <==> LoggedIn? || Analysis? || Analyses?
      ensures code == 201 <==> Registered?
      ensures code == 403 <==> InvalidOrExpiredToken?
      ensures code == 404 <==> UserNotFound?
      ensures code == 500 <==> AnalysisFailed?
    {
      match this
      case Registered => 201
      case UsernameExists => 400
      case LoggedIn(_) => 200
      case InvalidCredentials => 401
      case AuthenticationRequired => 401
      case InvalidOrExpiredToken => 403
      case TextRequired => 400
      case AnalysisFailed => 500
      case UserNotFound => 404
      case Analysis(_, _) => 200
      case Analyses(_) => 200
    }
  }

  /** How `/analyze` reads the `text` field of the body (`None` when absent). */
  datatype TextCheck = Missing | NotAString | Accepted(text: string)

  /**
    `!text || text.trim().length === 0`: a missing, falsy or blank string is
    rejected; a truthy value that is not a string makes `trim` throw; any
    other string is accepted unchanged.
   */
  function CheckText(field: Option<Value>): (c: TextCheck)
    ensures c.Missing? <==> field.None? || !Truthy(field.value) || (field.value.Str? && AllWhitespace(field.value.s))
    ensures c.NotAString? <==> field.Some? && Truthy(field.value) && !field.value.Str?
    ensures c.Accepted? ==> field == Some(Str(c.text)) && c.text != [] && !AllWhitespace(c.text)
  {
    if field.None? || !Truthy(field.value) then Missing
    else if !field.value.Str? then NotAString
    else if |Trim(field.value.s)| == 0 then Missing
    else Accepted(field.value.s)
  }

  /** Some account already has this username. */
  predicate Taken(accounts: map<UserId, Account>, username: string)
  {
    exists id :: id in accounts && accounts[id].username == username
  }

  /** No two accounts share a username. */
  ghost predicate UniqueUsernames(accounts: map<UserId, Account>)
  {
    forall a, b :: a in accounts && b in accounts && accounts[a].username == accounts[b].username ==> a == b
  }

  class Users {
    var accounts: map<UserId, Account>
    var nextId: UserId

    /**
      Usernames are unique, every id in use is below the next fresh one, and
      no stored record has a blank text.
     */
    ghost predicate Valid()
      reads this
    {
      && (forall id :: id in accounts ==> id < nextId)
      && UniqueUsernames(accounts)
      && (forall id, i :: id in accounts && 0 <= i < |accounts[id].analyses| ==> !AllWhitespace(accounts[id].analyses[i].text))
    }

    constructor ()
      ensures Valid() && accounts == map[] && nextId == 0
    {
      accounts := map[];
      nextId := 0;
    }

    /** `User.findOne({ username })`. */
    method FindByUsername(username: string) returns (found: Option<UserId>)
      requires Valid()
      ensures found.None? <==> !Taken(accounts, username)
      ensures found.Some? ==> found.value in accounts && accounts[found.value].username == username
    {
      if Taken(accounts, username) {
        var id :| id in accounts && accounts[id].username == username;
        found := Some(id);
      } else {
        found := None;
      }
    }

    /**
      `POST /register`: a taken username is refused and nothing changes;
      otherwise exactly one account is added under a fresh id, holding the
      digest of the password (never the password) and an empty history.
     */
    method Register(username: string, password: string, salt: Salt, hash: (string, Salt) -> Digest)
      returns (resp: Response)
      requires Valid()
      modifies this
      ensures Valid()
      ensures !resp.Unhandled? && resp.Status() == if old(Taken(accounts, username)) then 400 else 201
      ensures old(Taken(accounts, username)) ==>
        resp == UsernameExists && accounts == old(accounts) && nextId == old(nextId)
      ensures !old(Taken(accounts, username)) ==>
        && resp == Registered
        && old(nextId) !in old(accounts)
        && accounts == old(accounts)[old(nextId) := Account(username, hash(password, salt), [])]
        && nextId == old(nextId) + 1
    {
      var existing := FindByUsername(username);
      if existing.Some? {
        return UsernameExists;
      }
      var digest := hash(password, salt);
      accounts := accounts[nextId := Account(username, digest, [])];
      nextId := nextId + 1;
      resp := Registered;
    }

    /**
      `POST /login`: the token is signed for the account's id when the
      password matches its digest; an unknown username and a wrong
      password give the same `InvalidCredentials` reply.
     */
    method Login(username: string, password: string, matches: (string, Digest) -> bool, sign: UserId -> string)
      returns (resp: Response)
      requires Valid()
      ensures !Taken(accounts, username) ==> resp == InvalidCredentials
      ensures forall id :: id in accounts && accounts[id].username == username ==>
        resp == (if matches(password, accounts[id].password) then LoggedIn(sign(id)) else InvalidCredentials)
    {
      var found := FindByUsername(username);
      if found.None? || !matches(password, accounts[found.value].password) {
        return InvalidCredentials;
      }
      resp := LoggedIn(sign(found.value));
    }

    /**
      `POST /analyze`, behind the gate. In order: the gate (401, 403), the
      text check (400), the classifier reply (500), the account lookup
      (404); only when all pass is one record appended to the end of the
      caller's history, and the reply carries its label and score.
     */
    method Analyze(authorization: Option<string>, text: Option<Value>,
                   verify: string -> Option<UserId>, classify: string -> Upstream)
      returns (resp: Response)
      requires Valid()
      modifies this
      ensures Valid()
      ensures Authenticate(authorization, verify).NoToken? ==> resp == AuthenticationRequired
      ensures Authenticate(authorization, verify).BadToken? ==> resp == InvalidOrExpiredToken
      ensures Authenticate(authorization, verify).Admitted? ==>
        match CheckText(text)
        case Missing => resp == TextRequired
        case NotAString => resp == Unhandled
        case Accepted(t) =>
          match ReadReply(classify(t))
          case Malformed => resp == AnalysisFailed
          case Top(sentiment, score) =>
            resp == if Authenticate(authorization, verify).id in old(accounts) then Analysis(sentiment, score) else UserNotFound
      ensures !resp.Analysis? ==> accounts == old(accounts) && nextId == old(nextId)
      ensures resp.Analysis? ==>
        && Authenticate(authorization, verify).Admitted?
        && CheckText(text).Accepted?
        && var id := Authenticate(authorization, verify).id;
           var record := Record(CheckText(text).text, resp.sentiment, resp.confidence);
           && id in old(accounts)
           && accounts == old(accounts)[id := old(accounts)[id].(analyses := old(accounts)[id].analyses + [record])]
           && nextId == old(nextId)
    {
      var gate := Authenticate(authorization, verify);
      if gate.NoToken? {
        return AuthenticationRequired;
      }
      if gate.BadToken? {
        return InvalidOrExpiredToken;
      }
      var check := CheckText(text);
      if check.Missing? {
        return TextRequired;
      }
      if check.NotAString? {
        return Unhandled;
      }
      var verdict := ReadReply(classify(check.text));
      if verdict.Malformed? {
        return AnalysisFailed;
      }
      if gate.id !in accounts {
        return UserNotFound;
      }
      var account := accounts[gate.id];
      var record := Record(check.text, verdict.sentiment, verdict.score);
      accounts := accounts[gate.id := account.(analyses := account.analyses + [record])];
      resp := Analysis(verdict.sentiment, verdict.score);
    }

    /** `GET /history`, behind the gate: the caller's records in the order they were appended. */
    method History(authorization: Option<string>, verify: string -> Option<UserId>) returns (resp: Response)
      ensures Authenticate(authorization, verify).NoToken? ==> resp == AuthenticationRequired
      ensures Authenticate(authorization, verify).BadToken? ==> resp == InvalidOrExpiredToken
      ensures Authenticate(authorization, verify).Admitted? ==>
        var id := Authenticate(authorization, verify).id;
        resp == if id in accounts then Analyses(accounts[id].analyses) else UserNotFound
    {
      var gate := Authenticate(authorization, verify);
      if gate.NoToken? {
        return AuthenticationRequired;
      }
      if gate.BadToken? {
        return InvalidOrExpiredToken;
      }
      if gate.id !in accounts {
        return UserNotFound;
      }
      resp := Analyses(accounts[gate.id].analyses);
    }
  }

  /**
    The first half of a client session: "alice" registers, a second
    registration under that name is refused, and she logs in.
   */
  method SignUp(salt: Salt, hash: (string, Salt) -> Digest, matches: (string, Digest) -> bool, sign: UserId -> string)
    returns (users: Users, registered: Response, again: Response, login: Response)
    requires matches("pw1", hash("pw1", salt))
    ensures fresh(users) && users.Valid()
    ensures users.accounts == map[0 := Account("alice", hash("pw1", salt), [])]
    ensures registered == Registered && again == UsernameExists && login == LoggedIn(sign(0))
  {
    users := new Users();
    registered := users.Register("alice", "pw1", salt, hash);
    assert users.accounts == map[0 := Account("alice", hash("pw1", salt), [])];
    again := users.Register("alice", "pw2", salt, hash);
    login := users.Login("alice", "pw1", matches, sign);
  }

  /**
    The second half of a client session: the signed-in account submits two
    accepted texts, each classified with a well-formed reply, and reads back
    both records in the order it submitted them.
   */
  method Submit(users: Users, header: Option<string>, verify: string -> Option<UserId>,
                t1: string, c1: string -> Upstream, t2: string, c2: string -> Upstream)
    returns (first: Response, second: Response, history: Response)
    requires users.Valid() && 0 in users.accounts && users.accounts[0].analyses == []
    requires Authenticate(header, verify) == Admitted(0)
    requires CheckText(Some(Str(t1))) == Accepted(t1) && ReadReply(c1(t1)).Top?
    requires CheckText(Some(Str(t2))) == Accepted(t2) && ReadReply(c2(t2)).Top?
    modifies users
    ensures first == Analysis(ReadReply(c1(t1)).sentiment, ReadReply(c1(t1)).score)
    ensures second == Analysis(ReadReply(c2(t2)).sentiment, ReadReply(c2(t2)).score)
    ensures history == Analyses([Record(t1, first.sentiment, first.confidence), Record(t2, second.sentiment, second.confidence)])
  {
    first := users.Analyze(header, Some(Str(t1)), verify, c1);
    ghost var r1 := Record(t1, first.sentiment, first.confidence);
    assert users.accounts[0].analyses == [r1];
    ghost var after := users.accounts;
    second := users.Analyze(header, Some(Str(t2)), verify, c2);
    ghost var r2 := Record(t2, second.sentiment, second.confidence);
    assert users.accounts == after[0 := after[0].(analyses := after[0].analyses + [r2])];
    assert users.accounts[0].analyses == [r1, r2];
    history := users.History(header, verify);
  }

  /**
    A whole client session, relying only on the handlers' contracts and on
    three facts about the libraries: the digest matches its password, the
    token verifies as the id it was signed for, and a token is one word.
   */
  method Session(salt: Salt, hash: (string, Salt) -> Digest, matches: (string, Digest) -> bool,
                 sign: UserId -> string, verify: string -> Option<UserId>)
    returns (registered: Response, again: Response, login: Response,
             first: Response, second: Response, history: Response)
    requires matches("pw1", hash("pw1", salt))
    requires verify(sign(0)) == Some(0) && sign(0) != "" && ' ' !in sign(0)
    ensures registered == Registered && again == UsernameExists && login == LoggedIn(sign(0))
    ensures first == Analysis(Positive, Some(Num(0.91))) && second == Analysis(Neutral, Some(Num(0.5)))
    ensures history == Analyses([Record("I love this", Positive, Some(Num(0.91))),
                                 Record("It is fine", Neutral, Some(Num(0.5)))])
  {
    var users;
    users, registered, again, login := SignUp(salt, hash, matches, sign);
    IssuedTokenAdmits(0, sign, verify);
    var love, fine := "I love this", "It is fine";
    assert CheckText(Some(Str(love))) == Accepted(love) by { assert !IsWhitespace(love[0]); }
    assert CheckText(Some(Str(fine))) == Accepted(fine) by { assert !IsWhitespace(fine[0]); }
    var positive := (t: string) => ScoredReply("LABEL_2", Num(0.91), [], []);
    var neutral := (t: string) => ScoredReply("LABEL_1", Num(0.5), [], []);
    ReadScoredReply("LABEL_2", Num(0.91), [], []);
    ReadScoredReply("LABEL_1", Num(0.5), [], []);
    first, second, history := Submit(users, Some("Bearer " + sign(0)), verify, love, positive, fine, neutral);
  }
}
