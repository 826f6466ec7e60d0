/** The request handlers of main.go as methods of one Server object that
    holds, in memory, the `users` table, the cookie session store and the
    `chat` table. Requests are served one at a time: the id of a chat post
    is unique only because no other post runs between its read of the
    largest id and its insert (main.go:217-218). */
module Service {
  import opened Types
  import opened Hashing
  import opened Validation
  import opened ChatLog

  /** The "userName" value a session holds; None is Go's nil. */
  function Lookup(sessions: map<Token, Name>, token: Token): Option<Name>
  {
    if token in sessions then Some(sessions[token]) else None
  }

  /** Every registered name got past the signup length check. */
  ghost predicate NamesRegistrable(users: map<Name, Digest>)
  {
    forall u :: u in users ==> |u| > 2
  }

  /** Every session either holds the logout sentinel or a registered name. */
  ghost predicate SessionsConsistent(users: map<Name, Digest>, sessions: map<Token, Name>)
  {
    forall t :: t in sessions ==> sessions[t] == LoggedOut || sessions[t] in users
  }

  /** The sentinel never collides with a registered name, so the gate admits
      a token exactly when its session holds a registered name. */
  lemma GateAdmitsExactlyRegistered(users: map<Name, Digest>, sessions: map<Token, Name>, token: Token)
    requires NamesRegistrable(users) && SessionsConsistent(users, sessions)
    ensures LoggedOut !in users
    ensures Admitted(Lookup(sessions, token)) <==> token in sessions && sessions[token] in users
  {
  }

  /** What checkLogin (main.go:162-177) decides: reject with a status, or
      run the wrapped handler with the session's name. */
  datatype GateResult = Reject(status: int) | Admit(name: Name)

  class Server {
    const hasher: Hasher
    var users: map<Name, Digest>
    var sessions: map<Token, Name>
    var chat: seq<Message>

    /** The invariant every handler keeps. */
    ghost predicate Valid()
      reads this
    {
      && Sound(hasher)
      && NamesRegistrable(users)
      && SessionsConsistent(users, sessions)
      && Dense(chat)
    }

    /** A service started on empty tables and an empty session store. */
    constructor (hasher: Hasher)
      requires Sound(hasher)
      ensures Valid()
      ensures this.hasher == hasher
      ensures users == map[] && sessions == map[] && chat == []
    {
      this.hasher := hasher;
      users := map[];
      sessions := map[];
      chat := [];
    }

    /** postSignUpHandler (main.go:96-130). */
    method SignUp(req: LoginRequest, env: Env) returns (status: int)
      requires Valid()
      modifies this
      ensures Valid()
      ensures sessions == old(sessions) && chat == old(chat)
      ensures status in {StatusCreated, StatusBadRequest, StatusConflict, StatusInternalServerError}
      ensures status == StatusBadRequest <==> !SignUpFieldsValid(req)
      ensures status == StatusConflict <==>
        SignUpFieldsValid(req) && hasher.generate(req.password).Some? && env.queryOk && req.username in old(users)
      ensures status == StatusCreated <==>
        SignUpFieldsValid(req) && hasher.generate(req.password).Some? && env.queryOk && req.username !in old(users) && env.execOk
      ensures status == StatusCreated ==> users == old(users)[req.username := hasher.generate(req.password).value]
      ensures status != StatusCreated ==> users == old(users)
    {
      if HasEmptyField(req) {
        return StatusBadRequest;
      }
      if HasShortField(req) {
        return StatusBadRequest;
      }
      var hashed := hasher.generate(req.password);
      if hashed.None? {
        return StatusInternalServerError;
      }
      if !env.queryOk {
        return StatusInternalServerError;
      }
      var count := if req.username in users then 1 else 0;
      if count > 0 {
        return StatusConflict;
      }
      if !env.execOk {
        return StatusInternalServerError;
      }
      users := users[req.username := hashed.value];
      return StatusCreated;
    }

    /** postLoginHandler (main.go:132-160). An unknown name is the
        sql.ErrNoRows of db.Get, answered like any other database error. */
    method LogIn(token: Token, req: LoginRequest, env: Env) returns (status: int)
      requires Valid()
      modifies this
      ensures Valid()
      ensures users == old(users) && chat == old(chat)
      ensures status in {StatusOK, StatusForbidden, StatusInternalServerError}
      ensures status == StatusOK <==>
        env.queryOk && req.username in users && hasher.compare(users[req.username], req.password) == Match && env.sessionOk
      ensures status == StatusForbidden <==>
        env.queryOk && req.username in users && hasher.compare(users[req.username], req.password) == Mismatch
      ensures sessions == if status == StatusOK && env.saveOk then old(sessions)[token := req.username] else old(sessions)
    {
      if !env.queryOk || req.username !in users {
        return StatusInternalServerError;
      }
      var stored := users[req.username];
      match hasher.compare(stored, req.password)
      case Mismatch =>
        return StatusForbidden;
      case Malformed =>
        return StatusInternalServerError;
      case Match =>
      if !env.sessionOk {
        return StatusInternalServerError;
      }
      if env.saveOk {
        sessions := sessions[token := req.username];
      }
      return StatusOK;
    }

    /** checkLogin (main.go:162-177): a session value that is nil or "a" is refused. */
    method Gate(token: Token, env: Env) returns (g: GateResult)
      requires Valid()
      ensures g.Admit? <==> env.sessionOk && token in sessions && sessions[token] in users
      ensures g.Admit? ==> g.name == sessions[token] && g.name != LoggedOut
      ensures g.Reject? ==> g.status == if env.sessionOk then StatusForbidden else StatusInternalServerError
    {
      if !env.sessionOk {
        return Reject(StatusInternalServerError);
      }
      var v := Lookup(sessions, token);
      GateAdmitsExactlyRegistered(users, sessions, token);
      if !Admitted(v) {
        return Reject(StatusForbidden);
      }
      return Admit(v.value);
    }

    /** The /whoami route: checkLogin wrapped around getWhoAmIHandler (main.go:61, 191-199). */
    method WhoAmI(token: Token, env: Env) returns (status: int, name: Option<Name>)
      requires Valid()
      ensures status == StatusOK <==> env.sessionOk && token in sessions && sessions[token] in users
      ensures status == StatusOK ==> name == Some(sessions[token])
      ensures status != StatusOK ==> name.None? && status == if env.sessionOk then StatusForbidden else StatusInternalServerError
    {
      var g := Gate(token, env);
      if g.Reject? {
        return g.status, None;
      }
      var reply := WhoAmIHandler(Lookup(sessions, token));
      return StatusOK, Some(reply.username);
    }

    /** postLogoutHandler (main.go:200-207): writes the sentinel whatever the session held. */
    method LogOut(token: Token, env: Env) returns (status: int)
      requires Valid()
      modifies this
      ensures Valid()
      ensures status == StatusOK
      ensures users == old(users) && chat == old(chat)
      ensures sessions == if env.saveOk then old(sessions)[token := LoggedOut] else old(sessions)
    {
      if env.saveOk {
        sessions := sessions[token := LoggedOut];
      }
      return StatusOK;
    }

    /** The chat-post route: checkLogin wrapped around postChatHandler
        (main.go:59, 208-223). A failed max-id query answers 500 here; the
        handler as written goes on with id 0 (see ChatLog.IdAsWritten). */
    method PostChat(token: Token, req: ChatRequest, env: Env) returns (status: int)
      requires Valid()
      modifies this
      ensures Valid()
      ensures users == old(users) && sessions == old(sessions)
      ensures status in {StatusOK, StatusBadRequest, StatusForbidden, StatusInternalServerError}
      ensures status == StatusForbidden <==> env.sessionOk && !(token in sessions && sessions[token] in users)
      ensures status == StatusBadRequest <==>
        env.sessionOk && token in sessions && sessions[token] in users && !ContentsValid(req.contents)
      ensures status == StatusOK <==>
        env.sessionOk && token in sessions && sessions[token] in users && ContentsValid(req.contents) && env.queryOk && env.execOk
      ensures status == StatusOK ==>
        NextId(old(chat)) == MaxId(old(chat)) + 1 == |old(chat)| + 1 &&
        chat == old(chat) + [Message(NextId(old(chat)), sessions[token], req.contents, req.time)]
      ensures status != StatusOK ==> chat == old(chat)
    {
      var g := Gate(token, env);
      if g.Reject? {
        return g.status;
      }
      if !ContentsValid(req.contents) {
        return StatusBadRequest;
      }
      if !env.queryOk {
        return StatusInternalServerError;
      }
      var id := MaxId(chat);
      var row := Message(id + 1, g.name, req.contents, req.time);
      if !env.execOk {
        return StatusInternalServerError;
      }
      DenseAppend(chat, row);
      chat := chat + [row];
      return StatusOK;
    }
  }
}
