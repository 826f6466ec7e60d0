/** Clients of Server that chain handlers, stating what a sequence of
    requests must answer when the external calls succeed. */
module Scenarios {
  import opened Types
  import opened Hashing
  import opened ChatLog
  import opened Service

  /** A second signup for a name that the first one registered is a conflict,
      provided the second password passes validation and hashing. */
  method SignUpTwice(s: Server, req: LoginRequest, password2: Password) returns (first: int, second: int)
    requires s.Valid()
    requires |password2| > 2 && s.hasher.generate(password2).Some?
    modifies s
    ensures s.Valid()
    ensures first == StatusCreated ==> second == StatusConflict
    ensures first == StatusCreated ==> s.hasher.generate(req.password).Some? && s.users == old(s.users)[req.username := s.hasher.generate(req.password).value]
  {
    first := s.SignUp(req, AllOk);
    second := s.SignUp(LoginRequest(req.username, password2), AllOk);
  }

  /** Logging in with the password just registered succeeds and binds the token to the name. */
  method SignUpThenLogIn(s: Server, req: LoginRequest, token: Token) returns (signedUp: int, loggedIn: int)
    requires s.Valid()
    modifies s
    ensures s.Valid()
    ensures signedUp == StatusCreated ==> loggedIn == StatusOK && s.sessions == old(s.sessions)[token := req.username]
  {
    signedUp := s.SignUp(req, AllOk);
    loggedIn := s.LogIn(token, req, AllOk);
  }

  /** After a logout every gated route refuses the token with 403. */
  method LogOutThenGated(s: Server, token: Token, req: ChatRequest) returns (who: int, post: int)
    requires s.Valid()
    modifies s
    ensures s.Valid()
    ensures who == StatusForbidden && post == StatusForbidden
    ensures s.chat == old(s.chat)
  {
    var _ := s.LogOut(token, AllOk);
    var name;
    who, name := s.WhoAmI(token, AllOk);
    post := s.PostChat(token, req, AllOk);
  }

  /** Two posts in a row get the two ids that follow the largest id so far. */
  method PostTwice(s: Server, token: Token, a: ChatRequest, b: ChatRequest) returns (first: int, second: int)
    requires s.Valid()
    modifies s
    ensures s.Valid()
    ensures first == StatusOK && second == StatusOK ==>
      |s.chat| == |old(s.chat)| + 2 &&
      s.chat[|s.chat| - 2].id == MaxId(old(s.chat)) + 1 &&
      s.chat[|s.chat| - 1].id == MaxId(old(s.chat)) + 2
  {
    first := s.PostChat(token, a, AllOk);
    second := s.PostChat(token, b, AllOk);
  }

  const Alice: Name := [0x61, 0x6c, 0x69, 0x63, 0x65]
  const Secret1: Password := [0x73, 0x65, 0x63, 0x72, 0x65, 0x74, 0x31]
  const Hello: Bytes := [0x68, 0x65, 0x6c, 0x6c, 0x6f]

  /** signup "alice"/"secret1", login, whoami, post "hello", logout, whoami,
      on a fresh service: the first post gets id 1 and the last whoami is refused. */
  method EndToEnd(hasher: Hasher, token: Token, time: Bytes) returns (codes: seq<int>, me: Option<Name>, log: seq<Message>)
    requires Sound(hasher)
    requires hasher.generate(Secret1).Some?
    ensures codes == [StatusCreated, StatusOK, StatusOK, StatusOK, StatusOK, StatusForbidden]
    ensures me == Some(Alice)
    ensures log == [Message(1, Alice, Hello, time)]
  {
    var s := new Server(hasher);
    var c1 := s.SignUp(LoginRequest(Alice, Secret1), AllOk);
    var c2 := s.LogIn(token, LoginRequest(Alice, Secret1), AllOk);
    var c3, who := s.WhoAmI(token, AllOk);
    var c4 := s.PostChat(token, ChatRequest(Hello, time), AllOk);
    var c5 := s.LogOut(token, AllOk);
    var c6, after := s.WhoAmI(token, AllOk);
    codes, me, log := [c1, c2, c3, c4, c5, c6], who, s.chat;
  }
}
