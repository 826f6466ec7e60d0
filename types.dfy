/** Values shared by every handler of the chat service: Go byte strings,
    the request bodies, the rows of the `users` and `chat` tables, the HTTP
    status codes the handlers answer with, and what the external
    collaborators (MySQL, the cookie session store) answer during one request. */
module Types {

  /** Go strings are byte strings and `len` counts bytes. */
  newtype byte = x: int | 0 <= x < 256

  type Bytes = seq<byte>

  /** A username, the identity stored in the session under "userName". */
  type Name = Bytes

  type Password = Bytes

  /** The HashedPass column of the `users` table. */
  type Digest = Bytes

  /** The opaque cookie value the session store resolves to one session. */
  type Token = Bytes

  datatype Option<T> = None | Some(value: T)

  /** The value main.go writes into "userName" on logout: the one-byte string "a". */
  const LoggedOut: Name := [0x61]

  const StatusOK := 200
  const StatusCreated := 201
  const StatusBadRequest := 400
  const StatusForbidden := 403
  const StatusConflict := 409
  const StatusInternalServerError := 500

  /** The LoginRequestBody record: the body of both /signup and /login. */
  datatype LoginRequest = LoginRequest(username: Name, password: Password)

  /** The Chat record: the body of a chat post. */
  datatype ChatRequest = ChatRequest(contents: Bytes, time: Bytes)

  /** One row of the `chat` table: the Thread record plus its ID column. */
  datatype Message = Message(id: nat, author: Name, contents: Bytes, time: Bytes)

  /** How the external calls of one request turn out.
      queryOk: the SELECT the handler issues returns without a driver error;
      execOk: the INSERT it issues succeeds;
      sessionOk: session.Get returns no error;
      saveOk: sess.Save persists the session. */
  datatype Env = Env(queryOk: bool, execOk: bool, sessionOk: bool, saveOk: bool)

  /** An Env in which every external call succeeds. */
  const AllOk := Env(true, true, true, true)
}
