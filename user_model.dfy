/** The User record of backend/models/user.py, with werkzeug's password
    hashing replaced by an abstract digest. */
module UserModel {

  /** An abstract salted password digest. The model keeps only what the
      service relies on: checking succeeds exactly for the password the
      digest was generated from. */
  datatype PasswordHash = Digest(source: string)

  /** `generate_password_hash`. */
  function GeneratePasswordHash(password: string): (h: PasswordHash)
    ensures forall other: string :: Digest(other) == h <==> other == password
  {
    Digest(password)
  }

  /** `check_password_hash`. */
  function CheckPasswordHash(h: PasswordHash, password: string): (ok: bool)
    ensures ok <==> h == GeneratePasswordHash(password)
  {
    h.source == password
  }

  datatype User = User(id: int, username: string, passwordHash: PasswordHash)

  /** The public view `to_dict` returns: `{id, username}`, no password data. */
  datatype UserView = UserView(id: int, username: string)

  function ToDict(u: User): (v: UserView)
    ensures v.id == u.id && v.username == u.username
  {
    UserView(u.id, u.username)
  }
}
