/** Login against table `usuario`. */
module Auth {
  import opened Wrappers

  /** A row of table `usuario`, keyed by its unique login. */
  datatype Account = Account(id: int, name: string, passwordHash: string)

  /** What the session keeps after a successful login. */
  datatype Identity = Identity(user: int, name: string)

  datatype AuthError =
    | InvalidCredentials   // "Login ou senha inválidos."
    | LoginFailed          // "Erro durante o login: ..." (the hash check raised)

  /**
   * Looks the login up and, only for a known login, checks the password
   * against its stored hash. `checkPassword` stands for the password-hash
   * comparison: `Some(ok)` is its answer, `None` means it raised (a stored
   * hash it cannot read).
   */
  function Login(accounts: map<string, Account>, login: string, password: string,
                 checkPassword: (string, string) -> Option<bool>): (r: Result<Identity, AuthError>)
    ensures r.Ok? <==> login in accounts && checkPassword(password, accounts[login].passwordHash) == Some(true)
    ensures r.Ok? ==> r.value == Identity(accounts[login].id, accounts[login].name)
    ensures login !in accounts ==> r == Err(InvalidCredentials)
    ensures login in accounts && checkPassword(password, accounts[login].passwordHash) == Some(false) ==>
              r == Err(InvalidCredentials)
    ensures r == Err(LoginFailed) <==>
              login in accounts && checkPassword(password, accounts[login].passwordHash).None?
  {
    if login !in accounts then Err(InvalidCredentials)
    else
      match checkPassword(password, accounts[login].passwordHash)
      case None => Err(LoginFailed)
      case Some(ok) =>
        if ok then Ok(Identity(accounts[login].id, accounts[login].name))
        else Err(InvalidCredentials)
  }

  /**
   * No account enumeration while the hash check answers: a wrong password
   * for a known login fails exactly as an unknown login does, whatever the
   * passwords.
   */
  lemma WrongPasswordLooksUnknown(accounts: map<string, Account>, unknown: string, known: string,
                                  password1: string, password2: string,
                                  checkPassword: (string, string) -> Option<bool>)
    requires unknown !in accounts
    requires known in accounts && checkPassword(password2, accounts[known].passwordHash) == Some(false)
    ensures Login(accounts, unknown, password1, checkPassword) == Login(accounts, known, password2, checkPassword)
  {
  }
}
