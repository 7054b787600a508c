/**
 * Registration, credential login and e-mail verification. The password hash, the random
 * verification token, the clock, the e-mail syntax check and the mail transport are parameters.
 */
module AuthRouter {
  import opened Wrappers
  import opened Api
  import opened Timestamps
  import opened Schema

  const EmailInUse := Trpc(Conflict, "Un compte avec cet email existe déjà")
  const BadCredentials := Trpc(Unauthorized, "Email ou mot de passe incorrect")
  const EmailNotVerified := Trpc(Forbidden, "Veuillez vérifier votre email avant de vous connecter")
  const InvalidToken := Trpc(BadRequest, "Token invalide")
  const ExpiredToken := Trpc(BadRequest, "Token expiré")
  const UserNotFound := Trpc(NotFound, "Utilisateur non trouvé")
  const AlreadyVerified := Trpc(BadRequest, "Email déjà vérifié")

  const Registered := "Compte créé ! Vérifiez votre email pour l'activer."
  const Verified := "Email vérifié avec succès !"
  const Resent := "Email de vérification renvoyé !"

  /** The minimum password length of the registration schema. */
  const MinPasswordLength := 6

  /**
   * The registration schema: a well-formed address (`emailValid`), a password of at least six
   * characters, and a name that, when given, is not empty.
   */
  predicate RegisterInputValid(emailValid: bool, password: string, name: Option<string>)
  {
    emailValid && |password| >= MinPasswordLength && (name.Some? ==> |name.value| >= 1)
  }

  /** The expiry a fresh verification token gets: 24 hours from now. */
  function TokenExpiry(now: int): (r: int)
    ensures r - now == 24 * 60 * 60 * 1000
  {
    now + VerificationTokenLifetime
  }

  /**
   * `register`. `hash` is the bcrypt hash of `password`, `token` the random verification token,
   * `mailDelivered` whether the verification mail was accepted by the transport.
   */
  method Register(users: UserTable, email: string, password: string, name: Option<string>, emailValid: bool,
                  hash: string, token: string, now: int, mailDelivered: bool)
    returns (r: Result<string, Error>)
    requires users.Valid()
    modifies users
    ensures users.Valid()
    ensures !RegisterInputValid(emailValid, password, name) ==> r == Failure(InvalidInput)
    ensures RegisterInputValid(emailValid, password, name) && old(users.EmailTaken(email)) ==> r == Failure(EmailInUse)
    ensures RegisterInputValid(emailValid, password, name) && !old(users.EmailTaken(email)) && old(users.TokenTaken(token)) ==>
              r == Failure(UniqueViolation)
    // the row is written exactly when the input is valid and both unique columns are free
    ensures if RegisterInputValid(emailValid, password, name) && !old(users.EmailTaken(email)) && !old(users.TokenTaken(token))
            then
              && old(users.nextId) !in old(users.rows)
              && users.rows == old(users.rows)[old(users.nextId) :=
                   User(old(users.nextId), email, name, Some(hash), None, Some(token), Some(TokenExpiry(now)),
                        None, None, None, None)]
              && r == (if mailDelivered then Success(Registered) else Failure(MailFailure))
            else users.rows == old(users.rows) && r.Failure?
  {
    if !RegisterInputValid(emailValid, password, name) {
      return Failure(InvalidInput);
    }
    var existing := users.FindByEmail(email);
    if existing.Some? {
      return Failure(EmailInUse);
    }
    if users.TokenTaken(token) {
      return Failure(UniqueViolation);
    }
    var id := users.nextId;
    var user := User(id, email, name, Some(hash), None, Some(token), Some(TokenExpiry(now)), None, None, None, None);
    users.rows := users.rows[id := user];
    users.nextId := id + 1;
    if !mailDelivered {
      // the row stays; the caller sees the transport's error
      return Failure(MailFailure);
    }
    r := Success(Registered);
  }

  /** The user fields `login` returns. */
  datatype LoginUser = LoginUser(id: UserId, email: string, name: Option<string>, emailVerified: int)

  /**
   * `login`. `passwordMatches` is bcrypt's comparison of the given password with the stored
   * hash. An unknown address, a row without password and a wrong password give the same
   * error; an unverified address is reported only to a caller who knows the password.
   */
  method Login(users: UserTable, email: string, emailValid: bool, passwordMatches: bool)
    returns (r: Result<LoginUser, Error>)
    requires users.Valid()
    ensures !emailValid ==> r == Failure(InvalidInput)
    ensures emailValid && !users.EmailTaken(email) ==> r == Failure(BadCredentials)
    ensures emailValid && users.EmailTaken(email) ==>
              exists u :: u in users.rows && users.rows[u].email == email &&
                          var user := users.rows[u];
                          && (!Truthy(user.password) || !passwordMatches ==> r == Failure(BadCredentials))
                          && (Truthy(user.password) && passwordMatches && user.emailVerified.None? ==> r == Failure(EmailNotVerified))
                          && (Truthy(user.password) && passwordMatches && user.emailVerified.Some? ==>
                                r == Success(LoginUser(u, email, user.name, user.emailVerified.value)))
    ensures r.Success? ==> r.value.id in users.rows && users.rows[r.value.id].email == email
    ensures r == Failure(EmailNotVerified) ==> passwordMatches
  {
    if !emailValid {
      return Failure(InvalidInput);
    }
    var found := users.FindByEmail(email);
    if found.None? {
      return Failure(BadCredentials);
    }
    var user := users.rows[found.value];
    if !Truthy(user.password) {
      return Failure(BadCredentials);
    }
    if !passwordMatches {
      return Failure(BadCredentials);
    }
    if user.emailVerified.None? {
      return Failure(EmailNotVerified);
    }
    r := Success(LoginUser(found.value, user.email, user.name, user.emailVerified.value));
  }

  /** A token that has no expiry or whose expiry is before now is expired; one expiring now is not. */
  predicate Expired(expiry: Option<int>, now: int)
  {
    expiry.None? || expiry.value < now
  }

  /**
   * `verifyEmail`: the row holding the token is marked verified now and loses its token, so a
   * token verifies at most once.
   */
  method VerifyEmail(users: UserTable, token: string, now: int) returns (r: Result<string, Error>)
    requires users.Valid()
    modifies users
    ensures users.Valid()
    ensures users.nextId == old(users.nextId) && users.rows.Keys == old(users.rows.Keys)
    ensures !old(users.TokenTaken(token)) ==> r == Failure(InvalidToken) && users.rows == old(users.rows)
    ensures old(users.TokenTaken(token)) ==>
              exists u :: u in old(users.rows) && old(users.rows)[u].emailToken == Some(token) &&
                          var user := old(users.rows)[u];
                          && (Expired(user.emailTokenExpiry, now) ==> r == Failure(ExpiredToken) && users.rows == old(users.rows))
                          && (!Expired(user.emailTokenExpiry, now) ==>
                                && r == Success(Verified)
                                && users.rows == old(users.rows)[u := user.(emailVerified := Some(now), emailToken := None,
                                                                           emailTokenExpiry := None)])
    ensures r.Success? ==> !users.TokenTaken(token)
  {
    var found := users.FindByToken(token);
    if found.None? {
      return Failure(InvalidToken);
    }
    var u := found.value;
    var user := users.rows[u];
    if Expired(user.emailTokenExpiry, now) {
      return Failure(ExpiredToken);
    }
    users.rows := users.rows[u := user.(emailVerified := Some(now), emailToken := None, emailTokenExpiry := None)];
    r := Success(Verified);
  }

  /**
   * `resendVerification`: an unverified user gets a new token and expiry, replacing the old
   * ones; nothing else of the row changes.
   */
  method ResendVerification(users: UserTable, email: string, emailValid: bool, token: string, now: int,
                            mailDelivered: bool)
    returns (r: Result<string, Error>)
    requires users.Valid()
    modifies users
    ensures users.Valid()
    ensures users.nextId == old(users.nextId) && users.rows.Keys == old(users.rows.Keys)
    ensures !emailValid ==> r == Failure(InvalidInput) && users.rows == old(users.rows)
    ensures emailValid && !old(users.EmailTaken(email)) ==> r == Failure(UserNotFound) && users.rows == old(users.rows)
    ensures emailValid && old(users.EmailTaken(email)) ==>
              exists u :: u in old(users.rows) && old(users.rows)[u].email == email &&
                          var user := old(users.rows)[u];
                          && (user.emailVerified.Some? ==> r == Failure(AlreadyVerified) && users.rows == old(users.rows))
                          && (user.emailVerified.None? && old(users.TokenTaken(token)) && user.emailToken != Some(token) ==>
                                r == Failure(UniqueViolation) && users.rows == old(users.rows))
                          && (user.emailVerified.None? && (!old(users.TokenTaken(token)) || user.emailToken == Some(token)) ==>
                                && users.rows == old(users.rows)[u := user.(emailToken := Some(token),
                                                                           emailTokenExpiry := Some(TokenExpiry(now)))]
                                && r == (if mailDelivered then Success(Resent) else Failure(MailFailure)))
  {
    if !emailValid {
      return Failure(InvalidInput);
    }
    var found := users.FindByEmail(email);
    if found.None? {
      return Failure(UserNotFound);
    }
    var u := found.value;
    var user := users.rows[u];
    if user.emailVerified.Some? {
      return Failure(AlreadyVerified);
    }
    if users.TokenTaken(token) && user.emailToken != Some(token) {
      // another row holds the token: the unique column refuses the update
      return Failure(UniqueViolation);
    }
    users.rows := users.rows[u := user.(emailToken := Some(token), emailTokenExpiry := Some(TokenExpiry(now)))];
    if !mailDelivered {
      return Failure(MailFailure);
    }
    r := Success(Resent);
  }
}
