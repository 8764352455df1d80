/**
 * server/repositories/userRepository.ts: `signUp` and `login`.
 *
 * bcrypt is given as `hash` (the salted hash of this call) and `compare`; jwt
 * signing as `sign` (see module Token). Whatever the store does that the
 * repository cannot see (the User schema's validation, a failed connection, a
 * failed hash) arrives as `saveFault`; the unique index on `username` is
 * modelled by the store itself.
 */
module UserRepository {
  import opened Wrappers
  import opened Errors
  import opened Store
  import opened Token

  const SignUpFailedMessage: string := "Could not sign up. Please try again later"
  const LoginFailedMessage: string := "Could not login. Please try again later"

  /**
   * The `catch` block of signUp: a duplicate key becomes a `username`
   * validation error, a ValidationError is reported path by path, and
   * everything else, a MongoError with any other code included, becomes the
   * generic server error.
   */
  function ClassifySignUpError(e: StoreError): (g: GraphQLError)
    ensures e == MongoError(DuplicateKeyCode) ==> g == GetCustomValidationError("username", "Username must be unique")
    ensures e.ValidationFailure? ==> g == GetValidationError(e.entries)
    ensures g.code == MongoDBValidationFailed <==> e == MongoError(DuplicateKeyCode) || e.ValidationFailure?
    ensures g.code != MongoDBValidationFailed ==> g == GetMongoDBServerError(SignUpFailedMessage)
  {
    match e
    case MongoError(code) =>
      if code == DuplicateKeyCode then GetCustomValidationError("username", "Username must be unique")
      else GetMongoDBServerError(SignUpFailedMessage)
    case ValidationFailure(entries) => GetValidationError(entries)
    case OtherFailure(_) => GetMongoDBServerError(SignUpFailedMessage)
  }

  /** A MongoError other than a duplicate key is not told apart from an unexpected failure. */
  lemma OtherMongoErrorsAreServerErrors(code: int, message: string)
    requires code != DuplicateKeyCode
    ensures ClassifySignUpError(MongoError(code)) == ClassifySignUpError(OtherFailure(message))
  {
  }

  predicate UsernameTaken(users: seq<User>, username: string)
  {
    exists u :: u in users && u.username == username
  }

  /** `User.findOne({ username })`: the index of the first user with that username. */
  function FindByUsername(users: seq<User>, username: string): (r: Option<nat>)
    ensures r.Some? ==> r.value < |users| && users[r.value].username == username
    ensures r.Some? ==> forall k :: 0 <= k < r.value ==> users[k].username != username
    ensures r.None? <==> !UsernameTaken(users, username)
  {
    if |users| == 0 then None
    else if users[0].username == username then Some(0)
    else match FindByUsername(users[1..], username)
      case None => None
      case Some(k) => Some(k + 1)
  }

  datatype SignUpInput = SignUpInput(username: string, firstName: string, lastName: string, email: string, password: string)

  /**
   * signUp: stores a new user with the password replaced by its hash; a
   * taken username fails with duplicate key 11000. Every failure reaches the
   * caller through ClassifySignUpError.
   */
  method SignUp(db: Database, input: SignUpInput, hash: string -> string, newId: string, saveFault: Option<StoreError>)
    returns (r: Result<User, GraphQLError>)
    requires db.Valid() && newId != ""
    modifies db
    ensures db.Valid()
    ensures saveFault.Some? ==> r == Failure(ClassifySignUpError(saveFault.value))
    ensures saveFault.None? && UsernameTaken(old(db.users), input.username) ==>
              r == Failure(GetCustomValidationError("username", "Username must be unique"))
    ensures r.Success? <==> saveFault.None? && !UsernameTaken(old(db.users), input.username)
    ensures r.Success? ==>
              && r.value == User(newId, input.username, input.firstName, input.lastName, input.email,
                                 hash(input.password), None, None)
              && db.users == old(db.users) + [r.value]
    ensures r.Failure? ==> db.users == old(db.users)
    ensures db.posts == old(db.posts) && db.comments == old(db.comments) && db.messages == old(db.messages)
    ensures db.postLikes == old(db.postLikes) && db.commentLikes == old(db.commentLikes)
  {
    if saveFault.Some? {
      return Failure(ClassifySignUpError(saveFault.value));
    }
    if UsernameTaken(db.users, input.username) {
      return Failure(ClassifySignUpError(MongoError(DuplicateKeyCode)));
    }
    var user := User(newId, input.username, input.firstName, input.lastName, input.email, hash(input.password), None, None);
    db.users := db.users + [user];
    r := Success(user);
  }

  /**
   * login: rejects an unknown username, then a password that does not match;
   * otherwise persists a refresh token for the user and only afterwards sets
   * the access token on the returned record, so the store never holds it.
   * Both rejections are returned, not thrown, so the catch-all server error
   * applies only to a failed save.
   */
  method Login(db: Database, username: string, password: string,
               compare: (string, string) -> bool, sign: Claims -> string, saveFails: bool)
    returns (r: Result<User, GraphQLError>)
    requires db.Valid()
    modifies db
    ensures db.Valid()
    ensures FindByUsername(old(db.users), username).None? ==>
              r == Failure(GetCustomValidationError("username", "User " + username + " does not exist")) &&
              db.users == old(db.users)
    ensures FindByUsername(old(db.users), username).Some? ==>
              var i := FindByUsername(old(db.users), username).value;
              var u := old(db.users)[i];
              && (!compare(password, u.password) ==>
                    r == Failure(GetCustomValidationError("password", "Passwords do not match")) && db.users == old(db.users))
              && (compare(password, u.password) && saveFails ==>
                    r == Failure(GetMongoDBServerError(LoginFailedMessage)) && db.users == old(db.users))
              && (compare(password, u.password) && !saveFails ==>
                    && db.users == old(db.users)[i := u.(refreshToken := Some(GenerateRefreshToken(sign, u.id)))]
                    && r == Success(db.users[i].(accessToken := Some(GenerateAccessToken(sign, u.id)))))
    ensures r.Success? ==> r.value.username == username
    ensures db.posts == old(db.posts) && db.comments == old(db.comments) && db.messages == old(db.messages)
    ensures db.postLikes == old(db.postLikes) && db.commentLikes == old(db.commentLikes)
  {
    var found := FindByUsername(db.users, username);
    if found.None? {
      return Failure(GetCustomValidationError("username", "User " + username + " does not exist"));
    }
    var i := found.value;
    var user := db.users[i];
    if !compare(password, user.password) {
      return Failure(GetCustomValidationError("password", "Passwords do not match"));
    }
    user := user.(refreshToken := Some(GenerateRefreshToken(sign, user.id)));
    if saveFails {
      return Failure(GetMongoDBServerError(LoginFailedMessage));
    }
    db.users := db.users[i := user];
    assert forall k :: 0 <= k < |db.users| ==> db.users[k].username == old(db.users)[k].username;
    user := user.(accessToken := Some(GenerateAccessToken(sign, user.id)));
    r := Success(user);
  }
}
