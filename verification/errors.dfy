/**
 * The GraphQL error values the server reports (utils/errors/index.ts).
 *
 * A mongoose ValidationError carries an `errors` object whose values are
 * visited in insertion order; only the ValidatorError values among them
 * contribute to the path -> message map a client receives.
 */
module Errors {
  import opened Wrappers

  /** One value of a mongoose ValidationError's `errors` object. */
  datatype ErrorEntry =
    | ValidatorError(path: string, message: string)  // `message` is `properties.message`
    | OtherEntry(path: string)                        // a CastError or any non-validator value

  /** The `extensions.code` values of GRAPHQL_ERROR_CODES. */
  datatype ErrorCode = MongoDBValidationFailed | MongoDBServerError | InvalidSession

  /** A GraphQLError: its message, `extensions.code` and, for validation errors, `extensions.errors`. */
  datatype GraphQLError = GraphQLError(message: string, code: ErrorCode, errors: Option<map<string, string>>)

  const ValidationErrorMessage: string := "Validation error"
  const InvalidSessionMessage: string := "Invalid session"

  /** Entry `i` is a ValidatorError for `path`. */
  predicate ValidatorAt(entries: seq<ErrorEntry>, i: int, path: string)
  {
    0 <= i < |entries| && entries[i].ValidatorError? && entries[i].path == path
  }

  /** Some ValidatorError in `entries` names `path`. */
  predicate HasValidatorFor(entries: seq<ErrorEntry>, path: string)
  {
    exists i | 0 <= i < |entries| :: ValidatorAt(entries, i, path)
  }

  /** Entry `i` is a ValidatorError and no later ValidatorError names the same path. */
  predicate IsLastValidator(entries: seq<ErrorEntry>, i: int)
  {
    0 <= i < |entries| && entries[i].ValidatorError? &&
    forall j :: i < j < |entries| ==> !ValidatorAt(entries, j, entries[i].path)
  }

  /**
   * getValidationErrors: a left fold over the entries that, for each
   * ValidatorError, returns a new map extended with path -> message and
   * returns the accumulator unchanged for every other entry.
   * A path is a key exactly when some ValidatorError names it, and its
   * message is the one of the LAST such entry.
   */
  function GetValidationErrors(entries: seq<ErrorEntry>): (r: map<string, string>)
    ensures entries == [] ==> r == map[]
    decreases |entries|
  {
    if |entries| == 0 then map[]
    else
      var acc := GetValidationErrors(entries[..|entries| - 1]);
      match entries[|entries| - 1]
      case ValidatorError(p, m) => acc[p := m]
      case OtherEntry(_) => acc
  }

  /** Every entry adds at most one key, so the map has no more keys than the error has entries. */
  lemma {:induction false} FoldSize(entries: seq<ErrorEntry>)
    ensures |GetValidationErrors(entries)| <= |entries|
    decreases |entries|
  {
    if |entries| > 0 {
      FoldSize(entries[..|entries| - 1]);
    }
  }

  /** A ValidatorError is found in `init + [last]` exactly when it is in `init` or is `last`. */
  lemma HasValidatorSnoc(entries: seq<ErrorEntry>, path: string)
    requires |entries| > 0
    ensures HasValidatorFor(entries, path) <==>
              HasValidatorFor(entries[..|entries| - 1], path) || ValidatorAt(entries, |entries| - 1, path)
  {
    var init := entries[..|entries| - 1];
    if HasValidatorFor(init, path) {
      var i :| 0 <= i < |init| && ValidatorAt(init, i, path);
      assert ValidatorAt(entries, i, path);
    }
    if HasValidatorFor(entries, path) && !ValidatorAt(entries, |entries| - 1, path) {
      var i :| 0 <= i < |entries| && ValidatorAt(entries, i, path);
      assert ValidatorAt(init, i, path);
    }
  }

  /** The keys of the fold are exactly the paths some ValidatorError names. */
  lemma {:induction false} FoldKeys(entries: seq<ErrorEntry>, path: string)
    ensures path in GetValidationErrors(entries) <==> HasValidatorFor(entries, path)
    decreases |entries|
  {
    if |entries| > 0 {
      FoldKeys(entries[..|entries| - 1], path);
      HasValidatorSnoc(entries, path);
    }
  }

  /** The message kept for a path is that of the last ValidatorError naming it. */
  lemma {:induction false} FoldLastWins(entries: seq<ErrorEntry>, i: int)
    requires IsLastValidator(entries, i)
    ensures entries[i].path in GetValidationErrors(entries)
    ensures GetValidationErrors(entries)[entries[i].path] == entries[i].message
    decreases |entries|
  {
    var n := |entries|;
    if i < n - 1 {
      var init := entries[..n - 1];
      assert IsLastValidator(init, i) by {
        forall j | i < j < |init| ensures !ValidatorAt(init, j, init[i].path) {
          assert !ValidatorAt(entries, j, entries[i].path);
        }
      }
      FoldLastWins(init, i);
      assert !ValidatorAt(entries, n - 1, entries[i].path);
    }
  }

  /** FoldKeys and FoldLastWins for every path and index at once. */
  lemma FoldMeaning(entries: seq<ErrorEntry>)
    ensures forall p :: p in GetValidationErrors(entries) <==> HasValidatorFor(entries, p)
    ensures forall i :: IsLastValidator(entries, i) ==>
              entries[i].path in GetValidationErrors(entries) &&
              GetValidationErrors(entries)[entries[i].path] == entries[i].message
  {
    forall p ensures p in GetValidationErrors(entries) <==> HasValidatorFor(entries, p) {
      FoldKeys(entries, p);
    }
    forall i | IsLastValidator(entries, i)
      ensures entries[i].path in GetValidationErrors(entries) &&
              GetValidationErrors(entries)[entries[i].path] == entries[i].message
    {
      FoldLastWins(entries, i);
    }
  }

  /** The entries that are ValidatorErrors, in their original order. */
  function Validators(entries: seq<ErrorEntry>): seq<ErrorEntry>
    decreases |entries|
  {
    if |entries| == 0 then []
    else
      var last := entries[|entries| - 1];
      Validators(entries[..|entries| - 1]) + (if last.ValidatorError? then [last] else [])
  }

  /** The fold only sees the ValidatorErrors: dropping every other entry gives the same map. */
  lemma {:induction false} FoldIgnoresNonValidators(entries: seq<ErrorEntry>)
    ensures GetValidationErrors(Validators(entries)) == GetValidationErrors(entries)
  {
    if |entries| > 0 {
      var init, last := entries[..|entries| - 1], entries[|entries| - 1];
      FoldIgnoresNonValidators(init);
      if last.ValidatorError? {
        var v := Validators(init) + [last];
        assert Validators(entries) == v;
        assert v[..|v| - 1] == Validators(init);
        assert GetValidationErrors(v) == GetValidationErrors(Validators(init))[last.path := last.message];
        assert GetValidationErrors(entries) == GetValidationErrors(init)[last.path := last.message];
      } else {
        assert Validators(entries) == Validators(init) + [];
        assert Validators(init) + [] == Validators(init);
        assert GetValidationErrors(entries) == GetValidationErrors(init);
      }
    }
  }

  /**
   * Folding a concatenation is folding each part and letting the later
   * part's paths override the earlier part's: the later entry always wins.
   */
  lemma {:induction false} FoldConcat(a: seq<ErrorEntry>, b: seq<ErrorEntry>)
    ensures GetValidationErrors(a + b) == GetValidationErrors(a) + GetValidationErrors(b)
    decreases |b|
  {
    if |b| == 0 {
      assert a + b == a;
    } else {
      var binit := b[..|b| - 1];
      FoldConcat(a, binit);
      assert (a + b)[..|a + b| - 1] == a + binit;
    }
  }

  /** getValidationError: a validation error whose map is the fold of the entries. */
  function GetValidationError(entries: seq<ErrorEntry>): (r: GraphQLError)
    ensures r.code == MongoDBValidationFailed && r.message == ValidationErrorMessage
    ensures r.errors.Some? && forall p :: p in r.errors.value <==> HasValidatorFor(entries, p)
    ensures forall i :: IsLastValidator(entries, i) ==>
              entries[i].path in r.errors.value && r.errors.value[entries[i].path] == entries[i].message
  {
    FoldMeaning(entries);
    GraphQLError(ValidationErrorMessage, MongoDBValidationFailed, Some(GetValidationErrors(entries)))
  }

  /** getCustomValidationError(path, message): the one-entry map {path: message}. */
  function GetCustomValidationError(path: string, message: string): (r: GraphQLError)
    ensures r.code == MongoDBValidationFailed && r.message == ValidationErrorMessage
    ensures r.errors == Some(map[path := message])
  {
    GraphQLError(ValidationErrorMessage, MongoDBValidationFailed, Some(map[path := message]))
  }

  /**
   * A custom validation error is exactly what a schema validation failing
   * on that one path would report.
   */
  lemma CustomIsSingleValidator(path: string, message: string)
    ensures GetCustomValidationError(path, message) == GetValidationError([ValidatorError(path, message)])
  {
    var one := [ValidatorError(path, message)];
    assert one[..0] == [];
    assert GetValidationErrors(one) == GetValidationErrors([])[path := message];
  }

  /** getMongoDBServerError(message): the given message with the server-error code and no map. */
  function GetMongoDBServerError(message: string): (r: GraphQLError)
    ensures r.message == message && r.code == MongoDBServerError && r.errors.None?
  {
    GraphQLError(message, MongoDBServerError, None)
  }

  /** getInvalidSessionError(): "Invalid session" with its own code and no map. */
  function GetInvalidSessionError(): (r: GraphQLError)
    ensures r.message == InvalidSessionMessage && r.code == InvalidSession && r.errors.None?
  {
    GraphQLError(InvalidSessionMessage, InvalidSession, None)
  }

  /** The three constructors are told apart by their codes alone. */
  lemma CodesSeparateKinds(entries: seq<ErrorEntry>, path: string, message: string, serverMessage: string)
    ensures GetValidationError(entries).code == GetCustomValidationError(path, message).code
    ensures GetValidationError(entries).code != GetMongoDBServerError(serverMessage).code
    ensures GetMongoDBServerError(serverMessage).code != GetInvalidSessionError().code
    ensures GetValidationError(entries).code != GetInvalidSessionError().code
  {
  }
}

/**
 * The server's copy of the error helpers (server/utils/errors/index.ts): the
 * same fold, `getUniqueValidationError` in place of `getCustomValidationError`,
 * and only the two MongoDB codes.
 */
module ServerErrors {
  import opened Wrappers
  import opened Errors

  /** getValidationError of the server copy, built on the same fold. */
  function GetValidationError(entries: seq<ErrorEntry>): (r: GraphQLError)
    ensures r.code == MongoDBValidationFailed && r.message == ValidationErrorMessage
    ensures r.errors.Some? && forall p :: p in r.errors.value <==> HasValidatorFor(entries, p)
    ensures forall i :: IsLastValidator(entries, i) ==>
              entries[i].path in r.errors.value && r.errors.value[entries[i].path] == entries[i].message
    ensures entries == [] ==> r.errors.value == map[]
  {
    Errors.GetValidationError(entries)
  }

  /** getUniqueValidationError(path, message): the one-entry map {path: message}. */
  function GetUniqueValidationError(path: string, message: string): (r: GraphQLError)
    ensures r.code == MongoDBValidationFailed && r.errors == Some(map[path := message])
  {
    GraphQLError(ValidationErrorMessage, MongoDBValidationFailed, Some(map[path := message]))
  }

  /** getMongoDBServerError(message) of the server copy. */
  function GetMongoDBServerError(message: string): (r: GraphQLError)
    ensures r.message == message && r.code == MongoDBServerError && r.errors.None?
  {
    GraphQLError(message, MongoDBServerError, None)
  }

  /** The server copy produces the same values as the shared helpers and never INVALID_SESSION. */
  lemma AgreesWithSharedHelpers(entries: seq<ErrorEntry>, path: string, message: string)
    ensures GetValidationError(entries) == Errors.GetValidationError(entries)
    ensures GetUniqueValidationError(path, message) == Errors.GetCustomValidationError(path, message)
    ensures GetMongoDBServerError(message) == Errors.GetMongoDBServerError(message)
    ensures GetValidationError(entries).code != InvalidSession
    ensures GetUniqueValidationError(path, message).code != InvalidSession
    ensures GetMongoDBServerError(message).code != InvalidSession
  {
  }
}
