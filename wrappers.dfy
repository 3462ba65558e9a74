/** Failure-carrying values shared by every layer: Go's `(value, error)` pairs
    and `error` results become `Result` and `Option<Error>`. Also the choice of a next
    key when a Go map is ranged over in no particular order. */
module Wrappers {

  datatype Option<+T> = None | Some(value: T)

  /** The error values the data-access layer produces or passes on. */
  datatype Error =
    | VoteTimeExpire                 // dao/redis/vote.go ErrorVoteTimeExpire
    | VoteRepeated                   // dao/redis/vote.go ErrorVoteRepeated
    | UserExist                      // dao/mysql ErrorUserExist
    | UserNotExist                   // dao/mysql ErrorUserNotExist
    | InvalidPassword                // dao/mysql ErrorInvalidPassword
    | InvalidID                      // dao/mysql ErrorInvalidID
    | NoRows                         // sql.ErrNoRows
    | DuplicateKey                   // MySQL rejects an insert that repeats a primary key
    | EmptyInQuery                   // sqlx.In refuses an empty slice
    | TooManyIDs(count: int, max: int)
    | Wrapped(context: string, cause: Error)   // fmt.Errorf("...: %w", cause)
    | Backend                        // MySQL or Redis could not be reached or failed
    | MarshalFailed                  // json.Marshal failed
    | UnmarshalFailed                // json.Unmarshal failed
    | WriteConnectFailed             // the write pool could not connect
    | AllReadHostsFailed             // no read pool could connect
    | WritePingFailed                // the write pool did not answer its ping
    | CloseFailed(failures: nat)     // how many pools failed to close
    | NilDereference                 // a method called on a nil *sqlx.DB panics

  datatype Result<+T> = Ok(value: T) | Err(error: Error)

  /** Some element of a non-empty set: the next key of a map walked in no particular order. */
  method Pick(ids: set<int>) returns (id: int)
    requires ids != {}
    ensures id in ids
  {
    EmptyOrMember(ids);
    id :| id in ids;
  }

  lemma EmptyOrMember(ids: set<int>)
    ensures ids == {} || exists x :: x in ids
  {
    if forall x :: x !in ids {
      assert ids == {};
    }
  }
}
