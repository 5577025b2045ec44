/** Results, errors and small facts used throughout. */
module Basics {
  type Labels = map<string, seq<string>>

  datatype Option<+T> = None | Some(value: T)

  datatype Error =
    | NotExist | StageClosed | StageExpired | OffsetMismatch | StageConflict
    | StageFormat | DigestMismatch | InvalidDigest | Failed
    | Died   // the process stopped

  datatype Result<+T> = Ok(value: T) | Err(error: Error)

  lemma {:induction false} SubsetSize<T>(a: set<T>, b: set<T>)
    requires a <= b
    ensures |a| <= |b|
  {
    if a != {} {
      var x :| x in a;
      SubsetSize(a - {x}, b - {x});
    }
  }
}
