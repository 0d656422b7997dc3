/** Optional values, the errors the rigging scripts raise, and results. */
module Outcomes {

  datatype Option<+T> = None | Some(value: T)

  /** The exceptions a synthesis call can end with. */
  datatype RigError =
    /** `AssertionError("missing bone '<name>'")` from an explicit existence check */
    | MissingBone(name: string)
    /** `AssertionError` for an upper and lower limb bone that are parallel */
    | ParallelBones(upper: string, lower: string)
    /** `KeyError` from indexing a bone collection or a dictionary by a missing key */
    | KeyError(key: string)
    /** `AttributeError` from reading an attribute of the `None` returned for a missing bone */
    | NoneAttribute(name: string)
    /** `TypeError` from calling a constructor with an argument it does not accept */
    | ArgumentCount(callee: string)
    /** `TypeError` from `c[k] = v` on a struct, such as a constraint, that holds no ID properties */
    | NoIdProperties

  /** The outcome of a call: a value, or the exception that ended it. */
  datatype Result<+T> = Ok(value: T) | Err(error: RigError)
}
