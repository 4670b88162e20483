/** The optional value used throughout the model for TypeScript's
    `T | undefined` and `T | null`: JavaScript code in this front end treats
    both the same way, so one `None` stands for either. */
module Wrappers {

  datatype Option<+T> = None | Some(value: T) {

    /** `value ?? default` */
    function GetOr(default: T): T {
      match this
      case Some(v) => v
      case None => default
    }
  }
}
