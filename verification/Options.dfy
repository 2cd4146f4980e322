/** The one optional value every module of this project uses. */
module Options {
  datatype Option<+T> = None | Some(value: T) {
    function UnwrapOr(other: T): T { if Some? then value else other }
  }
}
