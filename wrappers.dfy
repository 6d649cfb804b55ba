/** An optional value: used where the source throws because a lookup found nothing. */
module Wrappers {

  datatype Option<+T> = None | Some(value: T)

}
