/** Optional values: a missing refresh marker, an undefined (NaN) mean, a lookup that found nothing. */
module Wrappers {

  datatype Option<+T> = None | Some(value: T)
}
