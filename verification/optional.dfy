/** Optional values: the result of a substring search (`npos` is `None`) and
    the state of a file stream that may or may not be open. */
module Optional {

  datatype Option<+T> = None | Some(value: T)

}
