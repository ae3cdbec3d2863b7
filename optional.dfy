/** The optional values the view keeps: an overlay tile that may not exist
    and an animator slot that may be empty. */
module Optional {

  datatype Option<+T> = None | Some(value: T)
}
