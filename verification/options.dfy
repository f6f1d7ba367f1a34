/** The optional value used for the source's panicking paths and rejected inputs. */
module Options {

  datatype Option<+T> = None | Some(value: T)
}
