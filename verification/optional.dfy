/** The optional value used where the bot gets "something or nothing" back
    (a weather lookup that may fail). */
module Optional {

  datatype Option<+T> = None | Some(value: T)
}
