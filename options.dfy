/** The optional value used for `Array.prototype.find` results, object-key lookups and
    the nullable `intent` of the conversation state. */
module Options {

  datatype Option<+T> = None | Some(value: T)
}
