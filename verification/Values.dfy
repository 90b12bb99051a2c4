/** Values shared by the stores: optional columns, tool arguments and their digest. */
module Values {

  datatype Option<+T> = None | Some(value: T)

  /** A JSON object of tool arguments.  Two texts of one object are the same value, which is
      what sorting the keys before serialising achieves. */
  type Args = map<string, string>

  /** SHA-256 of the sorted JSON text, as a free constructor: collisions do not happen. */
  datatype Digest = Sha256(args: Args)
}
