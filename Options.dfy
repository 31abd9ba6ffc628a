/** The optional values of the model: an Inspector reference that may be left
    unassigned, or a result the mesh splitter may fail to produce. */
module Options {

  datatype Option<+T> = None | Some(value: T)

}
