/** The conventional optional value, standing in for the nullable pointers and
    `boost::optional` results of the modelled code. */
module Optional {

  datatype Option<+T> = None | Some(value: T)

}
