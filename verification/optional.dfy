/** An optional value: the numeric search and the relay generator use `None`
    for "no finite answer". */
module Optional {

  datatype Option<+T> = None | Some(value: T)
}
