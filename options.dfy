/** The "maybe a card" result of dealing: Java's `null` card becomes `None`. */
module Options {
  datatype Option<+T> = None | Some(value: T)
}
