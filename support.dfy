/** Small value types shared by both text fields. */

/** Swift's `T?`: a value that may be absent (`nil`). */
module Optional {
  datatype Option<+T> = None | Some(value: T)
}

/**
 * SwiftUI `Color`, kept opaque: the model only ever compares colours, it
 * never mixes or renders them. `Custom` stands for any colour a caller
 * passes in, told apart by an identifier.
 */
module Colors {
  datatype Color = Gray | Red | Cyan | SystemGray4 | Custom(id: nat)
}

/**
 * SwiftUI `@Binding var inputText: String`: a reference to text that the
 * caller owns. The field reads it and writes through it; it holds no copy.
 */
module Bindings {
  class TextBinding {
    var value: string

    constructor (initial: string)
      ensures value == initial
    {
      value := initial;
    }
  }
}
