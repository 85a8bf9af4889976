/** The optional-value wrapper used for Swift optionals (`Tone?`, a failed FFT setup). */
module Wrappers {

  datatype Option<+T> = None | Some(value: T)
}
