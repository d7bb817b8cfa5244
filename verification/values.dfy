/** Value types shared by every part of the grid-column model. */
module Values {

  /** An optional value: `None` stands for a PHP `null` argument. */
  datatype Option<+T> = None | Some(value: T)

  /** A cell value as far as the page-summary logic looks at it.
      PHP's loosely typed values are narrowed to the four shapes the code
      produces or compares against: `null`, a string (the empty string `''`
      is what an empty summary yields), an integer cell or aggregate, and the
      exact quotient an average produces. */
  datatype Val = Null | Str(s: string) | Int(n: int) | Real(x: real)
}
