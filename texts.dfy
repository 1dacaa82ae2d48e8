/** Small facts about fixed texts that the error messages rely on. */
module Texts {
  /** The length and first letter of a text, as one number: the length times
      256 plus the code of the first character (all of the texts here are
      ASCII, so the code is below 256).  Enough to tell apart the messages of
      one table, and a number is far cheaper for the verifier to compare than
      a text.  For example "age" gives 3 * 256 + 97 = 865. */
  function Signature(s: string): int {
    if s == [] then 0 else |s| * 256 + s[0] as int
  }
}
