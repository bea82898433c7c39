/** Upper case, as far as it can lead to ASCII letters. */
module Text {

  /** The upper case of a character. Nine characters outside ASCII become ASCII letters, some of them two or three;
      the upper case of every other one holds a character outside ASCII, and is left as it is. */
  function UpperOf(c: char): string {
    if 'a' <= c <= 'z' then ['A' + (c - 'a')] else if c < '\U{80}' then [c] else UpperBeyondAscii(c)
  }

  function UpperBeyondAscii(c: char): string {
    if c == '\U{df}' then "SS"
    else if c == '\U{131}' then "I"
    else if c == '\U{17f}' then "S"
    else if c == '\U{fb00}' then "FF"
    else if c == '\U{fb01}' then "FI"
    else if c == '\U{fb02}' then "FL"
    else if c == '\U{fb03}' then "FFI"
    else if c == '\U{fb04}' then "FFL"
    else if c == '\U{fb05}' || c == '\U{fb06}' then "ST"
    else [c]
  }

  function Upper(s: string): string {
    if s == "" then "" else Upper(s[..|s| - 1]) + UpperOf(s[|s| - 1])
  }
}
