/** ASCII case mapping, as PHP's `ucfirst` and `strtolower`, Symfony's header names and
    JavaScript's `toUpperCase` apply it to ASCII text. */
module Ascii {
  /** Upper case of one character: `a`-`z` move to `A`-`Z`, every other character stays. */
  function UpperChar(c: char): (u: char)
    ensures 'a' <= c <= 'z' ==> u as int == c as int - 32 && 'A' <= u <= 'Z'
    ensures !('a' <= c <= 'z') ==> u == c
  {
    if 'a' <= c <= 'z' then (c as int - 32) as char else c
  }

  /** Lower case of one character: `A`-`Z` move to `a`-`z`, every other character stays. */
  function LowerChar(c: char): (l: char)
    ensures 'A' <= c <= 'Z' ==> l as int == c as int + 32 && 'a' <= l <= 'z'
    ensures !('A' <= c <= 'Z') ==> l == c
  {
    if 'A' <= c <= 'Z' then (c as int + 32) as char else c
  }
}
