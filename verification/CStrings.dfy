/** Reading C strings. */
module CStrings {
  /** Strings stand for C strings: they hold no NUL, and reading position |s| gives the NUL. */
  function At(s: string, i: nat): char
    requires i <= |s|
  {
    if i == |s| then '\0' else s[i]
  }
}
