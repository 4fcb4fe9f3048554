/**
 * The wide-string library the binding uses to hand text to the native
 * dialog host (`U16CString`). The library itself is not part of this model:
 * a wide string is abstracted to the characters it stores, not to UTF-16
 * code units. What the model keeps is the library's handling of the NUL
 * terminator: `from_str` refuses an interior NUL, `from_str_unchecked`
 * stores it, and a reader of the buffer's pointer stops at the first NUL.
 */
module WideString {
  import opened Wrappers

  /** The character that terminates a native wide string. */
  const NUL: char := '\0'

  predicate HasNul(s: string) {
    NUL in s
  }

  /** A NUL-terminated wide buffer: the characters stored before the terminator the library appends. */
  datatype WideCString = WideCString(chars: seq<char>)

  /** `U16CString::from_str`: fails on a string that holds a NUL. */
  function FromStr(s: string): Option<WideCString> {
    if HasNul(s) then None else Some(WideCString(s))
  }

  /** `U16CString::from_str_unchecked`: stores the string as it is, interior NULs included. */
  function FromStrUnchecked(s: string): WideCString {
    WideCString(s)
  }

  /** The characters of `s` before its first NUL. */
  function TakeUntilNul(s: seq<char>): (p: seq<char>)
    ensures p <= s
    ensures !HasNul(p)
    ensures |p| < |s| ==> s[|p|] == NUL
    decreases |s|
  {
    if s == [] || s[0] == NUL then []
    else [s[0]] + TakeUntilNul(s[1..])
  }

  /** What a reader of the buffer's pointer sees (`U16CString::from_ptr_str`, then `to_string`). */
  function ReadToNul(w: WideCString): string {
    TakeUntilNul(w.chars)
  }

  /** Text without a NUL crosses the wide-string boundary unchanged. */
  lemma ReadBack(s: string)
    requires !HasNul(s)
    ensures ReadToNul(FromStrUnchecked(s)) == s
  {
  }

  /** Text with a NUL is seen by the native side only up to its first NUL. */
  lemma TruncatedAtFirstNul(s: string)
    requires HasNul(s)
    ensures var p := ReadToNul(FromStrUnchecked(s));
      |p| < |s| && p == s[..|p|] && s[|p|] == NUL
  {
  }

  /** `from_str` succeeds exactly on the strings that read back unchanged. */
  lemma FromStrReadsBack(s: string)
    ensures FromStr(s).Some? <==> !HasNul(s)
    ensures FromStr(s).Some? ==> ReadToNul(FromStr(s).value) == s
  {
    if !HasNul(s) {
      ReadBack(s);
    }
  }
}
