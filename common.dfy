/**
 * Shared vocabulary: fixed-width unsigned integer ranges, an optional value,
 * and the C-string view of a character buffer (everything up to the first NUL).
 */
module Common {

  datatype Option<T> = None | Some(value: T)

  /** Unsigned C integer ranges; arithmetic on them is written out where it wraps. */
  type u8 = x: int | 0 <= x < 0x100
  type u16 = x: int | 0 <= x < 0x1_0000
  type u32 = x: int | 0 <= x < 0x1_0000_0000
  type u64 = x: int | 0 <= x < 0x1_0000_0000_0000_0000

  const NUL: char := '\0'

  function Max(a: int, b: int): (m: int)
    ensures m >= a && m >= b
    ensures m == a || m == b
  {
    if a >= b then a else b
  }

  /** The string a `const char *` denotes: the buffer up to, not including, its first NUL. */
  function CStr(buf: seq<char>): (s: seq<char>)
    ensures s <= buf
    ensures NUL !in s
    ensures |s| < |buf| ==> buf[|s|] == NUL
  {
    if buf == [] || buf[0] == NUL then [] else [buf[0]] + CStr(buf[1..])
  }

  /** A C string is non-empty (`s && *s`) exactly when its first character is not NUL. */
  lemma {:induction false} CStrEmptyIff(buf: seq<char>)
    ensures CStr(buf) == [] <==> (buf == [] || buf[0] == NUL)
  {
  }
}
