/** Shared vocabulary: bytes, 32-bit unsigned arithmetic and C strings. */
module Common {

  /** An unsigned 8-bit value (`uint8_t`), as stored in files and in the audio buffer. */
  type Byte = x: int | 0 <= x < 256

  /** 2^32: `uint32_t` arithmetic is arithmetic modulo this number. */
  const U32Modulus: nat := 0x1_0000_0000

  datatype Option<T> = None | Some(value: T)

  function Min(a: int, b: int): int
  {
    if a <= b then a else b
  }

  /** The value a `uint32_t` holds after an assignment of x: x reduced modulo 2^32. */
  function Wrap32(x: int): (r: nat)
    ensures r < U32Modulus
    ensures (r - x) % U32Modulus == 0
    ensures 0 <= x < U32Modulus ==> r == x
  {
    x % U32Modulus
  }

  /** The C string stored at the start of s: the characters before the first NUL, or all of s when it holds none. */
  function CStr(s: seq<char>): (r: seq<char>)
    ensures |r| <= |s| && r == s[..|r|]
    ensures '\0' !in r
    ensures |r| < |s| ==> s[|r|] == '\0'
    ensures '\0' in s ==> |r| < |s|
  {
    if s == [] || s[0] == '\0' then [] else [s[0]] + CStr(s[1..])
  }

  /** `strlen`: the length of the C string at the start of s. */
  function StrLen(s: seq<char>): nat
  {
    |CStr(s)|
  }

  /** A C string ends at its first NUL. */
  lemma {:induction false} CStrTerminated(a: seq<char>, b: seq<char>)
    requires '\0' !in a
    ensures CStr(a + ['\0'] + b) == a
  {
    if a != [] {
      assert (a + ['\0'] + b)[1..] == a[1..] + ['\0'] + b;
      CStrTerminated(a[1..], b);
    }
  }

  /** Characters without a NUL are their own C string. */
  lemma {:induction false} CStrUnterminated(a: seq<char>)
    requires '\0' !in a
    ensures CStr(a) == a
  {
    if a != [] {
      CStrUnterminated(a[1..]);
    }
  }
}
