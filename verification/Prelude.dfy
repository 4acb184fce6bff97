/** Small vocabulary shared by every module. */
module Prelude {

  datatype Option<+T> = None | Some(value: T)

  /** A conversation id, approval UUID or remote task id. Zero stands for the empty string. */
  type Id = nat

  const NO_ID: Id := 0

  const MAX_INT := 0x7FFF_FFFF_FFFF_FFFF

  /** A 64-bit integer. */
  type Int64 = n: int | -MAX_INT - 1 <= n <= MAX_INT

  /** What a 64-bit sum of small terms comes out as. */
  function Wrap(n: int): int {
    if n > MAX_INT then n - 0x1_0000_0000_0000_0000
    else if n < -MAX_INT - 1 then n + 0x1_0000_0000_0000_0000
    else n
  }

  predicate HasPrefix(s: string, prefix: string) {
    prefix <= s
  }

  function TrimPrefix(s: string, prefix: string): string {
    if prefix <= s then s[|prefix|..] else s
  }

  function Join(parts: seq<string>, sep: string): string {
    if parts == [] then ""
    else if |parts| == 1 then parts[0]
    else parts[0] + sep + Join(parts[1..], sep)
  }

  /** The zero-value read of a string map: an absent key reads as "". */
  function Lookup(m: map<string, string>, key: string): string {
    if key in m then m[key] else ""
  }
}
