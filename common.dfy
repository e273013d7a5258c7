/** Small shared vocabulary: optional values, instants and the .NET string tests
    (String.IsNullOrEmpty, String.IsNullOrWhiteSpace, String.Contains) that the
    services use on their inputs. */
module Common {

  /** A C# nullable reference (`string?`, `Dictionary?`) or a failed lookup. */
  datatype Option<+T> = None | Some(value: T)

  /** A point in time (C# DateTime), counted in whole seconds. DateTime.UtcNow is
      never read by the model: every operation that reads the clock takes `now`. */
  type Instant = int

  const SecondsPerHour: int := 3600

  /** DateTime.MinValue. */
  const MinInstant: Instant := 0

  /** String.IsNullOrEmpty. */
  predicate IsNullOrEmpty(s: Option<string>) {
    s.None? || |s.value| == 0
  }

  /** Char.IsWhiteSpace: the Unicode space, line and paragraph separators plus
      U+0009..U+000D and U+0085. */
  predicate IsWhiteSpace(c: char) {
    || ('\U{0009}' <= c <= '\U{000D}')
    || c == '\U{0020}' || c == '\U{0085}' || c == '\U{00A0}' || c == '\U{1680}'
    || ('\U{2000}' <= c <= '\U{200A}')
    || c == '\U{2028}' || c == '\U{2029}' || c == '\U{202F}' || c == '\U{205F}' || c == '\U{3000}'
  }

  /** String.IsNullOrWhiteSpace. */
  predicate IsNullOrWhiteSpace(s: Option<string>) {
    s.None? || forall i :: 0 <= i < |s.value| ==> IsWhiteSpace(s.value[i])
  }

  /** `sub` occurs in `s` starting at position `i`. */
  predicate OccursAt(s: string, sub: string, i: int) {
    0 <= i <= |s| - |sub| && s[i..i + |sub|] == sub
  }

  /** Ordinal String.Contains: `sub` occurs in `s` at some position. */
  predicate Contains(s: string, sub: string) {
    exists i | 0 <= i <= |s| :: OccursAt(s, sub, i)
  }

  function Min(a: int, b: int): int { if a <= b then a else b }

  function Max(a: int, b: int): int { if a >= b then a else b }
}
