/** The usual optional and failing results, and letter case. */
module Common {

  datatype Option<+T> = None | Some(value: T)

  datatype Result<+T, +E> = Ok(value: T) | Err(error: E)

  function LowerChar(c: char): char { if 'A' <= c <= 'Z' then c - 'A' + 'a' else c }

  function Lower(s: string): (r: string)
    ensures |r| == |s|
  {
    if s == "" then "" else [LowerChar(s[0])] + Lower(s[1..])
  }

  predicate SameLetter(a: char, b: char) {
    a == b || ('A' <= a <= 'Z' && b as int == a as int + 32) || ('A' <= b <= 'Z' && a as int == b as int + 32)
  }

  /** Letter for letter the same, but for the case of A to Z. */
  predicate SameButCase(a: string, b: string) {
    |a| == |b| && forall i :: 0 <= i < |a| ==> SameLetter(a[i], b[i])
  }

  lemma {:induction false} LowerAlike(a: string, b: string)
    ensures Lower(a) == Lower(b) <==> SameButCase(a, b)
    decreases |a|
  {
    if a == "" || b == "" {
    } else {
      LowerAlike(a[1..], b[1..]);
      assert Lower(a)[0] == LowerChar(a[0]) && Lower(a)[1..] == Lower(a[1..]);
      assert Lower(b)[0] == LowerChar(b[0]) && Lower(b)[1..] == Lower(b[1..]);
      assert LowerChar(a[0]) == LowerChar(b[0]) <==> SameLetter(a[0], b[0]);
      assert SameButCase(a, b) <==> SameLetter(a[0], b[0]) && SameButCase(a[1..], b[1..]) by {
        if SameLetter(a[0], b[0]) && SameButCase(a[1..], b[1..]) {
          forall i | 0 <= i < |a| ensures SameLetter(a[i], b[i]) {
            if i > 0 { assert a[1..][i - 1] == a[i] && b[1..][i - 1] == b[i]; }
          }
        }
      }
    }
  }
}
