/** Strings as the source sees them: `seq<char>` of Unicode scalar values, whose
    `String::len` is the number of bytes of their UTF-8 encoding. */
module Text {

  /** Number of bytes UTF-8 uses to encode `c`. */
  function Utf8Len(c: char): (n: nat)
    ensures 1 <= n <= 4
    ensures n == 1 <==> c as int < 0x80
  {
    if c as int < 0x80 then 1
    else if c as int < 0x800 then 2
    else if c as int < 0x1_0000 then 3
    else 4
  }

  /** `String::len`: the UTF-8 byte count of `s`. */
  function ByteLen(s: string): (n: nat)
    ensures n == 0 <==> s == []
  {
    if |s| == 0 then 0 else Utf8Len(s[0]) + ByteLen(s[1..])
  }

  predicate IsAscii(s: string)
  {
    forall i :: 0 <= i < |s| ==> s[i] as int < 0x80
  }

  /** The byte count is never below the character count and at most four times it. */
  lemma {:induction false} ByteLenBounds(s: string)
    ensures |s| <= ByteLen(s) <= 4 * |s|
  {
    if |s| > 0 {
      ByteLenBounds(s[1..]);
    }
  }

  /** The byte count exceeds the character count exactly when some character is not ASCII. */
  lemma {:induction false} ByteLenIsCharCountIffAscii(s: string)
    ensures ByteLen(s) == |s| <==> IsAscii(s)
  {
    if |s| > 0 {
      ByteLenIsCharCountIffAscii(s[1..]);
      ByteLenBounds(s[1..]);
      if IsAscii(s[1..]) && s[0] as int < 0x80 {
        forall i | 0 <= i < |s|
          ensures s[i] as int < 0x80
        {
          if i > 0 {
            assert s[i] == s[1..][i - 1];
          }
        }
      }
      if IsAscii(s) {
        forall i | 0 <= i < |s| - 1
          ensures s[1..][i] as int < 0x80
        {
          assert s[1..][i] == s[i + 1];
        }
      }
    }
  }

  /** `n` copies of `c`. */
  function Repeat(c: char, n: nat): (r: string)
    ensures |r| == n
    ensures forall i :: 0 <= i < n ==> r[i] == c
  {
    seq(n, _ => c)
  }
}
