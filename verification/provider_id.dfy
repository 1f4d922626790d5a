/** The provider unique ID: a djb2-style hash `h := h * 33 + c` over the
    bytes of the provider name, starting from 0, computed in 32-bit `int`,
    followed by `abs`. Each `char` of a model string stands for one byte of
    the C++ `std::string`; the byte is read as a signed `char`. */
module ProviderId {
  import opened Common
  import Int32

  /** The value a byte takes when read through a signed `char`. */
  function ByteValue(c: char): (v: int)
    ensures -128 <= v < 128
    ensures (v - c as int) % 256 == 0
  {
    var b := c as int % 256;
    if b < 128 then b else b - 256
  }

  function Pow33(n: nat): nat {
    if n == 0 then 1 else 33 * Pow33(n - 1)
  }

  /** The exact polynomial the hash evaluates: the sum of each byte times
      33 raised to the number of bytes after it. */
  function Weighted(s: string): int {
    if |s| == 0 then 0 else ByteValue(s[0]) * Pow33(|s| - 1) + Weighted(s[1..])
  }

  /** The running 32-bit value after the loop has consumed all of `s`. */
  function Fold(s: string): (h: int)
    ensures Int32.InRange(h)
    decreases |s|
  {
    if |s| == 0 then 0 else Int32.Wrap(Fold(s[..|s| - 1]) * 33 + ByteValue(s[|s| - 1]))
  }

  /** Appending a byte multiplies the polynomial by 33 and adds the byte. */
  lemma {:induction false} WeightedSnoc(p: string, c: char)
    ensures Weighted(p + [c]) == 33 * Weighted(p) + ByteValue(c)
  {
    if |p| == 0 {
      assert Weighted([c]) == ByteValue(c) * Pow33(0) + Weighted([]);
    } else {
      var s := p + [c];
      assert s[1..] == p[1..] + [c];
      WeightedSnoc(p[1..], c);
      assert Pow33(|s| - 1) == 33 * Pow33(|p| - 1);
      calc {
        Weighted(s);
        ByteValue(p[0]) * Pow33(|s| - 1) + Weighted(p[1..] + [c]);
        ByteValue(p[0]) * (33 * Pow33(|p| - 1)) + 33 * Weighted(p[1..]) + ByteValue(c);
        { assert ByteValue(p[0]) * (33 * Pow33(|p| - 1)) == 33 * (ByteValue(p[0]) * Pow33(|p| - 1)); }
        33 * Weighted(p) + ByteValue(c);
      }
    }
  }

  /** Wrapping at every step gives the same value as computing the exact
      polynomial and wrapping once. */
  lemma {:induction false} FoldIsWrappedWeighted(s: string)
    ensures Fold(s) == Int32.Wrap(Weighted(s))
  {
    if |s| > 0 {
      var p := s[..|s| - 1];
      var c := s[|s| - 1];
      assert s == p + [c];
      FoldIsWrappedWeighted(p);
      WeightedSnoc(p, c);
      Int32.WrapAffine(Fold(p), Weighted(p), 33, ByteValue(c));
    }
  }

  /** `GenerateProviderUniqueId`: the hash of the name up to its first NUL,
      wrapped to 32 bits, then made non-negative (except for INT_MIN, which
      `abs` cannot negate). */
  function GenerateProviderUniqueId(name: string): (id: int)
    ensures Int32.InRange(id)
    ensures id == Int32.Abs(Int32.Wrap(Weighted(CString(name))))
    ensures 0 <= id || id == Int32.Min
  {
    FoldIsWrappedWeighted(CString(name));
    Int32.Abs(Fold(CString(name)))
  }

  /** The empty name hashes to 0. */
  lemma UniqueIdOfEmpty()
    ensures GenerateProviderUniqueId("") == 0
  {
  }

  /** "abc" hashes to |(97 * 33 + 98) * 33 + 99| = 108966. */
  lemma UniqueIdOfAbc()
    ensures GenerateProviderUniqueId("abc") == 108966
  {
    assert CString("abc") == "abc" by { CStringOfNulFree("abc"); }
    assert Fold("a") == 97;
    assert Fold("ab") == 97 * 33 + 98 by { assert "ab"[..1] == "a"; }
    assert Fold("abc") == (97 * 33 + 98) * 33 + 99 by { assert "abc"[..2] == "ab"; }
  }

  /** A non-ASCII name is hashed through its UTF-8 bytes, read as signed
      `char`s: "ö" is the bytes C3 B6, which enter as -61 and -74, so the
      UID is |-61 * 33 - 74| = 2087. */
  lemma UniqueIdOfUtf8Umlaut()
    ensures GenerateProviderUniqueId("\U{C3}\U{B6}") == 2087
  {
    var name := "\U{C3}\U{B6}";
    assert CString(name) == name by { CStringOfNulFree(name); }
    assert ByteValue(name[0]) == -61 && ByteValue(name[1]) == -74;
    assert Fold(name[..1]) == -61;
    assert Fold(name) == -61 * 33 - 74;
  }

  /** The hash loop stops at the first NUL byte. */
  lemma UniqueIdStopsAtNul(prefix: string, rest: string)
    requires '\0' !in prefix
    ensures GenerateProviderUniqueId(prefix + ['\0'] + rest) == GenerateProviderUniqueId(prefix)
  {
    CStringOfNulFree(prefix);
    CStringPrefix(prefix, rest);
  }

  lemma {:induction false} CStringPrefix(prefix: string, rest: string)
    requires '\0' !in prefix
    ensures CString(prefix + ['\0'] + rest) == prefix
  {
    if |prefix| > 0 {
      assert (prefix + ['\0'] + rest)[1..] == prefix[1..] + ['\0'] + rest;
      CStringPrefix(prefix[1..], rest);
    }
  }
}
