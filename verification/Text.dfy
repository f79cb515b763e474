/** Text conditions that every layer of the service puts on identifiers. */
module Text {

  /** White space as Go's `strings.TrimSpace` understands it. */
  predicate IsSpace(c: char) {
    || c == ' '
    || '\t' <= c <= '\r'
    || c == '\U{85}'
    || c == '\U{A0}'
    || c == '\U{1680}'
    || '\U{2000}' <= c <= '\U{200A}'
    || c == '\U{2028}'
    || c == '\U{2029}'
    || c == '\U{202F}'
    || c == '\U{205F}'
    || c == '\U{3000}'
  }

  /** Trimming white space from both ends leaves `s` unchanged. */
  predicate Trimmed(s: string) {
    s != "" ==> !IsSpace(s[0]) && !IsSpace(s[|s| - 1])
  }

  /** The `validID` test repeated in the wallet, wagering, ledger and event packages. */
  predicate ValidID(s: string) {
    s != "" && Trimmed(s)
  }

  predicate IsHex(c: char) {
    '0' <= c <= '9' || 'a' <= c <= 'f'
  }

  function CountHex(s: string): nat {
    if s == "" then 0 else (if IsHex(s[0]) then 1 else 0) + CountHex(s[1..])
  }

  /** `platformid.Validate`: hyphens are removed before decoding, so extra ones are tolerated
      as long as an even number of hexadecimal digits is left. */
  predicate ValidUuid(s: string) {
    && |s| == 36
    && s[8] == '-' && s[13] == '-' && s[18] == '-' && s[23] == '-'
    && (forall i :: 0 <= i < |s| ==> IsHex(s[i]) || s[i] == '-')
    && CountHex(s) % 2 == 0
  }

  lemma UuidIsValidID(s: string)
    requires ValidUuid(s)
    ensures ValidID(s)
  {
    assert IsHex(s[0]) || s[0] == '-';
    assert IsHex(s[35]) || s[35] == '-';
  }

  /** Lexicographic order of canonical UUID texts. */
  predicate TextLess(a: string, b: string) {
    if b == "" then false
    else if a == "" then true
    else a[0] < b[0] || (a[0] == b[0] && TextLess(a[1..], b[1..]))
  }

  lemma {:induction false} TextLessTotal(a: string, b: string)
    ensures TextLess(a, b) || TextLess(b, a) || a == b
    ensures !(TextLess(a, b) && TextLess(b, a))
  {
    if a != "" && b != "" {
      TextLessTotal(a[1..], b[1..]);
      assert a == [a[0]] + a[1..] && b == [b[0]] + b[1..];
    }
  }

  lemma {:induction false} TextLessTransitive(a: string, b: string, c: string)
    requires TextLess(a, b) && TextLess(b, c)
    ensures TextLess(a, c)
  {
    if a != "" && a[0] == b[0] == c[0] {
      TextLessTransitive(a[1..], b[1..], c[1..]);
    }
  }

  lemma TextLessIrreflexive(a: string)
    ensures !TextLess(a, a)
  {
    TextLessTotal(a, a);
  }

  // ----- Partners of the text conditions -----

  function TrimLeft(s: string): string {
    if s != "" && IsSpace(s[0]) then TrimLeft(s[1..]) else s
  }

  function TrimRight(s: string): string {
    if s != "" && IsSpace(s[|s| - 1]) then TrimRight(s[..|s| - 1]) else s
  }

  /** `strings.TrimSpace`. */
  function TrimSpace(s: string): string {
    TrimRight(TrimLeft(s))
  }

  lemma {:induction false} TrimShortens(s: string)
    ensures |TrimLeft(s)| <= |s| && |TrimRight(s)| <= |s|
  {
    if s != "" {
      TrimShortens(s[1..]);
      TrimShortens(s[..|s| - 1]);
    }
  }

  /** A valid id is exactly a text that is not empty and that trimming leaves alone. */
  lemma ValidIDMeansTrimmed(s: string)
    ensures ValidID(s) <==> s != "" && TrimSpace(s) == s
  {
    if s != "" && IsSpace(s[0]) {
      TrimShortens(s[1..]);
      TrimShortens(TrimLeft(s));
    } else if s != "" && IsSpace(s[|s| - 1]) {
      TrimShortens(s[..|s| - 1]);
    }
  }

  lemma {:induction false} CountHexAdds(a: string, b: string)
    ensures CountHex(a + b) == CountHex(a) + CountHex(b)
  {
    if a == "" {
      assert a + b == b;
    } else {
      CountHexAdds(a[1..], b);
      assert (a + b)[1..] == a[1..] + b;
    }
  }

  lemma {:induction false} CountHexAll(s: string)
    requires forall i :: 0 <= i < |s| ==> IsHex(s[i])
    ensures CountHex(s) == |s|
  {
    if s != "" {
      CountHexAll(s[1..]);
    }
  }

  /** A run of digits closed by a hyphen. */
  lemma CountGroup(s: string, i: nat, j: nat)
    requires i <= j < |s| && s[j] == '-' && forall k :: i <= k < j ==> IsHex(s[k])
    ensures CountHex(s[i..]) == j - i + CountHex(s[j + 1..])
  {
    var group, rest := s[i..j], s[j..];
    assert s[i..] == group + rest;
    CountHexAdds(group, rest);
    CountHexAll(group);
    assert rest[1..] == s[j + 1..];
  }

  predicate Hyphen(i: int) { i == 8 || i == 13 || i == 18 || i == 23 }

  /** 36 characters with hyphens in their four places and lower-case hexadecimal digits elsewhere. */
  predicate CanonicalUuid(s: string) {
    |s| == 36 && forall i :: 0 <= i < 36 ==> if Hyphen(i) then s[i] == '-' else '0' <= s[i] <= '9' || 'a' <= s[i] <= 'f'
  }

  lemma CanonicalCount(s: string)
    requires CanonicalUuid(s)
    ensures CountHex(s) == 32
  {
    CountHexAll(s[24..]);
    CountGroup(s, 19, 23);
    CountGroup(s, 14, 18);
    CountGroup(s, 9, 13);
    CountGroup(s, 0, 8);
    assert s[0..] == s;
  }

  /** Among texts with hyphens in the four places of a UUID and nowhere else, the valid ones are the
      canonical ones. */
  lemma UuidIsExact(s: string)
    requires forall i :: 0 <= i < |s| && s[i] == '-' ==> Hyphen(i)
    ensures ValidUuid(s) <==> CanonicalUuid(s)
  {
    if CanonicalUuid(s) {
      CanonicalCount(s);
    }
  }

  /** The texts agree before `n`, where the first ends or has the smaller character. */
  predicate LessAt(a: string, b: string, n: nat) {
    n <= |a| && n < |b| && a[..n] == b[..n] && (n == |a| || a[n] < b[n])
  }

  lemma {:induction false} TextLessIsLexicographic(a: string, b: string)
    ensures TextLess(a, b) <==> exists n: nat :: LessAt(a, b, n)
  {
    if a == "" || b == "" {
      if b != "" {
        assert LessAt(a, b, 0);
      }
    } else {
      TextLessIsLexicographic(a[1..], b[1..]);
      if a[0] < b[0] {
        assert LessAt(a, b, 0);
      }
      if n: nat :| LessAt(a[1..], b[1..], n) {
        assert a[0] == b[0] ==> a[..n + 1] == [a[0]] + a[1..][..n] == b[..n + 1];
        assert a[0] == b[0] ==> LessAt(a, b, n + 1);
      }
      if n: nat :| LessAt(a, b, n) {
        if n > 0 {
          assert a[0] == a[..n][0] == b[..n][0] == b[0];
          assert a[1..][..n - 1] == a[..n][1..] == b[..n][1..] == b[1..][..n - 1];
          assert LessAt(a[1..], b[1..], n - 1);
        }
      }
    }
  }
}
