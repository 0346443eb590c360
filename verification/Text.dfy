// Decimal printing, and names that are glued together with a separator: chunk
// keys ("%d"), blob paths (dir/file/chunk) and topic names ("%s_%s").
module Text {
  function Digit(d: nat): char
    requires d < 10
  {
    '0' + d as char
  }

  function Digits(n: nat): string {
    if n < 10 then [Digit(n)] else Digits(n / 10) + [Digit(n % 10)]
  }

  // Go's fmt.Sprintf("%d", n).
  function Decimal(n: int): string {
    if n < 0 then "-" + Digits(-n) else Digits(n)
  }

  function Value(s: string): int {
    if s == [] then 0 else 10 * Value(s[..|s| - 1]) + (s[|s| - 1] as int - '0' as int)
  }

  lemma {:induction false} DigitsReadBack(n: nat)
    ensures Digits(n) != []
    ensures Value(Digits(n)) == n
    ensures forall i :: 0 <= i < |Digits(n)| ==> '0' <= Digits(n)[i] <= '9'
  {
    if n < 10 {
      assert Digits(n)[..0] == [];
    } else {
      DigitsReadBack(n / 10);
      var s := Digits(n);
      assert s[..|s| - 1] == Digits(n / 10);
    }
  }

  // A missing map entry reads as "", so it never looks like a printed number.
  lemma DecimalNonEmpty(n: int)
    ensures Decimal(n) != ""
  {
    DigitsReadBack(if n < 0 then -n else n);
  }

  lemma DecimalInjective(a: int, b: int)
    requires Decimal(a) == Decimal(b)
    ensures a == b
  {
    DigitsReadBack(if a < 0 then -a else a);
    DigitsReadBack(if b < 0 then -b else b);
    assert Decimal(a)[0] == Decimal(b)[0];
    if a < 0 && b < 0 {
      assert Digits(-a) == Decimal(a)[1..] == Decimal(b)[1..] == Digits(-b);
    }
  }

  // A numeral of n as people write it: digits only, no leading zero but in "0".
  predicate IsNumeral(s: string, n: nat) {
    s != [] && (forall i :: 0 <= i < |s| ==> '0' <= s[i] <= '9') && (s[0] == '0' ==> |s| == 1) && Value(s) == n
  }

  // ... and with a leading minus for a negative number.
  predicate IsDecimal(s: string, n: int) {
    if n < 0 then s != [] && s[0] == '-' && IsNumeral(s[1..], -n) else IsNumeral(s, n)
  }

  lemma {:induction false} DigitsAreNumeral(n: nat)
    ensures IsNumeral(Digits(n), n)
    ensures n > 0 ==> Digits(n)[0] != '0'
  {
    DigitsReadBack(n);
    if n >= 10 {
      DigitsAreNumeral(n / 10);
    }
  }

  lemma {:induction false} NumeralIsDigits(s: string, n: nat)
    requires IsNumeral(s, n)
    ensures s == Digits(n)
  {
    var before, last := s[..|s| - 1], s[|s| - 1];
    assert s == before + [last];
    if before == [] {
      assert Value(before) == 0;
    } else {
      NumeralPositive(before);
      NumeralIsDigits(before, Value(before));
      assert n / 10 == Value(before) && n % 10 == last as int - '0' as int;
    }
  }

  lemma {:induction false} NumeralPositive(s: string)
    requires s != [] && s[0] != '0' && forall i :: 0 <= i < |s| ==> '0' <= s[i] <= '9'
    ensures Value(s) > 0
  {
    if |s| > 1 {
      NumeralPositive(s[..|s| - 1]);
    } else {
      assert s[..0] == [];
    }
  }

  // Printing writes the one usual numeral.
  lemma DecimalIff(s: string, n: int)
    ensures s == Decimal(n) <==> IsDecimal(s, n)
  {
    if n < 0 {
      NegativeIff(s, -n);
    } else {
      DigitsIff(s, n);
    }
  }

  lemma DigitsIff(s: string, n: nat)
    ensures s == Digits(n) <==> IsNumeral(s, n)
  {
    DigitsAreNumeral(n);
    if IsNumeral(s, n) {
      NumeralIsDigits(s, n);
    }
  }

  lemma NegativeIff(s: string, n: nat)
    ensures s == "-" + Digits(n) <==> s != [] && s[0] == '-' && IsNumeral(s[1..], n)
  {
    assert ("-" + Digits(n))[1..] == Digits(n);
    if s != [] && s[0] == '-' {
      DigitsIff(s[1..], n);
      assert s == "-" + s[1..];
    } else {
      assert s != "-" + Digits(n);
    }
    DigitsIff(Digits(n), n);
  }

  function Join(left: string, sep: char, right: string): string {
    left + [sep] + right
  }

  // The first separator ends the left part, whatever the right part holds.
  lemma JoinInjective(a: string, x: string, b: string, y: string, sep: char)
    requires sep !in a && sep !in b
    requires Join(a, sep, x) == Join(b, sep, y)
    ensures a == b && x == y
  {
    var s := Join(a, sep, x);
    var t := Join(b, sep, y);
    assert s[|a|] == sep && t[|b|] == sep;
    assert forall i :: 0 <= i < |a| ==> s[i] == a[i];
    assert forall i :: 0 <= i < |b| ==> t[i] == b[i];
    assert a == s[..|a|] == t[..|b|] == b;
    assert x == s[|a| + 1..] == t[|b| + 1..] == y;
  }

  // LocalFS.UpdateChunk: filepath.Join(dirPath, fileID, "%d").
  function PathOf(dir: string, fileId: string, chunkId: int): (path: string)
    ensures path != ""
  {
    Join(dir, '/', Join(fileId, '/', Decimal(chunkId)))
  }

  // The path lies in the file's own directory under dir, and is named by the chunk id.
  predicate LiesIn(path: string, dir: string, fileId: string, chunkId: int) {
    var home := dir + "/" + fileId + "/";
    home <= path && IsDecimal(path[|home|..], chunkId)
  }

  lemma PathLiesIn(dir: string, fileId: string, chunkId: int)
    ensures LiesIn(PathOf(dir, fileId, chunkId), dir, fileId, chunkId)
  {
    var home := dir + "/" + fileId + "/";
    assert PathOf(dir, fileId, chunkId) == home + Decimal(chunkId);
    DecimalIff(Decimal(chunkId), chunkId);
  }

  // Generated ids (ULIDs) never hold a path separator.
  predicate ValidId(id: string) {
    '/' !in id
  }

  lemma PathInjective(dir: string, f: string, k: int, g: string, m: int)
    requires ValidId(f) && ValidId(g)
    requires PathOf(dir, f, k) == PathOf(dir, g, m)
    ensures f == g && k == m
  {
    var left := PathOf(dir, f, k);
    var right := PathOf(dir, g, m);
    assert Join(f, '/', Decimal(k)) == left[|dir| + 1..] == right[|dir| + 1..] == Join(g, '/', Decimal(m));
    JoinInjective(f, Decimal(k), g, Decimal(m), '/');
    DecimalInjective(k, m);
  }
}
