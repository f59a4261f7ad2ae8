/** The fixed-width integers of the C and C++ sources, and the arithmetic they wrap in. */
module Words {
  type U8 = x: int | 0 <= x < 0x100
  type U16 = x: int | 0 <= x < 0x1_0000
  type U32 = x: int | 0 <= x < 0x1_0000_0000
  type U64 = x: int | 0 <= x < 0x1_0000_0000_0000_0000
  type I32 = x: int | -0x8000_0000 <= x < 0x8000_0000
  type I64 = x: int | -0x8000_0000_0000_0000 <= x < 0x8000_0000_0000_0000

  /** Conversion to `uint64_t`: the residue modulo 2^64. */
  function Wrap64(x: int): U64 {
    x % 0x1_0000_0000_0000_0000
  }

  /** Conversion to `int64_t`: the two's-complement reading of the residue. */
  function Signed64(x: int): I64 {
    var w := Wrap64(x);
    if w < 0x8000_0000_0000_0000 then w else w - 0x1_0000_0000_0000_0000
  }

  function Max(a: int, b: int): (r: int)
    ensures r >= a && r >= b && (r == a || r == b)
  {
    if a < b then b else a
  }

  function Min(a: int, b: int): (r: int)
    ensures r <= a && r <= b && (r == a || r == b)
  {
    if a < b then a else b
  }

  predicate ApartBy(a: int, b: int, laps: int) {
    a - b == laps * 0x1_0000_0000_0000_0000
  }

  /** Congruence modulo 2^64. */
  ghost predicate Same64(a: int, b: int) {
    exists laps :: ApartBy(a, b, laps)
  }

  lemma SameAdd(a: int, b: int, c: int, d: int)
    requires Same64(a, b) && Same64(c, d)
    ensures Same64(a + c, b + d)
  {
    var i :| ApartBy(a, b, i);
    var j :| ApartBy(c, d, j);
    assert ApartBy(a + c, b + d, i + j);
  }

  /** Congruence depends on the difference only. */
  lemma SameDifference(a: int, b: int, c: int, d: int)
    requires Same64(a, b) && c - d == a - b
    ensures Same64(c, d)
  {
    var i :| ApartBy(a, b, i);
    assert ApartBy(c, d, i);
  }

  lemma SameTransitive(a: int, b: int, c: int)
    requires Same64(a, b) && Same64(b, c)
    ensures Same64(a, c)
  {
    SameAdd(a, b, b, c);
    SameDifference(a + b, b + c, a, c);
  }

  lemma SameSymmetric(a: int, b: int)
    requires Same64(a, b)
    ensures Same64(b, a)
  {
    var i :| ApartBy(a, b, i);
    assert ApartBy(b, a, -i);
  }

  lemma SameSelf(a: int)
    ensures Same64(a, a)
  {
    assert ApartBy(a, a, 0);
  }

  /** Congruent numbers are those with the same residue. */
  lemma SameIsEqualWrap(a: int, b: int)
    ensures Same64(a, b) <==> Wrap64(a) == Wrap64(b)
  {
    var q, r := a / 0x1_0000_0000_0000_0000 - b / 0x1_0000_0000_0000_0000, Wrap64(a) - Wrap64(b);
    assert a - b == q * 0x1_0000_0000_0000_0000 + r;
    if Same64(a, b) {
      var i :| ApartBy(a, b, i);
    } else {
      assert !ApartBy(a, b, q);
    }
  }

  lemma WrapWord(x: U64)
    ensures Wrap64(x) == x
  {
  }

  lemma WrapAdd(a: int, b: int)
    ensures Wrap64(Wrap64(a) + b) == Wrap64(a + b)
  {
  }

  lemma SameWrap(a: int)
    ensures Same64(Wrap64(a), a)
    ensures Same64(Signed64(a), a)
  {
    var q := a / 0x1_0000_0000_0000_0000;
    assert ApartBy(Wrap64(a), a, -q);
    assert ApartBy(Signed64(a), a, if Signed64(a) == Wrap64(a) then -q else -q - 1);
  }
}
