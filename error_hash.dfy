/** `generateErrorHash`: a 32-bit rolling hash over the UTF-16 code units of
    `message + "|" + (stack ?? "")`, rendered with `toString()`. */
module ErrorHash {

  import opened Interfaces
  import Text

  const TWO_31: int := 0x8000_0000
  const TWO_32: int := 0x1_0000_0000

  /** ECMAScript ToInt32: reduce modulo 2^32 into the signed range. */
  function ToInt32(x: int): (r: int)
    ensures -TWO_31 <= r < TWO_31
    ensures (x - r) % TWO_32 == 0
  {
    (x + TWO_31) % TWO_32 - TWO_31
  }

  /** ToInt32 only depends on its argument modulo 2^32. */
  lemma ToInt32Congruent(x: int, y: int)
    requires (x - y) % TWO_32 == 0
    ensures ToInt32(x) == ToInt32(y)
  {
    var q := (x - y) / TWO_32;
    assert x == y + q * TWO_32;
    assert (x + TWO_31) % TWO_32 == (y + TWO_31 + q * TWO_32) % TWO_32;
  }

  /** One step of the loop: `hash = (hash << 5) - hash + c; hash |= 0`.
      `hash << 5` converts to 32 bits before shifting; the subtraction and the
      addition are exact in double precision at these magnitudes. */
  function Step(hash: int, c: Text.CodeUnit): int
  {
    ToInt32(ToInt32(hash * 32) - hash + c)
  }

  /** The step is multiplication by 31 and addition, wrapped to 32 bits. */
  lemma StepIsTimes31(hash: int, c: Text.CodeUnit)
    ensures Step(hash, c) == ToInt32(31 * hash + c)
  {
    var s := ToInt32(hash * 32);
    assert (hash * 32 - s) % TWO_32 == 0;
    ToInt32Congruent(s - hash + c, 31 * hash + c);
  }

  /** The hash of a sequence of code units, folding from the left and starting at 0. */
  function HashUnits(units: seq<Text.CodeUnit>): (h: int)
    ensures -TWO_31 <= h < TWO_31
  {
    if units == [] then 0 else Step(HashUnits(units[..|units| - 1]), units[|units| - 1])
  }

  /** The same polynomial without any wrap-around: sum of c_i * 31^(n-1-i). */
  function Polynomial(units: seq<Text.CodeUnit>): int
  {
    if units == [] then 0 else 31 * Polynomial(units[..|units| - 1]) + units[|units| - 1]
  }

  lemma ScaleCongruent(p: int, h: int)
    requires (p - h) % TWO_32 == 0
    ensures (31 * h - 31 * p) % TWO_32 == 0
  {
    var q := (p - h) / TWO_32;
    assert p - h == q * TWO_32;
    assert (31 * h) - (31 * p) == (-31 * q) * TWO_32;
  }

  /** The 32-bit hash is the unbounded polynomial reduced to a signed 32-bit value:
      wrapping after every step loses nothing against wrapping once at the end. */
  lemma {:induction false} HashIsWrappedPolynomial(units: seq<Text.CodeUnit>)
    ensures HashUnits(units) == ToInt32(Polynomial(units))
  {
    if units != [] {
      var init, c := units[..|units| - 1], units[|units| - 1];
      HashIsWrappedPolynomial(init);
      var h, p := HashUnits(init), Polynomial(init);
      StepIsTimes31(h, c);
      ScaleCongruent(p, h);
      ToInt32Congruent(31 * h + c, 31 * p + c);
    }
  }

  /** The string that is hashed: `${message}|${stack ?? ''}`. */
  function HashInput(err: TrackedError): string
  {
    err.message + "|" + (match err.stack case Some(s) => s case None => "")
  }

  /** The hash string of an error: the decimal rendering of the wrapped polynomial
      over the code units of its hash input. */
  function ErrorHash(err: TrackedError): string
  {
    Text.IntToString(HashUnits(Text.Utf16(HashInput(err))))
  }

  /** The hash string is the decimal rendering of the wrapped polynomial over
      the code units of the hash input. */
  lemma ErrorHashIsPolynomial(err: TrackedError)
    ensures ErrorHash(err) == Text.IntToString(ToInt32(Polynomial(Text.Utf16(HashInput(err)))))
  {
    HashIsWrappedPolynomial(Text.Utf16(HashInput(err)));
  }

  /** The hash depends on the message and the stack and on nothing else. */
  lemma ErrorHashOfSignature(a: TrackedError, b: TrackedError)
    requires a.message == b.message && a.stack == b.stack
    ensures ErrorHash(a) == ErrorHash(b)
  {
  }

  /** The code units of "a|" hash to 97 * 31 + 124 = 3131. */
  lemma HashOfBar()
    ensures HashUnits(Text.Utf16("a|")) == 3131
  {
    Text.Utf16Ascii("a|");
    var u := Text.Utf16("a|");
    assert u == [97, 124];
    assert u[..1] == [97] && u[..1][..0] == [];
    assert ToInt32(0) == 0 && ToInt32(97) == 97;
    assert HashUnits([97]) == 97;
    assert ToInt32(3104) == 3104 && ToInt32(3131) == 3131;
    assert HashUnits(u) == Step(97, 124);
  }

  lemma Decimal3131()
    ensures Text.IntToString(3131) == "3131"
  {
    assert Text.NatToDecimal(3) == "3" && Text.NatToDecimal(31) == "31";
    assert Text.NatToDecimal(313) == "313";
    assert Text.NatToDecimal(3131) == "3131";
  }

  /** A message "a" without a stack hashes "a|": 97 * 31 + 124 = 3131. */
  lemma ErrorHashExample(err: TrackedError)
    requires err.message == "a" && err.stack.None?
    ensures ErrorHash(err) == "3131"
  {
    assert HashInput(err) == "a|";
    HashOfBar();
    Decimal3131();
  }

  /** Two errors get the same hash string exactly when their code-unit hashes agree. */
  lemma SameHashString(a: TrackedError, b: TrackedError)
    ensures ErrorHash(a) == ErrorHash(b) <==>
            HashUnits(Text.Utf16(HashInput(a))) == HashUnits(Text.Utf16(HashInput(b)))
  {
    Text.IntToStringInjective(HashUnits(Text.Utf16(HashInput(a))), HashUnits(Text.Utf16(HashInput(b))));
  }

  /** The loop of `generateErrorHash` over the code units of the hash input. */
  method GenerateErrorHash(err: TrackedError) returns (hash: string)
    ensures hash == ErrorHash(err)
  {
    var str := Text.Utf16(HashInput(err));
    var h := 0;
    var i := 0;
    while i < |str|
      invariant 0 <= i <= |str|
      invariant h == HashUnits(str[..i])
    {
      assert str[..i + 1][..i] == str[..i];
      h := ToInt32(ToInt32(h * 32) - h + str[i]);
      i := i + 1;
    }
    assert str[..|str|] == str;
    hash := Text.IntToString(h);
  }
}
