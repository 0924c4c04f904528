/**
 * Text form of the record identifiers the store assigns.
 *
 * A MongoDB ObjectId is twelve bytes, written as 24 lower-case hexadecimal digits;
 * `ObjectId(s)` is modelled as accepting exactly 24 hexadecimal digits of either case and
 * raising otherwise.
 * The model numbers records with a natural number and renders it in that 24-digit form.
 */
module ObjectIds {
  import opened Wrappers

  const Width: nat := 24

  /** 16^24: the number of distinct 24-digit hexadecimal ids. */
  const IdSpace: nat := 0x1_0000_0000_0000_0000_0000_0000

  function Pow16(n: nat): (r: nat)
    ensures r >= 1
  {
    if n == 0 then 1 else 16 * Pow16(n - 1)
  }

  lemma {:induction false} Pow16Add(a: nat, b: nat)
    ensures Pow16(a + b) == Pow16(a) * Pow16(b)
    decreases a
  {
    if a > 0 {
      Pow16Add(a - 1, b);
      assert Pow16(a + b) == 16 * Pow16(a - 1 + b);
    }
  }

  lemma IdSpaceIsPow16()
    ensures IdSpace == Pow16(Width)
  {
    assert Pow16(3) == 0x1000;
    Pow16Add(3, 3);
    Pow16Add(6, 6);
    Pow16Add(12, 12);
  }

  predicate IsHexDigit(c: char) {
    ('0' <= c <= '9') || ('a' <= c <= 'f') || ('A' <= c <= 'F')
  }

  function DigitChar(d: nat): (c: char)
    requires d < 16
    ensures IsHexDigit(c) && DigitValue(c) == d
  {
    if d < 10 then '0' + d as char else 'a' + (d - 10) as char
  }

  function DigitValue(c: char): (d: nat)
    requires IsHexDigit(c)
    ensures d < 16
  {
    if '0' <= c <= '9' then (c - '0') as nat
    else if 'a' <= c <= 'f' then (c - 'a') as nat + 10
    else (c - 'A') as nat + 10
  }

  /** The last `width` hexadecimal digits of `n`, most significant first. */
  function ToHex(n: nat, width: nat): (s: string)
    ensures |s| == width
    ensures forall i :: 0 <= i < |s| ==> IsHexDigit(s[i])
  {
    if width == 0 then "" else ToHex(n / 16, width - 1) + [DigitChar(n % 16)]
  }

  /** The number a string of hexadecimal digits denotes. */
  function HexValue(s: string): (n: nat)
    requires forall i :: 0 <= i < |s| ==> IsHexDigit(s[i])
    ensures n < Pow16(|s|)
  {
    if s == [] then 0
    else
      var hi := HexValue(s[..|s| - 1]);
      var lo := DigitValue(s[|s| - 1]);
      assert hi * 16 + lo < Pow16(|s|) by {
        assert hi + 1 <= Pow16(|s| - 1);
        assert (hi + 1) * 16 <= Pow16(|s| - 1) * 16;
      }
      hi * 16 + lo
  }

  /** The text under which a record id is shown to callers (`str(inserted_id)`). */
  function RenderId(id: nat): (s: string)
    ensures |s| == Width && forall i :: 0 <= i < |s| ==> IsHexDigit(s[i])
  {
    ToHex(id, Width)
  }

  /** `ObjectId(s)`: `None` stands for the InvalidId exception. */
  function ParseObjectId(s: string): (r: Option<nat>)
    ensures r.Some? <==> |s| == Width && forall i :: 0 <= i < |s| ==> IsHexDigit(s[i])
    ensures r.Some? ==> r.value < IdSpace
  {
    if |s| == Width && forall i :: 0 <= i < |s| ==> IsHexDigit(s[i]) then
      IdSpaceIsPow16();
      Some(HexValue(s))
    else None
  }

  /** Reading back the digits `ToHex` wrote gives the number, when it fits in `width` digits. */
  lemma {:induction false} HexRoundTrip(n: nat, width: nat)
    requires n < Pow16(width)
    ensures HexValue(ToHex(n, width)) == n
  {
    if width > 0 {
      var s := ToHex(n, width);
      assert s[..|s| - 1] == ToHex(n / 16, width - 1);
      assert n / 16 < Pow16(width - 1);
      HexRoundTrip(n / 16, width - 1);
    }
  }

  /** Every id a store can hand out parses back from the text it is shown as. */
  lemma IdRoundTrip(id: nat)
    requires id < IdSpace
    ensures ParseObjectId(RenderId(id)) == Some(id)
  {
    IdSpaceIsPow16();
    HexRoundTrip(id, Width);
  }

  /** Distinct ids below 16^24 are shown as distinct texts. */
  lemma RenderIdInjective(a: nat, b: nat)
    requires a < IdSpace && b < IdSpace && a != b
    ensures RenderId(a) != RenderId(b)
  {
    IdRoundTrip(a);
    IdRoundTrip(b);
  }
}
