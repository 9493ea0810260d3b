/** The stable line colour of a phone on the session chart (`hashString` and `colorFromPhone`). */
module PhoneColour {
  import opened Common

  const TwoTo31: int := 0x8000_0000
  const TwoTo32: int := 0x1_0000_0000

  /** ECMAScript ToInt32: wrap an integer into the signed 32-bit range. */
  function ToInt32(x: int): (r: int)
    ensures -TwoTo31 <= r < TwoTo31
    ensures (x - r) % TwoTo32 == 0
  {
    var m := x % TwoTo32;
    if m >= TwoTo31 then m - TwoTo32 else m
  }

  /** `hash << 5` */
  function ShiftLeft5(h: int): int
  {
    ToInt32(ToInt32(h) * 32)
  }

  /** The value of `hash` after the loop has consumed `s`: `hash = charCode + ((hash << 5) - hash)`. */
  function HashOf(s: string): int
  {
    if s == [] then 0
    else
      var h := HashOf(s[..|s| - 1]);
      s[|s| - 1] as int + (ShiftLeft5(h) - h)
  }

  function Abs(x: int): nat
  {
    if x < 0 then -x else x
  }

  /** `hashString(str)`: the loop, then `Math.abs`. */
  method HashString(str: string) returns (hash: nat)
    ensures hash == Abs(HashOf(str))
  {
    var h := 0;
    var i := 0;
    while i < |str|
      invariant 0 <= i <= |str|
      invariant h == HashOf(str[..i])
    {
      assert str[..i + 1][..i] == str[..i];
      h := str[i] as int + (ShiftLeft5(h) - h);
      i := i + 1;
    }
    assert str[..|str|] == str;
    hash := Abs(h);
  }

  /** `'#888888'` or `hsl(hue, 70%, 55%)` */
  datatype Colour = Grey | Hue(hue: nat)

  /** `colorFromPhone(phone)`: grey for a falsy phone, otherwise a hue in 0..359 fixed by the phone. */
  method ColourFromPhone(phone: Option<string>) returns (c: Colour)
    ensures !Truthy(phone) <==> c == Grey
    ensures c.Hue? ==> c.hue < 360 && c.hue == Abs(HashOf(phone.value)) % 360
  {
    if !Truthy(phone) {
      return Grey;
    }
    var hash := HashString(phone.value);
    c := Hue(hash % 360);
  }
}
