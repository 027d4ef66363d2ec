/** The colour palette the chat server paints display names with: "select
    graphic rendition" (SGR) control sequences, section 8.3.117 of ECMA-48.
    Parameters 31-36 (and 0, the reset) are ECMA-48 foreground colours;
    parameters 91-96 are the widespread bright-foreground extension, which
    ECMA-48 does not define. */
module Colours {

  /** The ESCAPE control character (0x1B) that opens every control sequence. */
  const Esc: char := '\U{1B}'

  function DigitChar(d: nat): char
    requires d < 10
  {
    "0123456789"[d]
  }

  /** Decimal notation of an SGR parameter below 100, without leading zeros. */
  function Decimal(p: nat): string
    requires p < 100
  {
    if p < 10 then [DigitChar(p)] else [DigitChar(p / 10), DigitChar(p % 10)]
  }

  /** The control sequence ESC [ p m: select graphic rendition with parameter p. */
  function Sgr(p: nat): string
    requires p < 100
  {
    [Esc, '['] + Decimal(p) + ['m']
  }

  /** The SGR parameter of palette slot i: the six foreground colours 31..36
      (red, green, yellow, blue, magenta, cyan), then their bright
      variants 91..96. */
  function ColourParam(i: nat): nat
    requires i < 12
  {
    if i < 6 then 31 + i else 85 + i
  }

  /** The twelve colour codes, in the server's order. */
  function Palette(): (r: seq<string>)
    ensures |r| == 12
  {
    [ "\U{1B}[31m", "\U{1B}[32m", "\U{1B}[33m", "\U{1B}[34m", "\U{1B}[35m", "\U{1B}[36m",
      "\U{1B}[91m", "\U{1B}[92m", "\U{1B}[93m", "\U{1B}[94m", "\U{1B}[95m", "\U{1B}[96m" ]
  }

  /** Each palette slot holds the SGR sequence of its parameter, and no two
      slots hold the same code. */
  lemma PaletteIsSgr()
    ensures forall i :: 0 <= i < 12 ==> Palette()[i] == Sgr(ColourParam(i))
    ensures forall i, j :: 0 <= i < j < 12 ==> Palette()[i] != Palette()[j]
  {
  }

  /** The shape of a palette code, read off its characters: ESC [ then 3 or 9
      then a digit 1..6 then m. */
  predicate IsColour(s: string)
  {
    |s| == 5 && s[0] == Esc && s[1] == '[' && (s[2] == '3' || s[2] == '9')
    && '1' <= s[3] <= '6' && s[4] == 'm'
  }

  /** The palette holds exactly the codes of that shape. */
  lemma PaletteIff(s: string)
    ensures s in Palette() <==> IsColour(s)
  {
    if IsColour(s) {
      assert s == [Esc, '[', s[2], s[3], 'm'];
    }
  }

  /** The code that ends a coloured span: SGR with parameter 0, the default
      rendition. */
  function Reset(): (r: string)
    ensures r == Sgr(0)
    ensures |r| == 4 && r[0] == Esc
  {
    "\U{1B}[0m"
  }

  /** The colour allocator: the source draws the slot uniformly at random;
      here the drawn slot is a parameter. */
  function Pick(slot: nat): (c: string)
    requires slot < 12
    ensures c in Palette()
  {
    Palette()[slot]
  }
}
