/** ANSI terminal colours (color/color.go): wrapping a string in a colour
    code and the reset code, and choosing red or green by the sign of an
    amount. */
module Color {

  const Reset: string := "\U{1B}[0m"
  const Red: string := "\U{1B}[31m"
  const Green: string := "\U{1B}[32m"
  const Yellow: string := "\U{1B}[33m"
  const Gray: string := "\U{1B}[37m"

  /** True when `s` is `text` between the colour code `color` and Reset. */
  predicate Wraps(s: string, color: string, text: string) {
    && |s| == |color| + |text| + |Reset|
    && s[..|color|] == color
    && s[|color|..|s| - |Reset|] == text
    && s[|s| - |Reset|..] == Reset
  }

  /** colorize for a string argument. */
  function Colorize(color: string, s: string): (r: string)
    ensures Wraps(r, color, s)
  {
    var r := color + s + Reset;
    assert r[..|color|] == color;
    assert r[|color|..|r| - |Reset|] == s;
    r
  }

  /** The text inside a colorized string: the inverse of Colorize. */
  function Uncolorize(color: string, r: string): (s: string)
    requires |r| >= |color| + |Reset|
  {
    r[|color|..|r| - |Reset|]
  }

  lemma UncolorizeColorize(color: string, s: string)
    ensures Uncolorize(color, Colorize(color, s)) == s
  {
  }

  /** Different colour codes of equal length never produce the same text. */
  lemma {:induction false} ColorizeDistinguishes(c1: string, c2: string, s1: string, s2: string)
    requires |c1| == |c2| && c1 != c2
    ensures Colorize(c1, s1) != Colorize(c2, s2)
  {
    var r1, r2 := Colorize(c1, s1), Colorize(c2, s2);
    assert r1[..|c1|] == c1;
    assert r2[..|c2|] == c2;
  }

  function InRed(s: string): (r: string)
    ensures Wraps(r, Red, s)
  {
    Colorize(Red, s)
  }

  function InGreen(s: string): (r: string)
    ensures Wraps(r, Green, s)
  {
    Colorize(Green, s)
  }

  function InYellow(s: string): (r: string)
    ensures Wraps(r, Yellow, s)
  {
    Colorize(Yellow, s)
  }

  function InGray(s: string): (r: string)
    ensures Wraps(r, Gray, s)
  {
    Colorize(Gray, s)
  }

  /** Red for a negative amount, green otherwise (zero included). */
  function ByAmount(amount: real, str: string): (r: string)
    ensures r == InRed(str) <==> amount < 0.0
    ensures r == InGreen(str) <==> amount >= 0.0
    ensures Uncolorize(Red, r) == str
  {
    ColorizeDistinguishes(Red, Green, str, str);
    if amount < 0.0 then InRed(str) else InGreen(str)
  }
}
