/** The colour palettes and the cyclic cursor over them (src/theme.rs). */
module Themes {

  newtype u8 = x: int | 0 <= x < 256

  datatype Color = Color(r: u8, g: u8, b: u8)

  /** A palette: one colour per element of the scene. */
  datatype Theme = Theme(
    sand: Color,            // sand at the bottom
    sandHighlight: Color,   // speckles in the sand
    water: Color,
    pipes: Color,
    bubbles: Color,
    text: Color,            // text on the screen
    sub: Color,             // the submarine
    fauna1: Color,
    fauna2: Color,
    fauna3: Color,
    fauna4: Color)
  {
    /** All eleven colours, in declaration order. */
    function Colors(): seq<Color> {
      [sand, sandHighlight, water, pipes, bubbles, text, sub, fauna1, fauna2, fauna3, fauna4]
    }
  }

  /** COLOR_THEME */
  const ColorTheme := Theme(
    Color(244, 214, 164), Color(178, 147, 114), Color(74, 179, 219), Color(111, 191, 115),
    Color(136, 207, 241), Color(116, 100, 76), Color(128, 128, 255),
    Color(242, 140, 140), Color(42, 123, 79), Color(255, 111, 97), Color(139, 111, 169))

  /** GRAYSCALE_THEME: the grey levels of COLOR_THEME's colours. */
  const GrayscaleTheme := Theme(
    Color(213, 213, 213), Color(155, 155, 155), Color(142, 142, 142), Color(161, 161, 161),
    Color(196, 196, 196), Color(104, 104, 104), Color(128, 128, 128),
    Color(161, 161, 161), Color(93, 93, 93), Color(144, 144, 144), Color(116, 116, 116))

  /** THEME: warm sand, cyan water, mint pipes. */
  const ThemeOne := Theme(
    Color(245, 203, 123), Color(214, 163, 92), Color(93, 188, 210), Color(129, 199, 132),
    Color(171, 222, 239), Color(89, 80, 66), Color(128, 128, 255),
    Color(243, 156, 18), Color(39, 174, 96), Color(231, 76, 60), Color(155, 89, 182))

  /** THEME_2: beige sand, sky-blue water, teal pipes. */
  const ThemeTwo := Theme(
    Color(232, 198, 135), Color(192, 157, 104), Color(89, 168, 245), Color(84, 153, 124),
    Color(156, 209, 247), Color(70, 63, 55), Color(128, 128, 255),
    Color(255, 87, 51), Color(46, 204, 113), Color(240, 147, 43), Color(128, 90, 213))

  /** The palettes a switcher cycles through, in order. */
  const Palettes: seq<Theme> := [ColorTheme, GrayscaleTheme, ThemeOne, ThemeTwo]

  predicate IsGray(c: Color) {
    c.r == c.g && c.g == c.b
  }

  /** Every colour of the grayscale palette has equal red, green and blue. */
  lemma GrayscaleThemeIsGray()
    ensures forall c :: c in GrayscaleTheme.Colors() ==> IsGray(c)
  {
  }

  /** The index `next` moves to: one further, wrapping at the end of the list. */
  function NextIndex(i: nat, count: nat): (j: nat)
    requires count > 0
    ensures j < count
    ensures i + 1 < count ==> j == i + 1
    ensures i + 1 == count ==> j == 0
  {
    (i + 1) % count
  }

  /** The index after `k` calls of `next`, starting from `i`. */
  function Advance(i: nat, count: nat, k: nat): nat
    requires count > 0
  {
    if k == 0 then i else NextIndex(Advance(i, count, k - 1), count)
  }

  /** With the four palettes of a fresh switcher, `k` calls of `next` move
      the cursor `k` places round the list; from a fresh switcher the index
      is `k mod 4`, so four calls come back to the first theme. */
  lemma {:induction false} AdvanceIsModular(i: nat, k: nat)
    requires i < 4
    ensures Advance(i, 4, k) == (i + k) % 4
  {
    if k > 0 {
      AdvanceIsModular(i, k - 1);
      ModSucc4(i + k - 1);
    }
  }

  /** Four calls of `next` come back to the palette they started from. */
  lemma FourCallsReturn(i: nat)
    requires i < 4
    ensures Advance(i, 4, 4) == i
  {
    AdvanceIsModular(i, 4);
  }

  lemma ModSucc4(a: nat)
    ensures ((a % 4) + 1) % 4 == (a + 1) % 4
  {
    var q := a / 4;
    assert a == 4 * q + a % 4;
    if a % 4 == 3 {
      assert a + 1 == 4 * (q + 1);
    } else {
      assert a + 1 == 4 * q + (a % 4 + 1);
    }
  }

  /** ThemeSwitcher: a fixed list of palettes and a cursor into it. */
  class ThemeSwitcher {
    var currentThemeIdx: nat
    const themes: seq<Theme>

    ghost predicate Valid()
      reads this
    {
      currentThemeIdx < |themes|
    }

    constructor ()
      ensures Valid()
      ensures currentThemeIdx == 0
      ensures themes == Palettes
    {
      currentThemeIdx := 0;
      themes := Palettes;
    }

    /** The active palette; reading it changes nothing. */
    function Current(): (t: Theme)
      requires Valid()
      reads this
      ensures t in themes
    {
      themes[currentThemeIdx]
    }

    /** Advances the cursor cyclically and returns the palette now active. */
    method Next() returns (t: Theme)
      requires Valid()
      modifies this`currentThemeIdx
      ensures Valid()
      ensures currentThemeIdx == NextIndex(old(currentThemeIdx), |themes|)
      ensures t == Current()
    {
      currentThemeIdx := (currentThemeIdx + 1) % |themes|;
      t := themes[currentThemeIdx];
    }
  }
}
