/** The seven-colour neon palette and the rule that recolours a tile from the
    intensity of the motion that started it. A colour is a palette entry,
    named by its position in `Swatches`, with an alpha. */
module Palette {

  datatype Color = Color(swatch: nat, alpha: real)

  const Swatches: seq<string> :=
    ["#f72585", "#7209b7", "#3a0ca3", "#4361ee", "#4cc9f0", "#b5179e", "#00f5d4"]

  /** Palette entries 0, 1 and 5. */
  const HotSwatches: seq<nat> := [0, 1, 5]

  /** Palette entries 2, 3, 4 and 6. */
  const CoolSwatches: seq<nat> := [2, 3, 4, 6]

  /** Intensities strictly above this level give a hot colour. */
  const HotLevel: real := 0.4

  /** The hot and the cool colours split the palette: every palette entry is
      in exactly one of the two groups, and the groups hold nothing else. */
  lemma PaletteSplits()
    ensures |HotSwatches| + |CoolSwatches| == |Swatches|
    ensures forall s: int :: 0 <= s < |Swatches| <==> s in HotSwatches || s in CoolSwatches
    ensures forall s: int :: s in HotSwatches ==> s !in CoolSwatches
  {
    forall s: int | 0 <= s < |Swatches|
      ensures s in HotSwatches || s in CoolSwatches
    {
      if s == 0 || s == 1 || s == 5 {
        assert s == HotSwatches[if s == 0 then 0 else if s == 1 then 1 else 2];
      } else {
        assert s == CoolSwatches[if s == 2 then 0 else if s == 3 then 1 else if s == 4 then 2 else 3];
      }
    }
  }

  /** The colour a fresh tile starts with: a cool colour at alpha 180. `pick`
      stands for the library's uniform random choice among the cool colours. */
  function InitialColor(pick: nat): (c: Color)
    ensures c.swatch in CoolSwatches && c.alpha == 180.0
  {
    Color(CoolSwatches[pick % |CoolSwatches|], 180.0)
  }

  /** The colour chosen when an animation starts with the given intensity.
      `pick` stands for the uniform random choice within the chosen group. */
  function Recolor(intensity: real, pick: nat): (c: Color)
    ensures intensity > HotLevel ==> c.swatch in HotSwatches && c.alpha == 255.0
    ensures intensity <= HotLevel ==> c.swatch in CoolSwatches
    ensures intensity <= HotLevel ==> c.alpha == 120.0 + intensity * 135.0
    ensures 0.0 <= intensity <= 1.0 ==> 120.0 <= c.alpha <= 255.0
  {
    if intensity > HotLevel then
      Color(HotSwatches[pick % |HotSwatches|], 255.0)
    else
      Color(CoolSwatches[pick % |CoolSwatches|], 120.0 + intensity * 135.0)
  }

  /** Opacity never falls as the intensity rises, over the intensity range. */
  lemma AlphaMonotone(i: real, j: real, p: nat, q: nat)
    requires 0.0 <= i <= j <= 1.0
    ensures Recolor(i, p).alpha <= Recolor(j, q).alpha
  {
  }

  /** Every colour of the group an intensity selects can be the one chosen. */
  lemma RecolorReachesGroup(intensity: real, swatch: nat)
    requires intensity > HotLevel ==> swatch in HotSwatches
    requires intensity <= HotLevel ==> swatch in CoolSwatches
    ensures exists pick: nat :: Recolor(intensity, pick).swatch == swatch
  {
    var group := if intensity > HotLevel then HotSwatches else CoolSwatches;
    var k :| 0 <= k < |group| && group[k] == swatch;
    assert Recolor(intensity, k).swatch == swatch;
  }
}
