/**
 * Sizing of the recess ("niche") cut into the wall for a niche installation.
 */
module Niche {
  import opened Wrappers
  import opened Equipment

  datatype NicheSize = NicheSize(width: real, height: real, depth: real)

  /**
   * JavaScript's `parseFloat(text) || fallback` on an already parsed input:
   * an unparsable or empty field (None) and a zero both give the fallback.
   */
  function OrDefault(input: Option<real>, fallback: real): real {
    if input.None? || input.value == 0.0 then fallback else input.value
  }

  /** Clearance per side, from the screen's raw (unrotated) width. */
  function GapSize(screenWidth: real): (gap: real)
    ensures gap == 1.5 || gap == 2.0
    ensures gap == 1.5 <==> screenWidth <= 55.0
  {
    if screenWidth <= 55.0 then 1.5 else 2.0
  }

  function PlayerDepth(mediaPlayer: Option<MediaPlayer>): real {
    if mediaPlayer.Some? then mediaPlayer.value.dimensions.depth else 0.0
  }

  function MountDepth(mount: Option<Mount>): real {
    if mount.Some? then mount.value.depth else 0.0
  }

  function Max(a: real, b: real): real {
    if a >= b then a else b
  }

  /**
   * The niche for the selected screen, media player and mount; the variance
   * input is the niche-depth field as parsed, which defaults to 1.
   */
  function CalculateNicheSize(screen: Option<Screen>, mediaPlayer: Option<MediaPlayer>, mount: Option<Mount>,
                              varianceInput: Option<real>): (n: NicheSize)
    ensures screen.None? ==> n == NicheSize(0.0, 0.0, 0.0)
    ensures screen.Some? ==>
              var s := screen.value;
              var gap := GapSize(s.width);
              // the same clearance on each of the four sides
              && n.width == s.width + 2.0 * gap
              && n.height == s.height + 2.0 * gap
              // the deeper of the player and the mount, a missing one counting as 0
              && var room := n.depth - s.depth - OrDefault(varianceInput, 1.0);
              && room >= PlayerDepth(mediaPlayer) && room >= MountDepth(mount)
              && (room == PlayerDepth(mediaPlayer) || room == MountDepth(mount))
  {
    if screen.None? then NicheSize(0.0, 0.0, 0.0)
    else
      var s := screen.value;
      var gap := GapSize(s.width);
      var variance := OrDefault(varianceInput, 1.0);
      NicheSize(s.width + gap * 2.0, s.height + gap * 2.0,
                s.depth + Max(PlayerDepth(mediaPlayer), MountDepth(mount)) + variance)
  }

  /** The variance field is used as given unless it is missing or zero. */
  lemma VarianceDefault(s: Screen, mediaPlayer: Option<MediaPlayer>, mount: Option<Mount>, varianceInput: Option<real>)
    ensures var n := CalculateNicheSize(Some(s), mediaPlayer, mount, varianceInput);
            var room := Max(PlayerDepth(mediaPlayer), MountDepth(mount));
            && (varianceInput.None? || varianceInput == Some(0.0) ==> n.depth == s.depth + room + 1.0)
            && (varianceInput.Some? && varianceInput.value != 0.0 ==> n.depth == s.depth + room + varianceInput.value)
  {
  }

  /** With neither a media player nor a mount the niche is screen depth plus variance. */
  lemma NoComponentsDepth(s: Screen, varianceInput: Option<real>)
    ensures CalculateNicheSize(Some(s), None, None, varianceInput).depth == s.depth + OrDefault(varianceInput, 1.0)
  {
  }

  /** A 55-inch-wide screen still gets the smaller gap. */
  lemma ScenarioSmallScreen()
    ensures CalculateNicheSize(Some(Screen("s", "m", 55.0, 31.0, 3.0, None)), None, None, Some(1.0))
            == NicheSize(58.0, 34.0, 4.0)
  {
  }

  /** A 65-inch-wide screen with a 2-inch mount and a 1.5-inch player. */
  lemma ScenarioLargeScreen()
    ensures CalculateNicheSize(Some(Screen("s", "m", 65.0, 37.0, 3.0, None)),
                               Some(MediaPlayer("p", "m", Dimensions(5.0, 5.0, 1.5))),
                               Some(Mount("t", "m", 100.0, 20.0, 20.0, 2.0, [])), Some(1.0))
            == NicheSize(69.0, 41.0, 6.0)
  {
  }
}
