/** The screen and course dimensions of the game. Constants.tsx is not part of this
    model, so its four values are carried as a record and passed to every operation. */
module Constants {

  datatype Config = Config(maxWidth: real, maxHeight: real, gapSize: real, pipeWidth: real)
  {
    /** What the game needs of its constants: a screen and pipes of positive width, and a
        screen tall enough that the range of top-pipe heights, [100, maxHeight/2 - 100],
        is not empty. */
    predicate Valid() {
      && maxWidth > 0.0
      && pipeWidth > 0.0
      && maxHeight / 2.0 - 100.0 >= 100.0
    }

    /** A pipe whose centre x is at or left of this value has scrolled off screen. */
    function Threshold(): real {
      -1.0 * (pipeWidth / 2.0)
    }

    /** Where a pipe that scrolled off screen reappears: two screen widths to the right. */
    function RespawnX(): real {
      maxWidth * 2.0 - pipeWidth / 2.0
    }

    /** True when the screen width is a whole number of units, so that pipes moving one
        unit per tick hit the off-screen threshold exactly. */
    predicate WholeWidth() {
      maxWidth == maxWidth.Floor as real
    }
  }
}
