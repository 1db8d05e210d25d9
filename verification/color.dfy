/** The sign-to-colour classifier the comparison table uses for each difference. */
module Colors {

  /** `determineColor`: green for a positive difference, red for a negative one, no
      colour for none. */
  function DetermineColor(difference: real): (color: string)
    ensures color == "green" <==> difference > 0.0
    ensures color == "red" <==> difference < 0.0
    ensures color == "" <==> difference == 0.0
  {
    if difference > 0.0 then "green"
    else if difference < 0.0 then "red"
    else ""
  }

  /** The colour of the same difference seen from the other side. */
  function Opposite(color: string): (opposite: string) {
    if color == "green" then "red"
    else if color == "red" then "green"
    else color
  }

  /** Reversing a difference (comparing from the competitor's side) exchanges green and
      red and keeps an uncoloured difference uncoloured. */
  lemma DetermineColorReversed(difference: real)
    ensures DetermineColor(-difference) == Opposite(DetermineColor(difference))
  {
  }
}
