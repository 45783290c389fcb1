/** The pure helper of the dashboard page that picks a badge colour for a freshness grade. */
module Dashboard {
  import opened JsString

  const Green := "bg-green-500"
  const Blue := "bg-blue-500"
  const Yellow := "bg-yellow-500"
  const Red := "bg-red-500"
  const Gray := "bg-gray-500"

  /** The five class strings the helper can return. */
  const Palette: set<string> := {Green, Blue, Yellow, Red, Gray}

  /** The four grades the helper recognises, in lower case. */
  const Grades: set<string> := {"excellent", "good", "fair", "poor"}

  /**
   * `getFreshnessColor`: the lowered grade selects its colour; every other
   * string gets gray.
   */
  function FreshnessColor(freshness: string): (r: string)
    ensures r in Palette
    ensures r == Green <==> ToLower(freshness) == "excellent"
    ensures r == Blue <==> ToLower(freshness) == "good"
    ensures r == Yellow <==> ToLower(freshness) == "fair"
    ensures r == Red <==> ToLower(freshness) == "poor"
    ensures r == Gray <==> ToLower(freshness) !in Grades
  {
    var grade := ToLower(freshness);
    if grade == "excellent" then Green
    else if grade == "good" then Blue
    else if grade == "fair" then Yellow
    else if grade == "poor" then Red
    else Gray
  }

  /** The colour depends only on the lowered input: lowering first changes nothing. */
  lemma FreshnessColorIgnoresCase(freshness: string)
    ensures FreshnessColor(ToLower(freshness)) == FreshnessColor(freshness)
  {
    ToLowerIdempotent(freshness);
  }

  /** The dashboard's sample reading, graded "Good", gets the blue badge. */
  lemma SampleFoodIsBlue()
    ensures FreshnessColor("Good") == Blue
  {
    assert ToLower("Good") == "good";
  }
}
