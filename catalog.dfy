/** The static data of the quiz: the building table and the question order. */
module Catalog {
  import opened HitTest

  /** One entry of the building table: display code, grid label, rectangle. */
  datatype Building = Building(code: string, grid: string, bounds: Bounds)

  /** The building table, keyed by building name. */
  const Buildings: map<string, Building> := map[
    "Bayramian Hall" :=
      Building("BH", "C4", Bounds(LatLng(530.0, 308.0), LatLng(589.0, 400.0))),
    "Oviatt Library" :=
      Building("OV", "D4", Bounds(LatLng(498.0, 422.0), LatLng(555.0, 528.0))),
    "Student Union (USU)" :=
      Building("USU", "F4", Bounds(LatLng(501.0, 730.0), LatLng(545.0, 791.0))),
    "Jacaranda Hall" :=
      Building("JA", "E5", Bounds(LatLng(624.0, 474.0), LatLng(716.0, 590.0))),
    "Sierra Hall" :=
      Building("SH", "C3", Bounds(LatLng(343.0, 311.0), LatLng(376.0, 415.0)))
  ]

  /** The buildings asked for, one per round, in order. */
  const Questions: seq<string> := [
    "Bayramian Hall",
    "Oviatt Library",
    "Student Union (USU)",
    "Jacaranda Hall",
    "Sierra Hall"
  ]

  /** A building table together with a question list; the quiz logic reads
      both and nothing else of the data. */
  datatype Tables = Tables(buildings: map<string, Building>, questions: seq<string>) {
    /** Every question names a building of the table. */
    predicate Consistent() {
      forall i :: 0 <= i < |questions| ==> questions[i] in buildings
    }

    /** No question's building has the uncalibrated sentinel as its rectangle. */
    predicate Calibrated()
      requires Consistent()
    {
      forall i :: 0 <= i < |questions| ==> !LooksUnset(buildings[questions[i]].bounds)
    }
  }

  /** The tables the quiz ships with. */
  const Standard: Tables := Tables(Buildings, Questions)

  /** The uncalibrated sentinel: all four coordinates are zero. */
  predicate LooksUnset(b: Bounds): (r: bool)
    ensures r <==> b == Bounds(LatLng(0.0, 0.0), LatLng(0.0, 0.0))
  {
    b.first.lat == 0.0 && b.first.lng == 0.0 && b.second.lat == 0.0 && b.second.lng == 0.0
  }

  /** Every question of the shipped list is a key of the shipped table, no
      shipped question has the uncalibrated sentinel as its rectangle, and
      there are five questions. */
  lemma StandardTables()
    ensures Standard.Consistent() && Standard.Calibrated()
    ensures |Standard.questions| == 5
  {
  }

  /** A click exactly on Bayramian Hall's first corner is a hit, and so is a
      click on its opposite corner; (529.5, 308), half a unit below the lat
      minimum, is a miss. */
  lemma BayramianCornersHit()
    ensures "Bayramian Hall" in Buildings
    ensures PointInBounds(LatLng(530.0, 308.0), Buildings["Bayramian Hall"].bounds)
    ensures PointInBounds(LatLng(589.0, 400.0), Buildings["Bayramian Hall"].bounds)
    ensures !PointInBounds(LatLng(529.5, 308.0), Buildings["Bayramian Hall"].bounds)
  {
  }
}
