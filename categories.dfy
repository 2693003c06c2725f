/**
 * Class labels of the fault-prediction model and the way a numeric label is
 * turned into the text shown to the user.
 */
module Categories {

  /** Marker of the non-faulty class. */
  const CategoryNonFaulty: int := 0

  /** Marker of the faulty class. The source gives it the SAME value as the
      non-faulty marker; it is kept that way here on purpose. */
  const CategoryFaulty: int := 0

  /** The text shown for a category: only the non-faulty marker reads
      "Non-Faulty", every other integer reads "Faulty". */
  function GetPredictedCategoryString(category: int): (s: string)
    ensures s == "Non-Faulty" || s == "Faulty"
    ensures s == "Non-Faulty" <==> category == CategoryNonFaulty
  {
    if category == CategoryNonFaulty then "Non-Faulty" else "Faulty"
  }

  /** Java's `(int)` cast of a double: truncation toward zero. */
  function IntCast(x: real): (r: int)
    ensures 0.0 <= x ==> 0 <= r && r as real <= x < r as real + 1.0
    ensures x < 0.0 ==> r <= 0 && r as real - 1.0 < x <= r as real
  {
    if x >= 0.0 then x.Floor else -((-x).Floor)
  }

  /** A stored label reads "Non-Faulty" exactly when it lies strictly between
      -1 and 1, because the cast truncates before the comparison with 0. */
  lemma KnownCategoryOfLabel(stored: real)
    ensures GetPredictedCategoryString(IntCast(stored)) == "Non-Faulty" <==> -1.0 < stored < 1.0
  {
    var r := IntCast(stored);
    if -1.0 < stored < 1.0 {
      assert r == 0;
    } else {
      assert r != 0;
    }
  }
}
