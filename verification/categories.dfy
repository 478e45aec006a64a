/** The category list offered by the client and the colour badge of each category. */
module Categories {

  /** The categories the client offers, in display order. */
  const Categories: seq<string> :=
    ["Income", "Food", "Housing", "Bills", "Transport", "Entertainment", "Shopping", "Healthcare"]

  /** The badge classes of the known categories. */
  const ColorTable: map<string, string> := map[
    "Income" := "bg-green-100 text-green-800",
    "Food" := "bg-orange-100 text-orange-800",
    "Housing" := "bg-blue-100 text-blue-800",
    "Bills" := "bg-red-100 text-red-800",
    "Transport" := "bg-yellow-100 text-yellow-800",
    "Entertainment" := "bg-purple-100 text-purple-800",
    "Shopping" := "bg-pink-100 text-pink-800",
    "Healthcare" := "bg-teal-100 text-teal-800"
  ]

  const DefaultColor: string := "bg-gray-100 text-gray-800"

  /** `colors[category] || default`: the table entry when there is a non-empty
      one, the grey badge otherwise. A category has its own colour exactly when
      it is one of the offered categories. */
  function CategoryColor(category: string): (color: string)
    ensures color != DefaultColor <==> category in Categories
    ensures category in Categories ==> color == ColorTable[category]
  {
    if category in ColorTable && ColorTable[category] != "" then ColorTable[category] else DefaultColor
  }

  /** The list has eight pairwise distinct entries and starts with "Income". */
  lemma CategoriesShape()
    ensures |Categories| == 8 && Categories[0] == "Income"
    ensures forall i, j :: 0 <= i < j < |Categories| ==> Categories[i] != Categories[j]
  {
  }

  /** A list without repeats has as many distinct elements as entries. */
  lemma {:induction false} DistinctCount(cs: seq<string>)
    requires forall i, j :: 0 <= i < j < |cs| ==> cs[i] != cs[j]
    ensures |set c | c in cs| == |cs|
  {
    if cs != [] {
      var init, last := cs[..|cs| - 1], cs[|cs| - 1];
      assert forall i, j :: 0 <= i < j < |init| ==> init[i] != init[j] by {
        forall i, j | 0 <= i < j < |init| ensures init[i] != init[j] {
          assert init[i] == cs[i] && init[j] == cs[j];
        }
      }
      DistinctCount(init);
      assert (set c | c in cs) == (set c | c in init) + {last};
      assert last !in (set c | c in init);
    }
  }
}
