/**
 * The "browse categories" buttons (`searchCategory`): a fixed table from
 * category to three drug names, one of which is put into the search box
 * and searched for.
 */
module Categories {
  import opened Wrappers
  import Display

  /** The category table, names exactly as listed (one carries a trailing space). */
  const CategoryDrugs: map<string, seq<string>> := map[
    "Antibiotics" := ["Amoxicillin", "Azithromycin", "Doxycycline"],
    "Pain Relief" := ["Ibuprofen", "Acetaminophen ", "Naproxen"],
    "Heart Health" := ["Lisinopril", "Atorvastatin", "Metoprolol"],
    "Mental Health" := ["Sertraline", "Fluoxetine", "Escitalopram"],
    "Allergy" := ["Cetirizine", "Loratadine", "Fexofenadine"],
    "Diabetes" := ["Metformin", "Insulin", "Glipizide"]
  ]

  /**
   * `searchCategory(category)` with the random index made a parameter:
   * `None` when the category is unknown (nothing happens), otherwise the
   * drug written into the search box and searched for.
   */
  function SearchCategory(category: string, pick: nat): (drug: Option<string>)
    requires category in CategoryDrugs ==> pick < |CategoryDrugs[category]|
    ensures drug.None? <==> category !in CategoryDrugs
    ensures drug.Some? ==> drug.value in CategoryDrugs[category] && drug.value != ""
  {
    if category in CategoryDrugs then Some(CategoryDrugs[category][pick]) else None
  }

  /** Every drug of a category is the pick for some index. */
  lemma EveryDrugCanBePicked(category: string, drug: string)
    requires category in CategoryDrugs && drug in CategoryDrugs[category]
    ensures exists pick: nat :: pick < |CategoryDrugs[category]| && SearchCategory(category, pick) == Some(drug)
  {
    var drugs := CategoryDrugs[category];
    var pick :| 0 <= pick < |drugs| && drugs[pick] == drug;
    assert SearchCategory(category, pick) == Some(drug);
  }

  /** A category pick is never empty, so the search it triggers always gets past the empty-name guard. */
  lemma PickedSearchStartsLoading(category: string, pick: nat, fetched: Display.Fetched)
    requires category in CategoryDrugs && pick < |CategoryDrugs[category]|
    ensures Display.HandleSearch(SearchCategory(category, pick).value, fetched)[0] == Display.Loading
    ensures Display.HandleSearchReportingFailure(SearchCategory(category, pick).value, fetched)[0] == Display.Loading
  {
  }
}
