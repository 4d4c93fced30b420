/** The medication catalogue endpoint: a constant table narrowed by the
    optional query parameters `id`, `category` and `search`. */
module Medications {
  import opened Wrappers
  import opened Text
  import opened Sequences

  datatype Medication = Medication(
    id: string,
    name: string,
    genericName: string,
    category: string,
    description: string,
    originalPrice: nat,   // wei
    requiresPrescription: bool)

  /** An entry as returned: the price is replaced by its decimal rendering. */
  datatype MedicationView = MedicationView(
    id: string,
    name: string,
    genericName: string,
    category: string,
    description: string,
    originalPrice: string,
    requiresPrescription: bool)

  const Catalogue: seq<Medication> := [
    Medication("MED001", "Aspirin", "acetylsalicylic acid", "Pain Relief",
               "Used to treat pain, fever, and inflammation", 5_000_000_000_000_000, false),
    Medication("MED002", "Amoxicillin", "amoxicillin", "Antibiotics",
               "Used to treat bacterial infections", 10_000_000_000_000_000, true),
    Medication("MED003", "Lipitor", "atorvastatin", "Cholesterol Control",
               "Used to lower cholesterol levels", 20_000_000_000_000_000, true),
    Medication("MED004", "Insulin", "insulin", "Diabetes",
               "Used to control blood sugar levels in diabetes", 25_000_000_000_000_000, true),
    Medication("MED005", "Ibuprofen", "ibuprofen", "Pain Relief",
               "Used to reduce pain, fever, and inflammation", 4_000_000_000_000_000, false)
  ]

  /** A query parameter takes part only when it is truthy. */
  predicate Given(param: Option<string>)
  {
    param.Some? && param.value != ""
  }

  predicate IdMatches(m: Medication, id: string)
  {
    Lower(m.id) == Lower(id)
  }

  predicate CategoryMatches(m: Medication, category: string)
  {
    Lower(m.category) == Lower(category)
  }

  predicate SearchMatches(m: Medication, search: string)
  {
    Includes(Lower(m.name), Lower(search)) || Includes(Lower(m.genericName), Lower(search))
  }

  function ById(id: string): Medication -> bool
  {
    m => IdMatches(m, id)
  }

  function ByCategory(category: string): Medication -> bool
  {
    m => CategoryMatches(m, category)
  }

  function BySearch(search: string): Medication -> bool
  {
    m => SearchMatches(m, search)
  }

  /** The three filter steps, in the order the handler applies them, over a
      copy of `meds`. */
  function SelectFrom(meds: seq<Medication>, id: Option<string>, category: Option<string>, search: Option<string>): seq<Medication>
  {
    var afterId := if Given(id) then Filter(meds, ById(id.value)) else meds;
    var afterCategory := if Given(category) then Filter(afterId, ByCategory(category.value)) else afterId;
    if Given(search) then Filter(afterCategory, BySearch(search.value)) else afterCategory
  }

  /** The entries the handler returns, before formatting. */
  function Select(id: Option<string>, category: Option<string>, search: Option<string>): seq<Medication>
  {
    SelectFrom(Catalogue, id, category, search)
  }

  /** What an entry must satisfy to be returned: every given parameter matches. */
  predicate Admits(id: Option<string>, category: Option<string>, search: Option<string>, m: Medication)
  {
    && (Given(id) ==> IdMatches(m, id.value))
    && (Given(category) ==> CategoryMatches(m, category.value))
    && (Given(search) ==> SearchMatches(m, search.value))
  }

  function AdmittedBy(id: Option<string>, category: Option<string>, search: Option<string>): Medication -> bool
  {
    m => Admits(id, category, search, m)
  }

  /** Each step, as a filter that also accepts everything when its
      parameter is not given. */
  function IdStage(id: Option<string>): Medication -> bool
  {
    m => Given(id) ==> IdMatches(m, id.value)
  }

  function CategoryStage(category: Option<string>): Medication -> bool
  {
    m => Given(category) ==> CategoryMatches(m, category.value)
  }

  function SearchStage(search: Option<string>): Medication -> bool
  {
    m => Given(search) ==> SearchMatches(m, search.value)
  }

  function IdAndCategoryStage(id: Option<string>, category: Option<string>): Medication -> bool
  {
    m => IdStage(id)(m) && CategoryStage(category)(m)
  }

  lemma IdStep(meds: seq<Medication>, id: Option<string>)
    ensures (if Given(id) then Filter(meds, ById(id.value)) else meds) == Filter(meds, IdStage(id))
  {
    if Given(id) {
      FilterExtensional(meds, ById(id.value), IdStage(id));
    } else {
      FilterKeepsAll(meds, IdStage(id));
    }
  }

  lemma CategoryStep(meds: seq<Medication>, category: Option<string>)
    ensures (if Given(category) then Filter(meds, ByCategory(category.value)) else meds) == Filter(meds, CategoryStage(category))
  {
    if Given(category) {
      FilterExtensional(meds, ByCategory(category.value), CategoryStage(category));
    } else {
      FilterKeepsAll(meds, CategoryStage(category));
    }
  }

  lemma SearchStep(meds: seq<Medication>, search: Option<string>)
    ensures (if Given(search) then Filter(meds, BySearch(search.value)) else meds) == Filter(meds, SearchStage(search))
  {
    if Given(search) {
      FilterExtensional(meds, BySearch(search.value), SearchStage(search));
    } else {
      FilterKeepsAll(meds, SearchStage(search));
    }
  }

  /** The chain of filters is one filter by the conjunction of the given
      parameters; absent or empty parameters impose nothing. */
  lemma SelectIsConjunction(meds: seq<Medication>, id: Option<string>, category: Option<string>, search: Option<string>)
    ensures SelectFrom(meds, id, category, search) == Filter(meds, AdmittedBy(id, category, search))
  {
    IdStep(meds, id);
    var afterId := Filter(meds, IdStage(id));
    CategoryStep(afterId, category);
    var afterCategory := Filter(afterId, CategoryStage(category));
    SearchStep(afterCategory, search);
    assert SelectFrom(meds, id, category, search) == Filter(afterCategory, SearchStage(search));
    ConjoinIdAndCategory(meds, id, category);
    ConjoinSearch(meds, id, category, search);
  }

  lemma ConjoinIdAndCategory(meds: seq<Medication>, id: Option<string>, category: Option<string>)
    ensures Filter(Filter(meds, IdStage(id)), CategoryStage(category)) == Filter(meds, IdAndCategoryStage(id, category))
  {
    forall m ensures IdAndCategoryStage(id, category)(m) == (IdStage(id)(m) && CategoryStage(category)(m)) {
    }
    FilterFilter(meds, IdStage(id), CategoryStage(category), IdAndCategoryStage(id, category));
  }

  lemma ConjoinSearch(meds: seq<Medication>, id: Option<string>, category: Option<string>, search: Option<string>)
    ensures Filter(Filter(meds, IdAndCategoryStage(id, category)), SearchStage(search)) == Filter(meds, AdmittedBy(id, category, search))
  {
    forall m ensures AdmittedBy(id, category, search)(m) == (IdAndCategoryStage(id, category)(m) && SearchStage(search)(m)) {
      assert AdmittedBy(id, category, search)(m) == Admits(id, category, search, m);
      assert IdAndCategoryStage(id, category)(m) == (IdStage(id)(m) && CategoryStage(category)(m));
    }
    FilterFilter(meds, IdAndCategoryStage(id, category), SearchStage(search), AdmittedBy(id, category, search));
  }

  /** The result lists catalogue entries in catalogue order, each at most
      once, and an entry is listed exactly when every given parameter matches. */
  lemma SelectIsOrderedSelection(meds: seq<Medication>, id: Option<string>, category: Option<string>, search: Option<string>)
    ensures IsSubsequence(SelectFrom(meds, id, category, search), meds)
    ensures forall m :: m in SelectFrom(meds, id, category, search) <==> m in meds && Admits(id, category, search, m)
  {
    SelectIsConjunction(meds, id, category, search);
    FilterIsSubsequence(meds, AdmittedBy(id, category, search));
    var r := SelectFrom(meds, id, category, search);
    forall m ensures m in r <==> m in meds && Admits(id, category, search, m) {
      if m in r {
        var i :| 0 <= i < |r| && r[i] == m;
      }
      if m in meds && Admits(id, category, search, m) {
        var i :| 0 <= i < |meds| && meds[i] == m;
      }
    }
  }

  /** With no parameter given the whole catalogue comes back. */
  lemma NoParametersSelectsAll(id: Option<string>, category: Option<string>, search: Option<string>)
    requires !Given(id) && !Given(category) && !Given(search)
    ensures Select(id, category, search) == Catalogue
  {
  }

  /** The catalogue's ids differ even after lowering. */
  lemma CatalogueIdsDistinct()
    ensures forall i, j :: 0 <= i < j < |Catalogue| ==> Lower(Catalogue[i].id) != Lower(Catalogue[j].id)
  {
    forall i, j | 0 <= i < j < |Catalogue|
      ensures Lower(Catalogue[i].id) != Lower(Catalogue[j].id)
    {
      assert Catalogue[i].id[5] != Catalogue[j].id[5];
      assert Lower(Catalogue[i].id)[5] == LowerChar(Catalogue[i].id[5]);
      assert Lower(Catalogue[j].id)[5] == LowerChar(Catalogue[j].id[5]);
    }
  }

  /** In a table whose ids differ after lowering, an `id` query returns at
      most one entry. */
  lemma {:induction false} IdQueryReturnsAtMostOneFrom(meds: seq<Medication>, id: string, category: Option<string>, search: Option<string>)
    requires id != ""
    requires forall i, j :: 0 <= i < j < |meds| ==> Lower(meds[i].id) != Lower(meds[j].id)
    ensures |SelectFrom(meds, Some(id), category, search)| <= 1
  {
    FilterAtMostOne(meds, ById(id));
    var afterId := Filter(meds, ById(id));
    var afterCategory := if Given(category) then Filter(afterId, ByCategory(category.value)) else afterId;
    assert |afterCategory| <= |afterId|;
  }

  /** An `id` query on the catalogue returns at most one entry. */
  lemma IdQueryReturnsAtMostOne(id: string, category: Option<string>, search: Option<string>)
    requires id != ""
    ensures |Select(Some(id), category, search)| <= 1
  {
    CatalogueIdsDistinct();
    IdQueryReturnsAtMostOneFrom(Catalogue, id, category, search);
  }

  /** `id` is compared without regard to ASCII case, in any table. */
  lemma IdQueryIgnoresCaseFrom(meds: seq<Medication>, id: string, category: Option<string>, search: Option<string>)
    ensures SelectFrom(meds, Some(id), category, search) == SelectFrom(meds, Some(Lower(id)), category, search)
  {
    LowerIdempotent(id);
    FilterExtensional(meds, ById(id), ById(Lower(id)));
  }

  /** `id` is compared without regard to ASCII case. */
  lemma IdQueryIgnoresCase(id: string, category: Option<string>, search: Option<string>)
    ensures Select(Some(id), category, search) == Select(Some(Lower(id)), category, search)
  {
    IdQueryIgnoresCaseFrom(Catalogue, id, category, search);
  }

  /** `{...med, originalPrice: formatEther(med.originalPrice)}`. */
  function View(m: Medication, formatEther: nat -> string): (v: MedicationView)
    ensures v.originalPrice == formatEther(m.originalPrice)
    ensures v.id == m.id && v.name == m.name && v.genericName == m.genericName && v.category == m.category
    ensures v.description == m.description && v.requiresPrescription == m.requiresPrescription
  {
    MedicationView(m.id, m.name, m.genericName, m.category, m.description,
                   formatEther(m.originalPrice), m.requiresPrescription)
  }

  /** The handler's answer to a GET: the selected entries, formatted. */
  function Query(id: Option<string>, category: Option<string>, search: Option<string>,
                 formatEther: nat -> string): (r: seq<MedicationView>)
    ensures |r| == |Select(id, category, search)|
    ensures forall i :: 0 <= i < |r| ==> r[i] == View(Select(id, category, search)[i], formatEther)
  {
    var selected := Select(id, category, search);
    seq(|selected|, i requires 0 <= i < |selected| => View(selected[i], formatEther))
  }

  /** An entry whose category differs from the parameter in its first
      letter, up to case, is dropped by the category filter. */
  lemma FirstLetterExcludes(m: Medication, category: string)
    requires |m.category| > 0 && |category| > 0
    requires LowerChar(m.category[0]) != LowerChar(category[0])
    ensures !ByCategory(category)(m)
  {
    assert Lower(m.category)[0] != Lower(category)[0];
  }

  /** The catalogue entries with category "Pain Relief" pass its filter. */
  lemma PainReliefKept()
    ensures ByCategory("Pain Relief")(Catalogue[0]) && ByCategory("Pain Relief")(Catalogue[4])
  {
    assert Catalogue[0].category == Catalogue[4].category == "Pain Relief";
  }

  /** The other catalogue entries do not. */
  lemma PainReliefDropped()
    ensures !ByCategory("Pain Relief")(Catalogue[1]) && !ByCategory("Pain Relief")(Catalogue[2])
    ensures !ByCategory("Pain Relief")(Catalogue[3])
  {
    var c := Catalogue;
    FirstLetterExcludes(c[1], "Pain Relief");
    FirstLetterExcludes(c[2], "Pain Relief");
    FirstLetterExcludes(c[3], "Pain Relief");
  }

  lemma FilterFirstAndLastOfFive<T>(c: seq<T>, keep: T -> bool)
    requires |c| == 5 && keep(c[0]) && !keep(c[1]) && !keep(c[2]) && !keep(c[3]) && keep(c[4])
    ensures Filter(c, keep) == [c[0], c[4]]
  {
    assert Filter(c[4..], keep) == [c[4]];
    assert Filter(c[3..], keep) == [c[4]];
    assert Filter(c[2..], keep) == [c[4]];
    assert Filter(c[1..], keep) == [c[4]];
  }

  lemma PainReliefFilter()
    ensures Filter(Catalogue, ByCategory("Pain Relief")) == [Catalogue[0], Catalogue[4]]
  {
    PainReliefKept();
    PainReliefDropped();
    var c := Catalogue;
    var keep := ByCategory("Pain Relief");
    assert |c| == 5;
    assert keep(c[0]) && !keep(c[1]) && !keep(c[2]) && !keep(c[3]) && keep(c[4]);
    FilterFirstAndLastOfFive(c, keep);
  }

  /** Filtering by category "Pain Relief" finds Aspirin and Ibuprofen, in
      catalogue order. */
  lemma CategoryQueryExample()
    ensures Select(None, Some("Pain Relief"), None) == [Catalogue[0], Catalogue[4]]
  {
    PainReliefFilter();
  }
}
