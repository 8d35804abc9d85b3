/**
 * The administrator's treatment list (screens/AdminTreatmentScreen.tsx):
 * the fetched treatments, narrowed by a case-insensitive search on the name.
 */
module AdminTreatments {
  import opened Common
  import opened TextSearch

  datatype CategoryRef = CategoryRef(id: string, name: string)

  datatype Treatment = Treatment(
    id: string,
    name: string,
    description: string,
    duration: int,
    price: string,
    categories: seq<CategoryRef>)

  const FetchFailedAlert := Alert("Erro", "Falha ao carregar tratamentos.")

  class AdminTreatmentScreen {
    var treatments: seq<Treatment>
    var loading: bool
    var error: bool
    var filterText: string

    constructor ()
      ensures treatments == [] && !loading && !error && filterText == ""
    {
      treatments, loading, error, filterText := [], false, false, "";
    }

    /** `fetchTreatments`: `response` is the list the API returned, or `None` when the request failed. */
    method FetchTreatments(response: Option<seq<Treatment>>) returns (alert: Option<Alert>)
      modifies this`treatments, this`loading, this`error
      ensures treatments == (if response.Some? then response.value else old(treatments))
      ensures error <==> response.None?
      ensures !loading
      ensures alert == (if response.None? then Some(FetchFailedAlert) else None)
    {
      loading := true;
      error := false;
      alert := None;
      if response.Some? {
        treatments := response.value;
      } else {
        error := true;
        alert := Some(FetchFailedAlert);
      }
      loading := false;
    }

    /** The search box's `onChangeText`. */
    method SetFilterText(text: string)
      modifies this`filterText
      ensures filterText == text
    {
      filterText := text;
    }

    /**
     * `filteredTreatments`: exactly the treatments whose lower-cased name
     * contains the lower-cased search text, in list order.
     */
    function FilteredTreatments(): (r: seq<Treatment>)
      reads this
      ensures forall t :: t in r <==> t in treatments && Includes(Lower(t.name), Lower(filterText))
      ensures IsSubsequence(r, treatments)
      ensures forall t :: multiset(r)[t] == if Includes(Lower(t.name), Lower(filterText)) then multiset(treatments)[t] else 0
      ensures filterText == "" ==> r == treatments
    {
      EmptyFilterKeepsAll(treatments, (t: Treatment) => t.name);
      FilterByName(treatments, (t: Treatment) => t.name, filterText)
    }
  }

  /** Search texts that differ only in letter case list the same treatments. */
  lemma SearchIgnoresCase(treatments: seq<Treatment>, a: string, b: string)
    requires SameIgnoringCase(a, b)
    ensures FilterByName(treatments, (t: Treatment) => t.name, a) == FilterByName(treatments, (t: Treatment) => t.name, b)
  {
    FilterIgnoresCase(treatments, (t: Treatment) => t.name, a, b);
  }
}
