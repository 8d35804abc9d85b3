/**
 * The administrator's equipment list (screens/AdminEquipmentScreen.tsx):
 * the fetched equipment, narrowed by a case-insensitive search on the name,
 * each with its availability label.
 */
module AdminEquipment {
  import opened Common
  import opened TextSearch

  datatype Equipment = Equipment(
    id: string,
    name: string,
    description: string,
    status: string,
    isActive: bool)

  const FetchFailedAlert := Alert("Erro", "Falha ao carregar equipamentos.")
  const AvailableLabel := "Disponível"
  const MaintenanceLabel := "Em manutenção"

  /** The status line: available only for the status "available"; any other value reads as under maintenance. */
  function StatusLabel(status: string): (text: string)
    ensures text == AvailableLabel <==> status == "available"
    ensures text == MaintenanceLabel <==> status != "available"
  {
    if status == "available" then AvailableLabel else MaintenanceLabel
  }

  class AdminEquipmentScreen {
    var equipments: seq<Equipment>
    var loading: bool
    var error: bool
    var filterText: string

    constructor ()
      ensures equipments == [] && !loading && !error && filterText == ""
    {
      equipments, loading, error, filterText := [], false, false, "";
    }

    /** `fetchEquipments`: `response` is the list the API returned, or `None` when the request failed. */
    method FetchEquipments(response: Option<seq<Equipment>>) returns (alert: Option<Alert>)
      modifies this`equipments, this`loading, this`error
      ensures equipments == (if response.Some? then response.value else old(equipments))
      ensures error <==> response.None?
      ensures !loading
      ensures alert == (if response.None? then Some(FetchFailedAlert) else None)
    {
      loading := true;
      error := false;
      alert := None;
      if response.Some? {
        equipments := response.value;
      } else {
        error := true;
        alert := Some(FetchFailedAlert);
      }
      loading := false;
    }

    /** The search box's `onChangeText`. */
    method SetFilterText(text: string)
      modifies this`filterText
      ensures filterText == text
    {
      filterText := text;
    }

    /**
     * `filteredEquipments`: exactly the equipment whose lower-cased name
     * contains the lower-cased search text, in list order.
     */
    function FilteredEquipments(): (r: seq<Equipment>)
      reads this
      ensures forall e :: e in r <==> e in equipments && Includes(Lower(e.name), Lower(filterText))
      ensures IsSubsequence(r, equipments)
      ensures forall e :: multiset(r)[e] == if Includes(Lower(e.name), Lower(filterText)) then multiset(equipments)[e] else 0
      ensures filterText == "" ==> r == equipments
    {
      EmptyFilterKeepsAll(equipments, (e: Equipment) => e.name);
      FilterByName(equipments, (e: Equipment) => e.name, filterText)
    }
  }

  /** Search texts that differ only in letter case list the same equipment. */
  lemma SearchIgnoresCase(equipments: seq<Equipment>, a: string, b: string)
    requires SameIgnoringCase(a, b)
    ensures FilterByName(equipments, (e: Equipment) => e.name, a) == FilterByName(equipments, (e: Equipment) => e.name, b)
  {
    FilterIgnoresCase(equipments, (e: Equipment) => e.name, a, b);
  }
}
