/**
 * Booking an appointment (screens/CreateAppointmentScreen.tsx): three
 * cascading pickers (group, then category, then treatment), a date and a
 * time picker, the price of the chosen treatment, and the request that
 * books it.
 */
module CreateAppointment {
  import opened Common
  import opened Numbers
  import opened Storage
  import opened Appointments

  datatype Treatment = Treatment(id: int, name: string, description: string, duration: int, price: string, isActive: bool)
  datatype TreatmentCategory = TreatmentCategory(id: int, name: string, treatments: seq<Treatment>)
  datatype TreatmentGroup = TreatmentGroup(id: int, name: string, categories: seq<TreatmentCategory>)

  /**
   * `xs.find((x) => x.id === id)`, as the index of the first element with
   * that id; a `null` id matches nothing.
   */
  function FindById<T>(xs: seq<T>, idOf: T -> int, id: Option<int>): (r: Option<nat>)
    ensures r.Some? ==> r.value < |xs| && id.Some? && idOf(xs[r.value]) == id.value
    ensures r.Some? ==> forall j :: 0 <= j < r.value ==> idOf(xs[j]) != id.value
    ensures r.None? ==> id.None? || forall j :: 0 <= j < |xs| ==> idOf(xs[j]) != id.value
  {
    if xs == [] || id.None? then None
    else if idOf(xs[0]) == id.value then Some(0)
    else match FindById(xs[1..], idOf, id)
      case Some(k) => Some(k + 1)
      case None => None
  }

  /** `j` is the first position of a treatment with id `id`. */
  predicate FirstWithId(treatments: seq<Treatment>, id: int, j: int)
  {
    0 <= j < |treatments| && treatments[j].id == id && forall k :: 0 <= k < j ==> treatments[k].id != id
  }

  /** What the price line shows: the treatment's price text, or the number 0. */
  datatype ShownPrice = PriceText(text: string) | Zero

  /**
   * The price line: hidden while no treatment is chosen (`null` or 0);
   * otherwise the price of the first listed treatment with the chosen id,
   * or 0 when none has it or its price is the empty string.
   */
  function DisplayedPrice(treatments: seq<Treatment>, selected: Option<int>): (p: Option<ShownPrice>)
    ensures p.Some? <==> TruthyId(selected)
    ensures p.Some? && p.value.PriceText? ==>
      exists j :: FirstWithId(treatments, selected.value, j) && treatments[j].price == p.value.text != ""
    ensures p == Some(Zero) ==>
      forall j :: FirstWithId(treatments, selected.value, j) ==> treatments[j].price == ""
  {
    if !TruthyId(selected) then None
    else match FindById(treatments, (t: Treatment) => t.id, selected)
      case Some(i) => if treatments[i].price != "" then Some(PriceText(treatments[i].price)) else Some(Zero)
      case None => Some(Zero)
  }

  /** The body `handleSave` posts to `/appointment/`. */
  datatype AppointmentPost = AppointmentPost(
    clientId: Option<Number>,
    treatmentId: Option<int>,
    date: DateTime,
    status: string)

  const SavedAlert := Alert("Sucesso", "Agendamento cadastrado com sucesso!")
  const SaveFailedAlert := Alert("Erro", "Falha ao atualizar o agendamento.")

  class CreateAppointmentScreen {
    var treatmentGroups: seq<TreatmentGroup>
    var selectedGroup: Option<int>
    var selectedCategory: Option<int>
    var selectedTreatment: Option<int>
    var filteredCategories: seq<TreatmentCategory>
    var filteredTreatments: seq<Treatment>
    var selectedDate: DateTime
    var showDatePicker: bool
    var showTimePicker: bool
    /** `undefined` until the stored id has been read. */
    var userId: Option<Number>
    var updating: bool
    var loading: bool

    /** The screen as first rendered, at the current time `now`. */
    constructor (now: DateTime)
      ensures treatmentGroups == [] && filteredCategories == [] && filteredTreatments == []
      ensures selectedGroup.None? && selectedCategory.None? && selectedTreatment.None?
      ensures selectedDate == now && !showDatePicker && !showTimePicker
      ensures userId.None? && !updating && !loading
    {
      treatmentGroups, filteredCategories, filteredTreatments := [], [], [];
      selectedGroup, selectedCategory, selectedTreatment := None, None, None;
      selectedDate, showDatePicker, showTimePicker := now, false, false;
      userId, updating, loading := None, false, false;
    }

    /** `getUserId`: `Number` of the stored id (0 when none is stored). */
    method GetUserId(store: Store)
      modifies this`userId
      ensures userId == Some(ToNumber(Lookup(store.items, IdKey)))
    {
      var stored := store.GetItem(IdKey);
      userId := Some(ToNumber(stored));
    }

    /** `fetchTreatmentGroups`; a failure is only logged. */
    method FetchTreatmentGroups(response: Option<seq<TreatmentGroup>>)
      modifies this`treatmentGroups, this`loading
      ensures treatmentGroups == (if response.Some? then response.value else old(treatmentGroups))
      ensures !loading
    {
      loading := true;
      if response.Some? {
        treatmentGroups := response.value;
      }
      loading := false;
    }

    /**
     * `handleGroupChange`: always records the group; when the group is
     * listed, its categories become the choices and the category and the
     * treatment list are cleared. The chosen treatment is never cleared here.
     */
    method HandleGroupChange(groupId: Option<int>)
      modifies this`selectedGroup, this`filteredCategories, this`selectedCategory, this`filteredTreatments
      ensures selectedGroup == groupId
      ensures match FindById(treatmentGroups, (g: TreatmentGroup) => g.id, groupId)
        case Some(i) =>
          filteredCategories == treatmentGroups[i].categories && selectedCategory.None? && filteredTreatments == []
        case None =>
          filteredCategories == old(filteredCategories) && selectedCategory == old(selectedCategory)
          && filteredTreatments == old(filteredTreatments)
    {
      selectedGroup := groupId;
      var found := FindById(treatmentGroups, (g: TreatmentGroup) => g.id, groupId);
      if found.Some? {
        filteredCategories := treatmentGroups[found.value].categories;
        selectedCategory := None;
        filteredTreatments := [];
      }
    }

    /**
     * `handleCategoryChange`: always records the category; when it is among
     * the current choices, its treatments become the choices and the chosen
     * treatment is cleared.
     */
    method HandleCategoryChange(categoryId: Option<int>)
      modifies this`selectedCategory, this`filteredTreatments, this`selectedTreatment
      ensures selectedCategory == categoryId
      ensures match FindById(filteredCategories, (c: TreatmentCategory) => c.id, categoryId)
        case Some(i) => filteredTreatments == filteredCategories[i].treatments && selectedTreatment.None?
        case None => filteredTreatments == old(filteredTreatments) && selectedTreatment == old(selectedTreatment)
    {
      selectedCategory := categoryId;
      var found := FindById(filteredCategories, (c: TreatmentCategory) => c.id, categoryId);
      if found.Some? {
        filteredTreatments := filteredCategories[found.value].treatments;
        selectedTreatment := None;
      }
    }

    /** The treatment picker's `onValueChange`. */
    method SelectTreatment(value: Option<int>)
      modifies this`selectedTreatment
      ensures selectedTreatment == value
    {
      selectedTreatment := value;
    }

    /** `handleDateChange`: a picked value replaces the whole date and closes the picker. */
    method HandleDateChange(picked: Option<DateTime>)
      modifies this`selectedDate, this`showDatePicker
      ensures picked.Some? ==> selectedDate == picked.value && !showDatePicker
      ensures picked.None? ==> selectedDate == old(selectedDate) && showDatePicker == old(showDatePicker)
    {
      if picked.Some? {
        showDatePicker := false;
        selectedDate := picked.value;
      }
    }

    /** `handleTimeChange`: a picked value replaces the hour and minute and closes the picker. */
    method HandleTimeChange(picked: Option<DateTime>)
      modifies this`selectedDate, this`showTimePicker
      ensures picked.Some? ==> selectedDate == WithTimeOfDay(old(selectedDate), picked.value) && !showTimePicker
      ensures picked.None? ==> selectedDate == old(selectedDate) && showTimePicker == old(showTimePicker)
    {
      if picked.Some? {
        showTimePicker := false;
        var current := selectedDate;
        current := current.(hour := picked.value.hour);
        current := current.(minute := picked.value.minute);
        selectedDate := current;
      }
    }

    /** The category picker is enabled once a group (other than id 0) is chosen. */
    predicate CategoryPickerEnabled(): (enabled: bool)
      reads this
      ensures enabled <==> selectedGroup.Some? && selectedGroup.value != 0
    {
      TruthyId(selectedGroup)
    }

    /** The treatment picker is enabled once a category (other than id 0) is chosen. */
    predicate TreatmentPickerEnabled(): (enabled: bool)
      reads this
      ensures enabled <==> selectedCategory.Some? && selectedCategory.value != 0
    {
      TruthyId(selectedCategory)
    }

    /**
     * `handleSave`: posts a pending appointment for the stored user, the
     * chosen treatment and the chosen date, and goes back when that succeeds.
     */
    method HandleSave(postOk: bool) returns (sent: AppointmentPost, alert: Alert, navigate: Option<Route>)
      modifies this`updating
      ensures sent == AppointmentPost(userId, selectedTreatment, selectedDate, Pending)
      ensures alert == (if postOk then SavedAlert else SaveFailedAlert)
      ensures navigate == (if postOk then Some(GoBack) else None)
      ensures !updating
    {
      updating := true;
      sent := AppointmentPost(userId, selectedTreatment, selectedDate, Pending);
      if postOk {
        alert, navigate := SavedAlert, Some(GoBack);
      } else {
        alert, navigate := SaveFailedAlert, None;
      }
      updating := false;
    }
  }
}
