/**
 * Editing a treatment (screens/AdminEditTreatmentScreen.tsx): four text
 * fields, all required, and a `PATCH` carrying the original treatment with
 * the edited fields laid over it and the duration parsed as an integer.
 */
module AdminEditTreatment {
  import opened Common
  import opened Numbers
  import opened AdminTreatments

  /** The body of `PATCH /treatment/:id`: the treatment's fields, with `duration` from `parseInt`. */
  datatype TreatmentPayload = TreatmentPayload(
    id: string,
    name: string,
    description: string,
    duration: Number,
    price: string,
    categories: seq<CategoryRef>)

  const EmptyFieldsAlert := Alert("Erro", "Por favor, preencha todos os campos.")
  const UpdatedAlert := Alert("Sucesso", "Tratamento atualizado com sucesso!")
  const UpdateFailedAlert := Alert("Erro", "Falha ao atualizar o tratamento.")

  /** The form may be saved only when no field is the empty string. */
  predicate FieldsFilled(name: string, description: string, price: string, duration: string): (filled: bool)
    ensures filled <==> Truthy(Some(name)) && Truthy(Some(description)) && Truthy(Some(price)) && Truthy(Some(duration))
  {
    name != "" && description != "" && price != "" && duration != ""
  }

  /**
   * `{ ...treatment, name, description, price, duration: parseInt(duration, 10) }`:
   * the edited fields replace the treatment's, and its id and categories are kept.
   */
  function Payload(t: Treatment, name: string, description: string, price: string, duration: string)
    : (p: TreatmentPayload)
    ensures p.id == t.id && p.categories == t.categories
    ensures p.name == name && p.description == description && p.price == price
    ensures p.duration == ParseInt(duration)
  {
    TreatmentPayload(t.id, name, description, ParseInt(duration), price, t.categories)
  }

  /**
   * Saving an untouched form sends the treatment back as it was: the
   * duration text `duration.toString()` parses back to the same duration.
   */
  lemma UneditedFormRoundTrip(t: Treatment)
    ensures Payload(t, t.name, t.description, t.price, IntString(t.duration))
      == TreatmentPayload(t.id, t.name, t.description, Finite(t.duration), t.price, t.categories)
  {
    ParseIntOfIntString(t.duration);
  }

  class AdminEditTreatmentScreen {
    const treatment: Treatment
    var name: string
    var description: string
    var price: string
    var duration: string
    var updating: bool
    /** Every value given to `setUpdating`, in order. */
    ghost var updatingLog: seq<bool>

    /** The form filled from the treatment being edited. */
    constructor (t: Treatment)
      ensures treatment == t && name == t.name && description == t.description && price == t.price
      ensures duration == IntString(t.duration) && !updating && updatingLog == []
    {
      treatment := t;
      name, description, price := t.name, t.description, t.price;
      duration := IntString(t.duration);
      updating := false;
      updatingLog := [];
    }

    /** The fields' `onChangeText`. */
    method Edit(newName: string, newDescription: string, newPrice: string, newDuration: string)
      modifies this`name, this`description, this`price, this`duration
      ensures name == newName && description == newDescription && price == newPrice && duration == newDuration
    {
      name, description, price, duration := newName, newDescription, newPrice, newDuration;
    }

    /**
     * `handleSave`: an empty field stops with an alert and sends nothing;
     * otherwise the payload is sent with `updating` set around the request,
     * and a successful request goes back.
     */
    method HandleSave(patchOk: bool) returns (sent: Option<TreatmentPayload>, alert: Alert, navigate: Option<Route>)
      modifies this`updating, this`updatingLog
      ensures !FieldsFilled(name, description, price, duration) ==>
        && sent.None? && alert == EmptyFieldsAlert && navigate.None?
        && updating == old(updating) && updatingLog == old(updatingLog)
      ensures FieldsFilled(name, description, price, duration) ==>
        && sent == Some(Payload(treatment, name, description, price, duration))
        && alert == (if patchOk then UpdatedAlert else UpdateFailedAlert)
        && navigate == (if patchOk then Some(GoBack) else None)
        && !updating && updatingLog == old(updatingLog) + [true, false]
    {
      if !FieldsFilled(name, description, price, duration) {
        return None, EmptyFieldsAlert, None;
      }
      updating := true;
      updatingLog := updatingLog + [true];
      sent := Some(Payload(treatment, name, description, price, duration));
      if patchOk {
        alert, navigate := UpdatedAlert, Some(GoBack);
      } else {
        alert, navigate := UpdateFailedAlert, None;
      }
      updating := false;
      updatingLog := updatingLog + [false];
    }
  }
}
