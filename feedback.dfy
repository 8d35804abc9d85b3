/**
 * The administrator's feedback inbox (screens/FeedbackScreen.tsx): two tabs
 * of new and read feedback, a star rating, and swipe actions that delete an
 * item or toggle whether it has been read.
 */
module Feedback {
  import opened Common

  datatype FeedbackClient = FeedbackClient(id: int, name: string, email: string, avatarUrl: string)

  datatype FeedbackItem = FeedbackItem(
    id: int,
    rating: int,
    comment: string,
    readed: bool,
    client: FeedbackClient,
    treatmentName: string)

  datatype Star = Filled | Outline

  /** Number of filled stars in `stars`. */
  function FilledCount(stars: seq<Star>): (n: nat)
    ensures n <= |stars|
  {
    if stars == [] then 0 else FilledCount(stars[..|stars| - 1]) + (if stars[|stars| - 1] == Filled then 1 else 0)
  }

  /** `rating` clamped to the five stars. */
  function Clamp5(rating: int): (n: nat)
    ensures n <= 5
  {
    if rating < 0 then 0 else if rating > 5 then 5 else rating
  }

  /**
   * `StarRating`: five stars, star number k + 1 (index k) filled exactly
   * when k + 1 <= rating; so as many are filled as the rating, clamped to 0..5.
   */
  method StarRating(rating: int) returns (stars: seq<Star>)
    ensures |stars| == 5
    ensures forall k :: 0 <= k < 5 ==> (stars[k] == Filled <==> k + 1 <= rating)
    ensures FilledCount(stars) == Clamp5(rating)
  {
    stars := [];
    var i := 1;
    while i <= 5
      invariant 1 <= i <= 6
      invariant |stars| == i - 1
      invariant forall k :: 0 <= k < i - 1 ==> (stars[k] == Filled <==> k + 1 <= rating)
      invariant FilledCount(stars) == Clamp5(if rating < i - 1 then rating else i - 1)
    {
      var star := if i <= rating then Filled else Outline;
      assert (stars + [star])[..|stars|] == stars;
      stars := stars + [star];
      i := i + 1;
    }
  }

  const NewTab := "Novos"

  /** The endpoint a tab loads: new feedback for the tab named "Novos", read feedback for any other. */
  function Endpoint(tabName: string): (e: string)
    ensures e == "unreaded" <==> tabName == NewTab
    ensures e == "readed" <==> tabName != NewTab
  {
    if tabName == NewTab then "unreaded" else "readed"
  }

  /** `feedbacks.filter((item) => item.id !== id)`. */
  function RemoveById(feedbacks: seq<FeedbackItem>, id: int): (r: seq<FeedbackItem>)
    ensures forall f :: f in r <==> f in feedbacks && f.id != id
    ensures IsSubsequence(r, feedbacks)
    ensures forall f :: multiset(r)[f] == if f.id != id then multiset(feedbacks)[f] else 0
  {
    Filter(feedbacks, (f: FeedbackItem) => f.id != id)
  }

  /** Removing an id that no item carries changes nothing. */
  lemma RemoveAbsentId(feedbacks: seq<FeedbackItem>, id: int)
    requires forall f :: f in feedbacks ==> f.id != id
    ensures RemoveById(feedbacks, id) == feedbacks
  {
    FilterKeepsAll(feedbacks, (f: FeedbackItem) => f.id != id);
  }

  /** The read-toggle dialog: its title and question follow the item's current read state. */
  function ReadDialog(readed: bool): (d: Alert)
    ensures d.title == "Marcar como não lido" <==> readed
    ensures d.title == "Marcar como lido" <==> !readed
    ensures d.message == (if readed then "Deseja marcar este comentário como não lido?"
                          else "Deseja marcar este comentário como lido?")
  {
    if readed then Alert("Marcar como não lido", "Deseja marcar este comentário como não lido?")
    else Alert("Marcar como lido", "Deseja marcar este comentário como lido?")
  }

  /** A request the inbox sends. */
  datatype FeedbackRequest =
    | GetFeedbacks(endpoint: string)
    | PatchReaded(id: int, readed: bool)
    | DeleteFeedback(id: int)

  const LoadFailedAlert := Alert("Erro", "Falha ao carregar feedbacks.")
  const MarkFailedAlert := Alert("Erro", "Falha ao marcar feedback como lido.")
  const DeleteFailedAlert := Alert("Erro", "Falha ao excluir feedback.")

  /** `fetchFeedbacks(endpoint)`: the list the API returned, or the empty list (and an alert) on failure. */
  method FetchFeedbacks(endpoint: string, response: Option<seq<FeedbackItem>>)
    returns (sent: FeedbackRequest, data: seq<FeedbackItem>, alert: Option<Alert>)
    ensures sent == GetFeedbacks(endpoint)
    ensures response.Some? ==> data == response.value && alert.None?
    ensures response.None? ==> data == [] && alert == Some(LoadFailedAlert)
  {
    sent := GetFeedbacks(endpoint);
    if response.Some? {
      data, alert := response.value, None;
    } else {
      data, alert := [], Some(LoadFailedAlert);
    }
  }

  /** `markAsReaded(feedback)`: asks for the opposite read state; a failure shows an alert and is not rethrown. */
  method MarkAsReaded(f: FeedbackItem, patchOk: bool) returns (sent: FeedbackRequest, alert: Option<Alert>)
    ensures sent == PatchReaded(f.id, !f.readed)
    ensures alert.Some? <==> !patchOk
    ensures alert.Some? ==> alert.value == MarkFailedAlert
  {
    sent := PatchReaded(f.id, !f.readed);
    alert := if patchOk then None else Some(MarkFailedAlert);
  }

  /** One tab of the inbox. */
  class FeedbackListScreen {
    const tabName: string
    var feedbacks: seq<FeedbackItem>

    constructor (tabName: string)
      ensures this.tabName == tabName && feedbacks == []
    {
      this.tabName := tabName;
      feedbacks := [];
    }

    /** `loadFeedbacks`: fetch the tab's endpoint and show what came back (nothing on failure). */
    method LoadFeedbacks(response: Option<seq<FeedbackItem>>) returns (sent: FeedbackRequest, alert: Option<Alert>)
      modifies this`feedbacks
      ensures sent == GetFeedbacks(Endpoint(tabName))
      ensures feedbacks == (if response.Some? then response.value else [])
      ensures alert.Some? <==> response.None?
    {
      var data;
      sent, data, alert := FetchFeedbacks(Endpoint(tabName), response);
      feedbacks := data;
    }

    /** The confirmed delete: on success the item leaves the list; on failure the list stays. */
    method ConfirmDelete(f: FeedbackItem, deleteOk: bool) returns (sent: FeedbackRequest, alert: Option<Alert>)
      modifies this`feedbacks
      ensures sent == DeleteFeedback(f.id)
      ensures feedbacks == (if deleteOk then RemoveById(old(feedbacks), f.id) else old(feedbacks))
      ensures alert == (if deleteOk then None else Some(DeleteFailedAlert))
    {
      sent := DeleteFeedback(f.id);
      if deleteOk {
        feedbacks := RemoveById(feedbacks, f.id);
        alert := None;
      } else {
        alert := Some(DeleteFailedAlert);
      }
    }

    /** The confirmed read toggle: the item leaves the list whether or not the request succeeded. */
    method ConfirmRead(f: FeedbackItem, patchOk: bool) returns (sent: FeedbackRequest, alert: Option<Alert>)
      modifies this`feedbacks
      ensures sent == PatchReaded(f.id, !f.readed)
      ensures feedbacks == RemoveById(old(feedbacks), f.id)
      ensures alert.Some? <==> !patchOk
    {
      sent, alert := MarkAsReaded(f, patchOk);
      feedbacks := RemoveById(feedbacks, f.id);
    }
  }
}
