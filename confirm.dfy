/** The confirm dialog of `useConfirm`. A call of `showConfirm` returns a
    Promise and keeps its resolver; here the Promise is a request number and
    the answers it has received are a map from request to answer. As with
    a Promise, a request is settled once: later answers are ignored. */
module Confirm {
  import opened Wrappers

  /** Resolving request `req` with `v`: a request already settled keeps
      its first answer. */
  function Settle(answers: map<nat, bool>, req: nat, v: bool): (m: map<nat, bool>)
    ensures m.Keys == answers.Keys + {req}
    ensures forall r :: r in answers ==> m[r] == answers[r]
    ensures req !in answers ==> m[req] == v
  {
    if req in answers then answers else answers[req := v]
  }

  /** Answering a settled request again changes nothing. */
  lemma SettleOnce(answers: map<nat, bool>, req: nat, first: bool, second: bool)
    ensures Settle(Settle(answers, req, first), req, second) == Settle(answers, req, first)
    ensures Settle(Settle(answers, req, first), req, second)[req] ==
      if req in answers then answers[req] else first
  {
  }

  class ConfirmDialog {
    var isVisible: bool
    var modalTitle: string
    var modalMessage: string
    /** The request whose resolver `resolvePromise` holds. */
    var resolver: Option<nat>
    /** The number the next `showConfirm` gives its request. */
    var nextRequest: nat
    /** The requests settled so far, with their answers. */
    var answers: map<nat, bool>

    /** Requests are numbered in order, the stored resolver is that of the
        latest request, and only issued requests have answers. */
    ghost predicate Valid()
      reads this
    {
      && (resolver.Some? <==> nextRequest > 0)
      && (resolver.Some? ==> resolver.value == nextRequest - 1)
      && (forall r :: r in answers ==> r < nextRequest)
    }

    /** Hidden, empty, no pending request. */
    constructor ()
      ensures Valid()
      ensures !isVisible && modalTitle == "" && modalMessage == ""
      ensures resolver == None && answers == map[]
    {
      isVisible := false;
      modalTitle := "";
      modalMessage := "";
      resolver := None;
      nextRequest := 0;
      answers := map[];
    }

    /** `showConfirm`: shows the dialog and issues a new, unanswered request
        whose resolver replaces the stored one; the replaced request can no
        longer be answered, since only the stored resolver ever is. */
    method ShowConfirm(title: string, message: string) returns (req: nat)
      requires Valid()
      modifies this
      ensures Valid()
      ensures isVisible && modalTitle == title && modalMessage == message
      ensures req == old(nextRequest) && req !in answers
      ensures resolver == Some(req)
      ensures old(resolver).Some? ==> old(resolver).value < req
      ensures answers == old(answers)
    {
      modalTitle := title;
      modalMessage := message;
      isVisible := true;
      req := nextRequest;
      nextRequest := nextRequest + 1;
      resolver := Some(req);
    }

    /** `handleConfirm`: hides the dialog and answers the stored request yes. */
    method HandleConfirm()
      requires Valid()
      modifies this
      ensures Valid()
      ensures !isVisible
      ensures modalTitle == old(modalTitle) && modalMessage == old(modalMessage)
      ensures resolver == old(resolver) && nextRequest == old(nextRequest)
      ensures resolver.None? ==> answers == old(answers)
      ensures resolver.Some? ==> answers == Settle(old(answers), resolver.value, true)
    {
      isVisible := false;
      if resolver.Some? {
        answers := Settle(answers, resolver.value, true);
      }
    }

    /** `handleCancel`: hides the dialog and answers the stored request no. */
    method HandleCancel()
      requires Valid()
      modifies this
      ensures Valid()
      ensures !isVisible
      ensures modalTitle == old(modalTitle) && modalMessage == old(modalMessage)
      ensures resolver == old(resolver) && nextRequest == old(nextRequest)
      ensures resolver.None? ==> answers == old(answers)
      ensures resolver.Some? ==> answers == Settle(old(answers), resolver.value, false)
    {
      isVisible := false;
      if resolver.Some? {
        answers := Settle(answers, resolver.value, false);
      }
    }
  }

  /** What the awaiting caller of request `req` has received, if anything. */
  function AnswerOf(answers: map<nat, bool>, req: nat): Option<bool>
  {
    if req in answers then Some(answers[req]) else None
  }

  /** Two dialogs opened back to back, then Yes, then No: the first request
      was replaced before any answer and stays pending for ever, and the
      second keeps the first answer it got. */
  method ReplacedRequestStaysPending(title1: string, message1: string, title2: string, message2: string)
    returns (first: Option<bool>, second: Option<bool>)
    ensures first == None && second == Some(true)
  {
    var dialog := new ConfirmDialog();
    var r1 := dialog.ShowConfirm(title1, message1);
    var r2 := dialog.ShowConfirm(title2, message2);
    dialog.HandleConfirm();
    dialog.HandleCancel();
    first := AnswerOf(dialog.answers, r1);
    second := AnswerOf(dialog.answers, r2);
  }

  /** Without a prior `showConfirm` the handlers only hide the dialog. */
  method HandlersWithoutRequest() returns (visible: bool, answered: map<nat, bool>)
    ensures !visible && answered == map[]
  {
    var dialog := new ConfirmDialog();
    dialog.HandleConfirm();
    dialog.HandleCancel();
    visible := dialog.isVisible;
    answered := dialog.answers;
  }
}
