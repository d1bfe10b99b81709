/** The LinkrCard component as an object: one field per piece of local state,
    one method per event handler, each applying the handler's setter calls in
    order.  Every handler method is proved to move the object exactly as the
    matching transition of `CardState` does, and to keep `CardState.Inv`;
    `EditableEffect` is proved only against `CardState.EffectAfter`. */
module LinkrCard {
  import opened CardState
  import CardProperties

  class Card {
    // props
    const id: int
    const username: string
    const text: string
    const viewer: Option<string>   // the logged-in user's name, if any

    // useState hooks
    var modalConfirmation: bool
    var modalLoading: bool
    var isTextEditable: bool
    var editTextInput: string
    var loadingEdition: bool
    var editAPIAccepted: bool

    // observable effects
    var requests: seq<Request>
    var pendingPuts: nat
    var pendingDeletes: nat
    var alerts: nat
    var reloads: nat
    var focuses: nat

    /** The object's state as a `CardState.State` value. */
    function Snapshot(): State
      reads this
    {
      State(id, text, CanManage(viewer, username),
            modalConfirmation, modalLoading,
            isTextEditable, editTextInput, loadingEdition, editAPIAccepted,
            requests, pendingPuts, pendingDeletes, alerts, reloads, focuses)
    }

    ghost predicate Valid()
      reads this
    {
      Inv(Snapshot())
    }

    /** Mounting: every flag false, the draft initialised from the `text` prop. */
    constructor (id: int, username: string, text: string, viewer: Option<string>)
      ensures Valid()
      ensures Snapshot() == Init(id, text, CanManage(viewer, username))
      ensures this.username == username && this.viewer == viewer
    {
      this.id, this.username, this.text, this.viewer := id, username, text, viewer;
      modalConfirmation, modalLoading := false, false;
      isTextEditable, editTextInput, loadingEdition, editAPIAccepted := false, text, false, false;
      requests, pendingPuts, pendingDeletes := [], 0, 0;
      alerts, reloads, focuses := 0, 0, 0;
    }

    /** The `[isTextEditable]` effect, run after a handler that found the flag at `wasEditable`. */
    method EditableEffect(wasEditable: bool)
      modifies this
      ensures Snapshot() == EffectAfter(wasEditable, old(Snapshot()))
    {
      if wasEditable != isTextEditable {
        if isTextEditable {
          focuses := focuses + 1;
        } else {
          editTextInput := if editAPIAccepted then editTextInput else text;
        }
      }
    }

    /** The edit icon's onClick. */
    method ClickEditIcon()
      requires Valid() && Snapshot().canManage
      modifies this
      ensures Valid()
      ensures Snapshot() == ToggleEdit(old(Snapshot()))
    {
      ghost var before := Snapshot();
      var was := isTextEditable;
      isTextEditable := !isTextEditable;
      EditableEffect(was);
      assert Snapshot() == ToggleEdit(before);
      CardProperties.ToggleEditPreservesInv(before);
    }

    /** The text input's onChange. */
    method ChangeDraft(value: string)
      requires Valid() && InputEnabled(Snapshot())
      modifies this
      ensures Valid()
      ensures Snapshot() == CardState.ChangeDraft(old(Snapshot()), value)
    {
      ghost var before := Snapshot();
      editTextInput := value;
      assert Snapshot() == CardState.ChangeDraft(before, value);
      CardProperties.ChangeDraftPreservesInv(before, value);
    }

    /** handleKeyEvent: the text input's onKeyDown. */
    method HandleKeyEvent(keyCode: int)
      requires Valid() && InputEnabled(Snapshot())
      modifies this
      ensures Valid()
      ensures Snapshot() == KeyDown(old(Snapshot()), keyCode)
    {
      ghost var before := Snapshot();
      var was := isTextEditable;
      if keyCode == EscKeyCode {
        isTextEditable := false;
      }
      if keyCode == EnterKeyCode {
        if editTextInput == text {
          isTextEditable := false;
        } else {
          loadingEdition := true;
          requests := requests + [Put(id, editTextInput)];
          pendingPuts := pendingPuts + 1;
        }
      }
      EditableEffect(was);
      assert Snapshot() == KeyDown(before, keyCode);
      CardProperties.KeyDownPreservesInv(before, keyCode);
    }

    /** The PUT's `.then` callback. */
    method PutSucceeded()
      requires Valid() && pendingPuts > 0
      modifies this
      ensures Valid()
      ensures Snapshot() == PutSettled(old(Snapshot()), Succeeded)
    {
      ghost var before := Snapshot();
      var was := isTextEditable;
      editAPIAccepted := true;
      loadingEdition := false;
      isTextEditable := false;
      pendingPuts := pendingPuts - 1;
      EditableEffect(was);
      assert Snapshot() == PutSettled(before, Succeeded);
      CardProperties.PutSettledPreservesInv(before, Succeeded);
    }

    /** The PUT's `.catch` callback. */
    method PutFailed()
      requires Valid() && pendingPuts > 0
      modifies this
      ensures Valid()
      ensures Snapshot() == PutSettled(old(Snapshot()), Failed)
    {
      ghost var before := Snapshot();
      alerts := alerts + 1;
      loadingEdition := false;
      pendingPuts := pendingPuts - 1;
      assert Snapshot() == PutSettled(before, Failed);
      CardProperties.PutSettledPreservesInv(before, Failed);
    }

    /** The remove icon's onClick. */
    method ClickRemoveIcon()
      requires Valid() && Snapshot().canManage
      modifies this
      ensures Valid()
      ensures Snapshot() == RequestRemoval(old(Snapshot()))
    {
      ghost var before := Snapshot();
      modalConfirmation := true;
      assert Snapshot() == RequestRemoval(before);
      CardProperties.PromptPreservesInv(before, true);
    }

    /** "No, go back". */
    method ClickGoBack()
      requires Valid() && modalConfirmation
      modifies this
      ensures Valid()
      ensures Snapshot() == CancelRemoval(old(Snapshot()))
    {
      ghost var before := Snapshot();
      modalConfirmation := false;
      assert Snapshot() == CancelRemoval(before);
      CardProperties.PromptPreservesInv(before, false);
    }

    /** handleCardRemoval: "Yes, delete it". */
    method HandleCardRemoval()
      requires Valid() && modalConfirmation
      modifies this
      ensures Valid()
      ensures Snapshot() == ConfirmRemoval(old(Snapshot()))
    {
      ghost var before := Snapshot();
      modalLoading := true;
      requests := requests + [Delete(id)];
      pendingDeletes := pendingDeletes + 1;
      assert Snapshot() == ConfirmRemoval(before);
      CardProperties.ConfirmRemovalPreservesInv(before);
    }

    /** The DELETE's `.then` callback. */
    method DeleteSucceeded()
      requires Valid() && pendingDeletes > 0
      modifies this
      ensures Valid()
      ensures Snapshot() == DeleteSettled(old(Snapshot()), Succeeded)
    {
      ghost var before := Snapshot();
      modalConfirmation := false;
      modalLoading := false;
      reloads := reloads + 1;
      alerts := alerts + 1;
      pendingDeletes := pendingDeletes - 1;
      assert Snapshot() == DeleteSettled(before, Succeeded);
      CardProperties.DeleteSettledPreservesInv(before, Succeeded);
    }

    /** The DELETE's `.catch` callback. */
    method DeleteFailed()
      requires Valid() && pendingDeletes > 0
      modifies this
      ensures Valid()
      ensures Snapshot() == DeleteSettled(old(Snapshot()), Failed)
    {
      ghost var before := Snapshot();
      modalConfirmation := false;
      modalLoading := false;
      alerts := alerts + 1;
      pendingDeletes := pendingDeletes - 1;
      assert Snapshot() == DeleteSettled(before, Failed);
      CardProperties.DeleteSettledPreservesInv(before, Failed);
    }
  }

  /** A client: the author edits card 42 from "hello" to "hello world" and the
      server accepts; the object then shows "hello world" and has sent one PUT. */
  method EditAcceptedClient() returns (shown: string, sent: seq<Request>)
    ensures shown == "hello world" && sent == [Put(42, "hello world")]
  {
    var card := new Card(42, "ana", "hello", Some("ana"));
    card.ClickEditIcon();
    card.ChangeDraft("hello world");
    assert "hello world" != "hello" by { assert |"hello world"| != |"hello"|; }
    card.HandleKeyEvent(EnterKeyCode);
    card.PutSucceeded();
    shown, sent := card.editTextInput, card.requests;
  }
}
