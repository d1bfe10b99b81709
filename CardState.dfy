/** The state of one feed card (the LinkrCard component) as a value, and one
    transition function per event the component reacts to.  Each function
    applies a handler's setter calls in order and then, when the handler
    changed `isTextEditable`, the effect that watches that flag. */
module CardState {

  /** An outgoing HTTP request, recorded instead of sent. */
  datatype Request = Put(id: int, updatedText: string) | Delete(id: int)

  /** How a request's promise settles: the `.then` or the `.catch` branch. */
  datatype Outcome = Succeeded | Failed

  /** The component's local state, its immutable props and its observable effects. */
  datatype State = State(
    // props
    id: int,
    text: string,
    canManage: bool,         // the viewer's username equals the card author's
    // delete confirmation
    modalConfirmation: bool,
    modalLoading: bool,
    // inline edit
    isTextEditable: bool,
    editTextInput: string,
    loadingEdition: bool,
    editAPIAccepted: bool,
    // observable effects
    requests: seq<Request>,  // every request sent, oldest first
    pendingPuts: nat,        // PUTs whose promise has not settled
    pendingDeletes: nat,     // DELETEs whose promise has not settled
    alerts: nat,             // browser alerts shown
    reloads: nat,            // calls of window.location.reload
    focuses: nat             // calls of focus() on the text input
  )

  const EscKeyCode := 27
  const EnterKeyCode := 13

  /** The edit and delete icons are rendered only for the card's author. */
  function CanManage(viewer: Option<string>, author: string): bool
  {
    viewer == Some(author)
  }

  datatype Option<T> = None | Some(value: T)

  /** The text the card shows: the draft, read-only or in the input. */
  function Displayed(s: State): string { s.editTextInput }

  /** The text input is rendered and enabled: only then can it raise key and change events. */
  predicate InputEnabled(s: State) { s.isTextEditable && !s.loadingEdition }

  /** The part of the state that the edit flow owns. */
  function EditPart(s: State): (bool, string, bool, bool, nat)
  {
    (s.isTextEditable, s.editTextInput, s.loadingEdition, s.editAPIAccepted, s.pendingPuts)
  }

  /** The part of the state that the delete flow owns. */
  function RemovalPart(s: State): (bool, bool, nat, nat)
  {
    (s.modalConfirmation, s.modalLoading, s.pendingDeletes, s.reloads)
  }

  function PutCount(rs: seq<Request>): nat
  {
    if rs == [] then 0 else PutCount(rs[..|rs| - 1]) + (if rs[|rs| - 1].Put? then 1 else 0)
  }

  function DeleteCount(rs: seq<Request>): nat
  {
    if rs == [] then 0 else DeleteCount(rs[..|rs| - 1]) + (if rs[|rs| - 1].Delete? then 1 else 0)
  }

  /** What every reachable state satisfies about the flags and the draft. */
  ghost predicate Inv(s: State)
  {
    // at most one PUT is in flight, and exactly while the input shows it is saving
    && s.pendingPuts == (if s.loadingEdition then 1 else 0)
    // the "Loading..." line is shown only while some DELETE is in flight
    && (s.modalLoading ==> s.pendingDeletes > 0)
    // outside edit mode, before any accepted edit, the card shows the original text
    && (!s.isTextEditable && !s.editAPIAccepted ==> s.editTextInput == s.text)
  }

  /** What every reachable state satisfies about the request log. */
  ghost predicate LogInv(s: State)
  {
    // an edit was accepted only in answer to a PUT
    && (s.editAPIAccepted ==> PutCount(s.requests) > 0)
    && s.pendingPuts <= PutCount(s.requests)
    // each DELETE has either settled, reloaded the page, or is still in flight
    && s.reloads + s.pendingDeletes <= DeleteCount(s.requests)
  }

  /** The state right after mounting (the effect's first run sets the draft to `text`, which it already is). */
  function Init(id: int, text: string, canManage: bool): (r: State)
    ensures Displayed(r) == text && r.text == text && r.id == id && r.canManage == canManage
    ensures !r.modalConfirmation && !r.modalLoading
    ensures !r.isTextEditable && !r.loadingEdition && !r.editAPIAccepted
    ensures r.requests == [] && r.pendingPuts == 0 && r.pendingDeletes == 0
    ensures r.alerts == 0 && r.reloads == 0 && r.focuses == 0
    ensures Inv(r) && LogInv(r)
  {
    State(id, text, canManage, false, false, false, text, false, false, [], 0, 0, 0, 0, 0)
  }

  /** The `[isTextEditable]` effect, applied to the state a handler produced
      when the handler found the flag at `wasEditable`. */
  function EffectAfter(wasEditable: bool, s: State): (r: State)
    ensures wasEditable == s.isTextEditable ==> r == s
    ensures r.isTextEditable == s.isTextEditable && r.editAPIAccepted == s.editAPIAccepted
    ensures !s.isTextEditable && s.editAPIAccepted ==> r.editTextInput == s.editTextInput
    ensures wasEditable && !s.isTextEditable && !s.editAPIAccepted ==> r.editTextInput == s.text
    ensures s.isTextEditable ==> r.editTextInput == s.editTextInput
    ensures r.focuses == if !wasEditable && s.isTextEditable then s.focuses + 1 else s.focuses
    ensures r.loadingEdition == s.loadingEdition && r.pendingPuts == s.pendingPuts && r.text == s.text
    ensures RemovalPart(r) == RemovalPart(s) && r.requests == s.requests && r.alerts == s.alerts
  {
    if wasEditable == s.isTextEditable then s
    else if s.isTextEditable then s.(focuses := s.focuses + 1)
    else s.(editTextInput := if s.editAPIAccepted then s.editTextInput else s.text)
  }

  /** Clicking the edit icon flips edit mode. */
  function ToggleEdit(s: State): (r: State)
    requires s.canManage
    ensures r.isTextEditable == !s.isTextEditable
    ensures !s.isTextEditable ==> r.editTextInput == s.editTextInput && r.focuses == s.focuses + 1
    ensures s.isTextEditable ==> r.editTextInput == (if s.editAPIAccepted then s.editTextInput else s.text)
                                 && r.focuses == s.focuses
    ensures r.loadingEdition == s.loadingEdition && r.editAPIAccepted == s.editAPIAccepted
    ensures r.pendingPuts == s.pendingPuts && r.alerts == s.alerts
    ensures r.requests == s.requests && RemovalPart(r) == RemovalPart(s)
  {
    EffectAfter(s.isTextEditable, s.(isTextEditable := !s.isTextEditable))
  }

  /** Typing in the enabled input replaces the draft. */
  function ChangeDraft(s: State, value: string): (r: State)
    requires InputEnabled(s)
    ensures Displayed(r) == value && r.isTextEditable
    ensures r.loadingEdition == s.loadingEdition && r.editAPIAccepted == s.editAPIAccepted
    ensures r.pendingPuts == s.pendingPuts && r.alerts == s.alerts && r.focuses == s.focuses
    ensures r.requests == s.requests && RemovalPart(r) == RemovalPart(s)
  {
    s.(editTextInput := value)
  }

  /** A key press in the input: ESC leaves edit mode, ENTER submits a changed
      draft (or leaves edit mode if it is unchanged), any other key does nothing. */
  function KeyDown(s: State, keyCode: int): (r: State)
    requires InputEnabled(s)
    ensures keyCode == EscKeyCode ==>
              !r.isTextEditable && r.requests == s.requests && r.loadingEdition == s.loadingEdition
              && Displayed(r) == (if s.editAPIAccepted then s.editTextInput else s.text)
    ensures keyCode == EnterKeyCode && s.editTextInput == s.text ==>
              !r.isTextEditable && r.requests == s.requests && r.loadingEdition == s.loadingEdition
              && Displayed(r) == s.text
    ensures keyCode == EnterKeyCode && s.editTextInput != s.text ==>
              r.isTextEditable && r.loadingEdition && !InputEnabled(r)
              && r.requests == s.requests + [Put(s.id, s.editTextInput)]
              && r.pendingPuts == s.pendingPuts + 1 && Displayed(r) == s.editTextInput
    ensures keyCode != EscKeyCode && keyCode != EnterKeyCode ==> r == s
    ensures r.editAPIAccepted == s.editAPIAccepted && r.text == s.text
    ensures RemovalPart(r) == RemovalPart(s) && r.alerts == s.alerts && r.focuses == s.focuses
  {
    var afterEsc := if keyCode == EscKeyCode then s.(isTextEditable := false) else s;
    var afterEnter :=
      if keyCode != EnterKeyCode then afterEsc
      else if s.editTextInput == s.text then afterEsc.(isTextEditable := false)
      else afterEsc.(loadingEdition := true,
                     requests := afterEsc.requests + [Put(s.id, s.editTextInput)],
                     pendingPuts := afterEsc.pendingPuts + 1);
    EffectAfter(s.isTextEditable, afterEnter)
  }

  /** The PUT's promise settles. */
  function PutSettled(s: State, outcome: Outcome): (r: State)
    requires s.pendingPuts > 0
    ensures r.pendingPuts == s.pendingPuts - 1 && !r.loadingEdition
    ensures outcome == Succeeded ==>
              r.editAPIAccepted && !r.isTextEditable && r.alerts == s.alerts
              && Displayed(r) == s.editTextInput
    ensures outcome == Failed ==>
              r.alerts == s.alerts + 1 && r.isTextEditable == s.isTextEditable
              && Displayed(r) == s.editTextInput && r.editAPIAccepted == s.editAPIAccepted
    ensures r.focuses == s.focuses
    ensures r.requests == s.requests && r.text == s.text && RemovalPart(r) == RemovalPart(s)
  {
    match outcome
    case Succeeded =>
      EffectAfter(s.isTextEditable,
                  s.(editAPIAccepted := true, loadingEdition := false, isTextEditable := false,
                     pendingPuts := s.pendingPuts - 1))
    case Failed =>
      s.(alerts := s.alerts + 1, loadingEdition := false, pendingPuts := s.pendingPuts - 1)
  }

  /** Clicking the remove icon opens the confirmation prompt. */
  function RequestRemoval(s: State): (r: State)
    requires s.canManage
    ensures r.modalConfirmation && r.modalLoading == s.modalLoading
    ensures r.pendingDeletes == s.pendingDeletes && r.reloads == s.reloads && r.focuses == s.focuses
    ensures EditPart(r) == EditPart(s) && r.requests == s.requests && r.alerts == s.alerts
  {
    s.(modalConfirmation := true)
  }

  /** "No, go back" closes the prompt. */
  function CancelRemoval(s: State): (r: State)
    requires s.modalConfirmation
    ensures !r.modalConfirmation && r.modalLoading == s.modalLoading
    ensures r.pendingDeletes == s.pendingDeletes && r.reloads == s.reloads && r.focuses == s.focuses
    ensures EditPart(r) == EditPart(s) && r.requests == s.requests && r.alerts == s.alerts
  {
    s.(modalConfirmation := false)
  }

  /** "Yes, delete it": shows the loading line and sends one DELETE. */
  function ConfirmRemoval(s: State): (r: State)
    requires s.modalConfirmation
    ensures r.modalLoading && r.modalConfirmation
    ensures r.requests == s.requests + [Delete(s.id)] && r.pendingDeletes == s.pendingDeletes + 1
    ensures EditPart(r) == EditPart(s) && r.reloads == s.reloads && r.alerts == s.alerts
    ensures r.focuses == s.focuses
  {
    s.(modalLoading := true, requests := s.requests + [Delete(s.id)],
       pendingDeletes := s.pendingDeletes + 1)
  }

  /** The DELETE's promise settles: either way the prompt closes and one alert
      is shown ("Success" after the reload call, or the error message). */
  function DeleteSettled(s: State, outcome: Outcome): (r: State)
    requires s.pendingDeletes > 0
    ensures !r.modalConfirmation && !r.modalLoading && r.pendingDeletes == s.pendingDeletes - 1
    ensures r.alerts == s.alerts + 1
    ensures r.reloads == if outcome == Succeeded then s.reloads + 1 else s.reloads
    ensures EditPart(r) == EditPart(s) && r.requests == s.requests && r.text == s.text
    ensures r.focuses == s.focuses
  {
    match outcome
    case Succeeded =>
      s.(modalConfirmation := false, modalLoading := false, reloads := s.reloads + 1,
         alerts := s.alerts + 1, pendingDeletes := s.pendingDeletes - 1)
    case Failed =>
      s.(modalConfirmation := false, modalLoading := false, alerts := s.alerts + 1,
         pendingDeletes := s.pendingDeletes - 1)
  }

  /** Every event the card reacts to. */
  datatype Event =
    | EditIconClicked
    | DraftChanged(value: string)
    | KeyPressed(keyCode: int)
    | PutResponse(outcome: Outcome)
    | RemoveIconClicked
    | GoBackClicked
    | DeleteConfirmed
    | DeleteResponse(outcome: Outcome)

  /** The event can happen in this state: its widget is rendered and enabled,
      or its request is in flight. */
  predicate Enabled(s: State, e: Event)
  {
    match e
    case EditIconClicked => s.canManage
    case DraftChanged(_) => InputEnabled(s)
    case KeyPressed(_) => InputEnabled(s)
    case PutResponse(_) => s.pendingPuts > 0
    case RemoveIconClicked => s.canManage
    case GoBackClicked => s.modalConfirmation
    case DeleteConfirmed => s.modalConfirmation
    case DeleteResponse(_) => s.pendingDeletes > 0
  }

  function Step(s: State, e: Event): (r: State)
    requires Enabled(s, e)
    ensures r.id == s.id && r.text == s.text && r.canManage == s.canManage
    ensures |s.requests| <= |r.requests| && r.requests[..|s.requests|] == s.requests
  {
    match e
    case EditIconClicked => ToggleEdit(s)
    case DraftChanged(v) => ChangeDraft(s, v)
    case KeyPressed(k) => KeyDown(s, k)
    case PutResponse(o) => PutSettled(s, o)
    case RemoveIconClicked => RequestRemoval(s)
    case GoBackClicked => CancelRemoval(s)
    case DeleteConfirmed => ConfirmRemoval(s)
    case DeleteResponse(o) => DeleteSettled(s, o)
  }

  /** Every event of the sequence is enabled when it happens. */
  predicate Admits(s: State, es: seq<Event>)
    decreases |es|
  {
    es == [] || (Enabled(s, es[0]) && Admits(Step(s, es[0]), es[1..]))
  }

  function Run(s: State, es: seq<Event>): State
    requires Admits(s, es)
    decreases |es|
  {
    if es == [] then s else Run(Step(s, es[0]), es[1..])
  }
}
