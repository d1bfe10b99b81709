/** What the card's transition functions guarantee, over single events and
    over whole event sequences. */
module CardProperties {
  import opened CardState

  lemma PutCountAppend(rs: seq<Request>, q: Request)
    ensures PutCount(rs + [q]) == PutCount(rs) + (if q.Put? then 1 else 0)
  {
    assert (rs + [q])[..|rs|] == rs;
  }

  lemma DeleteCountAppend(rs: seq<Request>, q: Request)
    ensures DeleteCount(rs + [q]) == DeleteCount(rs) + (if q.Delete? then 1 else 0)
  {
    assert (rs + [q])[..|rs|] == rs;
  }

  /** Running a sequence that starts with `e` is taking `e`, then running the rest. */
  lemma RunCons(s: State, e: Event, es: seq<Event>)
    requires Enabled(s, e) && Admits(Step(s, e), es)
    ensures Admits(s, [e] + es) && Run(s, [e] + es) == Run(Step(s, e), es)
  {
    assert ([e] + es)[1..] == es;
  }

  lemma RunTwo(s: State, a: Event, b: Event)
    requires Enabled(s, a) && Enabled(Step(s, a), b)
    ensures Admits(s, [a, b]) && Run(s, [a, b]) == Step(Step(s, a), b)
  {
    RunCons(Step(s, a), b, []);
    assert [b] + [] == [b];
    RunCons(s, a, [b]);
    assert [a] + [b] == [a, b];
  }

  lemma KeyDownPreservesInv(s: State, k: int)
    requires Inv(s) && InputEnabled(s)
    ensures Inv(KeyDown(s, k))
  {
  }

  lemma ToggleEditPreservesInv(s: State)
    requires Inv(s) && s.canManage
    ensures Inv(ToggleEdit(s))
  {
  }

  lemma ChangeDraftPreservesInv(s: State, v: string)
    requires Inv(s) && InputEnabled(s)
    ensures Inv(ChangeDraft(s, v))
  {
  }

  lemma PutSettledPreservesInv(s: State, o: Outcome)
    requires Inv(s) && s.pendingPuts > 0
    ensures Inv(PutSettled(s, o))
  {
  }

  lemma PromptPreservesInv(s: State, open: bool)
    requires Inv(s)
    ensures Inv(s.(modalConfirmation := open))
  {
  }

  lemma ConfirmRemovalPreservesInv(s: State)
    requires Inv(s) && s.modalConfirmation
    ensures Inv(ConfirmRemoval(s))
  {
  }

  lemma DeleteSettledPreservesInv(s: State, o: Outcome)
    requires Inv(s) && s.pendingDeletes > 0
    ensures Inv(DeleteSettled(s, o))
  {
  }

  /** Every event keeps the invariant on the flags and the draft. */
  lemma StepPreservesInv(s: State, e: Event)
    requires Inv(s) && Enabled(s, e)
    ensures Inv(Step(s, e))
  {
    match e
    case KeyPressed(k) => KeyDownPreservesInv(s, k);
    case DeleteConfirmed => ConfirmRemovalPreservesInv(s);
    case EditIconClicked => ToggleEditPreservesInv(s);
    case DraftChanged(v) => ChangeDraftPreservesInv(s, v);
    case PutResponse(o) => PutSettledPreservesInv(s, o);
    case RemoveIconClicked => PromptPreservesInv(s, true);
    case GoBackClicked => PromptPreservesInv(s, false);
    case DeleteResponse(o) => DeleteSettledPreservesInv(s, o);
  }

  /** Every event keeps the invariant on the request log. */
  lemma StepPreservesLogInv(s: State, e: Event)
    requires LogInv(s) && Enabled(s, e)
    ensures LogInv(Step(s, e))
  {
    var r := Step(s, e);
    match e
    case KeyPressed(k) =>
      if k == EnterKeyCode && s.editTextInput != s.text {
        PutCountAppend(s.requests, Put(s.id, s.editTextInput));
        DeleteCountAppend(s.requests, Put(s.id, s.editTextInput));
      } else {
        assert r.requests == s.requests;
      }
    case DeleteConfirmed =>
      PutCountAppend(s.requests, Delete(s.id));
      DeleteCountAppend(s.requests, Delete(s.id));
    case _ =>
      assert r.requests == s.requests;
  }

  /** Every sequence of events keeps both invariants. */
  lemma {:induction false} RunPreservesInv(s: State, es: seq<Event>)
    requires Inv(s) && LogInv(s) && Admits(s, es)
    ensures Inv(Run(s, es)) && LogInv(Run(s, es))
    decreases |es|
  {
    if es != [] {
      StepPreservesInv(s, es[0]);
      StepPreservesLogInv(s, es[0]);
      RunPreservesInv(Step(s, es[0]), es[1..]);
    }
  }

  /** In every state reachable from mounting, at most one PUT is in flight,
      the "Loading..." line implies a DELETE in flight, and the page was
      reloaded at most once per DELETE sent. */
  lemma ReachableStates(id: int, text: string, canManage: bool, es: seq<Event>)
    requires Admits(Init(id, text, canManage), es)
    ensures var r := Run(Init(id, text, canManage), es);
            && Inv(r) && LogInv(r)
            && r.pendingPuts <= 1
            && (r.loadingEdition <==> r.pendingPuts == 1)
            && (r.modalLoading ==> r.pendingDeletes > 0)
            && r.reloads <= DeleteCount(r.requests)
  {
    RunPreservesInv(Init(id, text, canManage), es);
  }

  /** `editAPIAccepted` is never reset. */
  lemma {:induction false} AcceptedIsMonotone(s: State, es: seq<Event>)
    requires Admits(s, es) && s.editAPIAccepted
    ensures Run(s, es).editAPIAccepted
    decreases |es|
  {
    if es != [] {
      AcceptedIsMonotone(Step(s, es[0]), es[1..]);
    }
  }

  /** Once an edit was accepted, no event except typing changes the draft:
      every exit from edit mode keeps it. */
  lemma AcceptedDraftKept(s: State, e: Event)
    requires Enabled(s, e) && s.editAPIAccepted && !e.DraftChanged?
    ensures Displayed(Step(s, e)) == Displayed(s) && Step(s, e).editAPIAccepted
  {
  }

  /** The same, over a whole sequence of events without typing. */
  lemma {:induction false} AcceptedDraftKeptAlong(s: State, es: seq<Event>)
    requires Admits(s, es) && s.editAPIAccepted
    requires forall i :: 0 <= i < |es| ==> !es[i].DraftChanged?
    ensures Displayed(Run(s, es)) == Displayed(s)
    decreases |es|
  {
    if es != [] {
      AcceptedDraftKept(s, es[0]);
      AcceptedDraftKeptAlong(Step(s, es[0]), es[1..]);
    }
  }

  /** Entering edit mode with the icon and leaving it again, by ESC or by
      the icon, changes nothing but the focus count: no request, the same text. */
  lemma BeginThenCancel(s: State)
    requires Inv(s) && s.canManage && !s.isTextEditable && !s.loadingEdition
    ensures Admits(s, [EditIconClicked, KeyPressed(EscKeyCode)])
    ensures Run(s, [EditIconClicked, KeyPressed(EscKeyCode)]) == s.(focuses := s.focuses + 1)
  {
    RunTwo(s, EditIconClicked, KeyPressed(EscKeyCode));
  }

  /** Clicking the edit icon twice from outside edit mode changes nothing but
      the focus count, even while a PUT is in flight. */
  lemma ToggleTwiceChangesNothing(s: State)
    requires Inv(s) && s.canManage && !s.isTextEditable
    ensures Admits(s, [EditIconClicked, EditIconClicked])
    ensures Run(s, [EditIconClicked, EditIconClicked]) == s.(focuses := s.focuses + 1)
  {
    RunTwo(s, EditIconClicked, EditIconClicked);
  }

  /** Once an edit was accepted, typing a new draft and pressing ESC shows the
      new draft although it was never sent. */
  lemma AcceptedCancelShowsUnsentDraft(s: State, value: string)
    requires InputEnabled(s) && s.editAPIAccepted
    ensures Admits(s, [DraftChanged(value), KeyPressed(EscKeyCode)])
    ensures var r := Run(s, [DraftChanged(value), KeyPressed(EscKeyCode)]);
            && !r.isTextEditable && Displayed(r) == value && r.requests == s.requests
  {
    RunTwo(s, DraftChanged(value), KeyPressed(EscKeyCode));
  }

  /** A viewer who is not the author can raise no event at all: the card
      sends nothing and never changes. */
  lemma NonAuthorCannotAct(id: int, text: string, viewer: Option<string>, author: string, es: seq<Event>)
    requires viewer != Some(author)
    requires Admits(Init(id, text, CanManage(viewer, author)), es)
    ensures es == []
  {
  }

  /** While a PUT is in flight the input takes no typing and no key press,
      but the edit and remove icons stay clickable. */
  lemma IconsStayLiveWhileSaving(s: State, value: string, keyCode: int)
    requires Inv(s) && s.canManage && s.loadingEdition
    ensures !Enabled(s, DraftChanged(value)) && !Enabled(s, KeyPressed(keyCode))
    ensures Enabled(s, EditIconClicked) && Enabled(s, RemoveIconClicked)
    ensures Enabled(s, PutResponse(Succeeded)) && Enabled(s, PutResponse(Failed))
  {
  }

  /** The author can click either icon right after mounting. */
  lemma AuthorCanAct(id: int, text: string, author: string)
    ensures Admits(Init(id, text, CanManage(Some(author), author)), [EditIconClicked])
    ensures Admits(Init(id, text, CanManage(Some(author), author)), [RemoveIconClicked])
  {
    var s := Init(id, text, true);
    assert Admits(Step(s, EditIconClicked), [EditIconClicked][1..]);
    assert Admits(Step(s, RemoveIconClicked), [RemoveIconClicked][1..]);
  }

  /** A changed draft submitted with ENTER and accepted by the server leaves
      edit mode showing the submitted draft, after exactly one PUT carrying it. */
  lemma SubmitThenSuccess(s: State)
    requires InputEnabled(s) && s.editTextInput != s.text
    ensures Admits(s, [KeyPressed(EnterKeyCode), PutResponse(Succeeded)])
    ensures var r := Run(s, [KeyPressed(EnterKeyCode), PutResponse(Succeeded)]);
            && Displayed(r) == s.editTextInput
            && r.editAPIAccepted && !r.isTextEditable && !r.loadingEdition
            && r.requests == s.requests + [Put(s.id, s.editTextInput)]
            && r.alerts == s.alerts && RemovalPart(r) == RemovalPart(s)
  {
    RunTwo(s, KeyPressed(EnterKeyCode), PutResponse(Succeeded));
  }

  /** A changed draft submitted with ENTER and refused by the server stays in
      edit mode with the draft intact and the input enabled again, after one alert. */
  lemma SubmitThenFailure(s: State)
    requires InputEnabled(s) && s.editTextInput != s.text
    ensures Admits(s, [KeyPressed(EnterKeyCode), PutResponse(Failed)])
    ensures var r := Run(s, [KeyPressed(EnterKeyCode), PutResponse(Failed)]);
            && Displayed(r) == s.editTextInput
            && r.isTextEditable && !r.loadingEdition && InputEnabled(r)
            && r.editAPIAccepted == s.editAPIAccepted
            && r.requests == s.requests + [Put(s.id, s.editTextInput)]
            && r.alerts == s.alerts + 1 && RemovalPart(r) == RemovalPart(s)
  {
    RunTwo(s, KeyPressed(EnterKeyCode), PutResponse(Failed));
  }

  /** While a PUT is in flight the input is disabled: until its response
      arrives, no event sends another PUT and the card stays in the saving state. */
  lemma {:induction false} NoSecondPutWhileSaving(s: State, es: seq<Event>)
    requires Admits(s, es) && s.loadingEdition
    requires forall i :: 0 <= i < |es| ==> !es[i].PutResponse?
    ensures Run(s, es).loadingEdition
    ensures PutCount(Run(s, es).requests) == PutCount(s.requests)
    decreases |es|
  {
    if es != [] {
      if es[0].DeleteConfirmed? {
        PutCountAppend(s.requests, Delete(s.id));
      }
      NoSecondPutWhileSaving(Step(s, es[0]), es[1..]);
    }
  }

  /** Events of the delete flow leave the edit flow's state alone. */
  lemma {:induction false} RemovalEventsKeepEditState(s: State, es: seq<Event>)
    requires Admits(s, es)
    requires forall i :: 0 <= i < |es| ==>
               es[i].RemoveIconClicked? || es[i].GoBackClicked? || es[i].DeleteConfirmed? || es[i].DeleteResponse?
    ensures EditPart(Run(s, es)) == EditPart(s) && Displayed(Run(s, es)) == Displayed(s)
    decreases |es|
  {
    if es != [] {
      RemovalEventsKeepEditState(Step(s, es[0]), es[1..]);
    }
  }

  /** Events of the edit flow leave the delete flow's state alone. */
  lemma {:induction false} EditEventsKeepRemovalState(s: State, es: seq<Event>)
    requires Admits(s, es)
    requires forall i :: 0 <= i < |es| ==>
               es[i].EditIconClicked? || es[i].DraftChanged? || es[i].KeyPressed? || es[i].PutResponse?
    ensures RemovalPart(Run(s, es)) == RemovalPart(s)
    decreases |es|
  {
    if es != [] {
      EditEventsKeepRemovalState(Step(s, es[0]), es[1..]);
    }
  }

  /** Confirming a deletion that succeeds closes the prompt and reloads the page exactly once. */
  lemma ConfirmThenSuccess(s: State)
    requires s.modalConfirmation
    ensures Admits(s, [DeleteConfirmed, DeleteResponse(Succeeded)])
    ensures var r := Run(s, [DeleteConfirmed, DeleteResponse(Succeeded)]);
            && !r.modalConfirmation && !r.modalLoading
            && r.reloads == s.reloads + 1 && r.pendingDeletes == s.pendingDeletes
            && r.requests == s.requests + [Delete(s.id)]
            && EditPart(r) == EditPart(s)
  {
    RunTwo(s, DeleteConfirmed, DeleteResponse(Succeeded));
  }

  /** Confirming a deletion that fails closes the prompt, shows one alert,
      does not reload, and leaves the card's text as it was. */
  lemma ConfirmThenFailure(s: State)
    requires s.modalConfirmation
    ensures Admits(s, [DeleteConfirmed, DeleteResponse(Failed)])
    ensures var r := Run(s, [DeleteConfirmed, DeleteResponse(Failed)]);
            && !r.modalConfirmation && !r.modalLoading
            && r.reloads == s.reloads && r.alerts == s.alerts + 1
            && r.requests == s.requests + [Delete(s.id)]
            && Displayed(r) == Displayed(s) && EditPart(r) == EditPart(s)
  {
    RunTwo(s, DeleteConfirmed, DeleteResponse(Failed));
  }

  /** Card 42 with text "hello": the author edits it to "hello world", the
      server accepts, and a later enter-then-ESC keeps "hello world". */
  lemma EditScenario()
    ensures var es := [EditIconClicked, DraftChanged("hello world"), KeyPressed(EnterKeyCode),
                       PutResponse(Succeeded), EditIconClicked, KeyPressed(EscKeyCode)];
            && Admits(Init(42, "hello", true), es)
            && Displayed(Run(Init(42, "hello", true), es)) == "hello world"
            && Run(Init(42, "hello", true), es).requests == [Put(42, "hello world")]
  {
    assert "hello world" != "hello" by { assert |"hello world"| != |"hello"|; }
    var s0 := Init(42, "hello", true);
    var s1 := Step(s0, EditIconClicked);
    var s2 := Step(s1, DraftChanged("hello world"));
    var s3 := Step(s2, KeyPressed(EnterKeyCode));
    var s4 := Step(s3, PutResponse(Succeeded));
    RunTwo(s4, EditIconClicked, KeyPressed(EscKeyCode));
    RunCons(s3, PutResponse(Succeeded), [EditIconClicked, KeyPressed(EscKeyCode)]);
    RunCons(s2, KeyPressed(EnterKeyCode), [PutResponse(Succeeded), EditIconClicked, KeyPressed(EscKeyCode)]);
    RunCons(s1, DraftChanged("hello world"),
            [KeyPressed(EnterKeyCode), PutResponse(Succeeded), EditIconClicked, KeyPressed(EscKeyCode)]);
    RunCons(s0, EditIconClicked,
            [DraftChanged("hello world"), KeyPressed(EnterKeyCode), PutResponse(Succeeded),
             EditIconClicked, KeyPressed(EscKeyCode)]);
  }

  /** After an accepted edit the effect keeps the draft, so the same toggle
      during a later PUT leaves the submitted draft on display. */
  lemma ToggleWhileSavingAfterAcceptShowsDraft(s: State)
    requires Inv(s) && InputEnabled(s) && s.canManage && s.editAPIAccepted && s.editTextInput != s.text
    ensures var es := [KeyPressed(EnterKeyCode), EditIconClicked, PutResponse(Succeeded)];
            && Admits(s, es) && !Run(s, es).isTextEditable
            && Displayed(Run(s, es)) == s.editTextInput
            && Run(s, es).requests == s.requests + [Put(s.id, s.editTextInput)]
  {
    var s1 := Step(s, KeyPressed(EnterKeyCode));
    RunTwo(s1, EditIconClicked, PutResponse(Succeeded));
    RunCons(s, KeyPressed(EnterKeyCode), [EditIconClicked, PutResponse(Succeeded)]);
  }

  /** Clicking the edit icon once while the PUT is in flight resets the draft
      to the original text; when the server then accepts, the card shows the
      original text although the server stored the edited one. */
  lemma ToggleWhileSavingShowsOldText()
    ensures var es := [EditIconClicked, DraftChanged("hello world"), KeyPressed(EnterKeyCode),
                       EditIconClicked, PutResponse(Succeeded)];
            && Admits(Init(42, "hello", true), es)
            && Run(Init(42, "hello", true), es).editAPIAccepted
            && Run(Init(42, "hello", true), es).requests == [Put(42, "hello world")]
            && Displayed(Run(Init(42, "hello", true), es)) == "hello"
  {
    assert "hello world" != "hello" by { assert |"hello world"| != |"hello"|; }
    var s0 := Init(42, "hello", true);
    var s1 := Step(s0, EditIconClicked);
    var s2 := Step(s1, DraftChanged("hello world"));
    var s3 := Step(s2, KeyPressed(EnterKeyCode));
    RunTwo(s3, EditIconClicked, PutResponse(Succeeded));
    RunCons(s2, KeyPressed(EnterKeyCode), [EditIconClicked, PutResponse(Succeeded)]);
    RunCons(s1, DraftChanged("hello world"),
            [KeyPressed(EnterKeyCode), EditIconClicked, PutResponse(Succeeded)]);
    RunCons(s0, EditIconClicked,
            [DraftChanged("hello world"), KeyPressed(EnterKeyCode), EditIconClicked,
             PutResponse(Succeeded)]);
  }
}
