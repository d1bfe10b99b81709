# LinkrCard: the inline-edit and delete state machine of a feed card

This project models the `LinkrCard` React component of the front-linkr client. The component displays one shared link, which the author can edit in place or delete. The model covers the component's local state and how each event changes it.

- The local state is `modalConfirmation`, `modalLoading`, `isTextEditable`, `editTextInput`, `loadingEdition` and `editAPIAccepted`.
- The props are `id` and `text`, plus whether the viewer is the author.
- The events are the edit icon, typing in the input, ESC and ENTER, the PUT's two outcomes, the remove icon, "No, go back", "Yes, delete it" and the DELETE's two outcomes.
- The effect keyed on `isTextEditable` runs as a step after a handler, and only when that handler changed the flag's value.

Outgoing requests are not sent. They are recorded in a log (`requests`), and each one's response comes back later as its own event, with outcome `Succeeded` or `Failed`. Alerts, page reloads and input focus calls are counted.

The project has three modules:

- `CardState` (CardState.dfy) holds the state as a datatype. It has one transition function per event, the `[isTextEditable]` effect (`EffectAfter`) and two invariants that reachable states satisfy: `Inv` on the flags and the draft, and `LogInv` on the request log.
- `CardProperties` (CardProperties.dfy) holds lemmas about single events and about whole event sequences (`Run`).
- `LinkrCard` (LinkrCard.dfy) holds the component as a class, `Card`. It has one mutable field per state variable and one method per handler, and each handler's setter calls are applied in order. Every handler method is proved to change the object exactly as the matching transition function does, and to keep `Inv`. `EditableEffect` is proved only to change the object as `EffectAfter` says.

Details of the code that the model keeps, some of which a reader might not expect:

- The draft is reset to `text` when edit mode is left, by the effect's else-branch, unless an edit was accepted; after an accepted edit the draft is kept. It is not reset when edit mode is entered: entering keeps the draft (`ToggleEdit`).
- The edit icon toggles edit mode, so it can also close it. It is not limited to opening edit mode.
- A successful DELETE calls `window.location.reload()` and then shows an alert too ("Success"), so both outcomes count one alert each.
- "Yes, delete it" is not disabled while the DELETE is in flight. Several DELETEs can therefore be outstanding (`pendingDeletes` is a count).
- The assignment `text = editTextInput` in the PUT's success callback changes only a closure-local variable. The next render gets the original prop again, so `text` is immutable in the model. The ENTER short-circuit always compares the draft with the original prop.

Shown by the model:

- Lemma `ToggleWhileSavingShowsOldText`: on a card where no edit has been accepted yet, clicking the edit icon once while a PUT is in flight leaves edit mode and resets the draft to the original text. When the PUT then succeeds, the card shows the original text, although the server stored the edited one. After an accepted edit the same run shows the submitted draft instead (`ToggleWhileSavingAfterAcceptShowsDraft`).
- Lemma `AcceptedCancelShowsUnsentDraft`: once an edit was accepted, the effect no longer restores `text` (line 95). Typing a new draft and pressing ESC therefore leaves the card showing text that was never sent.

## Model

| member | source | states |
|---|---|---|
| CardState.Init | src/components/LinkrCard.jsx:15-32 | after mounting the card keeps its props, every flag (`modalConfirmation`, `modalLoading`, `isTextEditable`, `loadingEdition`, `editAPIAccepted`) is false, the card shows `text`, nothing was sent, nothing is in flight, no alert, reload or focus happened, and both invariants hold |
| LinkrCard.Card.constructor | src/components/LinkrCard.jsx:15-32 | the object starts in the state `Init` describes |
| CardProperties.NonAuthorCannotAct | src/components/LinkrCard.jsx:106 | when the logged-in user is not the card's author (or nobody is logged in), no event is possible from mounting: the icons are not rendered, so nothing is sent and nothing changes |
| CardProperties.AuthorCanAct | src/components/LinkrCard.jsx:106-117 | for the author both the edit icon and the remove icon can be clicked right after mounting |
| CardState.EffectAfter | src/components/LinkrCard.jsx:90-97 | the effect does nothing unless the handler flipped `isTextEditable`; entering edit mode only focuses the input; leaving it keeps the draft after an accepted edit and otherwise restores `text` |
| LinkrCard.Card.EditableEffect | src/components/LinkrCard.jsx:90-97 | the object changes exactly as `EffectAfter` says |
| CardState.ToggleEdit | src/components/LinkrCard.jsx:111 | the edit icon flips edit mode; entering keeps the draft and focuses once; leaving restores `text` unless an edit was accepted; it sends nothing and leaves the delete flow untouched |
| LinkrCard.Card.ClickEditIcon | src/components/LinkrCard.jsx:111 | the click changes the object as `ToggleEdit` says and keeps the invariant |
| CardState.ChangeDraft | src/components/LinkrCard.jsx:126-130 | typing is possible only in the enabled input and replaces the draft; it sends nothing and changes no other flag, count or focus |
| LinkrCard.Card.ChangeDraft | src/components/LinkrCard.jsx:128-130 | onChange changes the object as `CardState.ChangeDraft` says and keeps the invariant |
| CardState.KeyDown | src/components/LinkrCard.jsx:59-76 | ESC leaves edit mode and sends nothing; ENTER with the draft equal to the `text` prop leaves edit mode and sends nothing, with `loadingEdition` unchanged; ENTER with a changed draft sets `loadingEdition`, disables the input and sends exactly one PUT whose `updatedText` is the draft; any other key changes nothing |
| LinkrCard.Card.HandleKeyEvent | src/components/LinkrCard.jsx:59-76 | the key press changes the object as `KeyDown` followed by the effect says, and keeps the invariant |
| CardState.PutSettled | src/components/LinkrCard.jsx:77-86 | on success `editAPIAccepted` is true, `loadingEdition` and `isTextEditable` are false and the draft is kept; on failure one alert is shown, `loadingEdition` is false and edit mode and the draft are unchanged |
| LinkrCard.Card.PutSucceeded | src/components/LinkrCard.jsx:77-82 | the PUT's `.then` callback changes the object as `PutSettled` with `Succeeded` and the effect say, and keeps the invariant |
| LinkrCard.Card.PutFailed | src/components/LinkrCard.jsx:83-86 | the PUT's `.catch` callback changes the object as `PutSettled` with `Failed` says, and keeps the invariant |
| CardState.RequestRemoval | src/components/LinkrCard.jsx:116 | the remove icon only opens the prompt: no request, no alert, edit state untouched |
| LinkrCard.Card.ClickRemoveIcon | src/components/LinkrCard.jsx:116 | the click changes the object as `RequestRemoval` says |
| CardState.CancelRemoval | src/components/LinkrCard.jsx:152 | "No, go back" only closes the prompt: no request, no alert, edit state untouched |
| LinkrCard.Card.ClickGoBack | src/components/LinkrCard.jsx:152 | the click changes the object as `CancelRemoval` says |
| CardState.ConfirmRemoval | src/components/LinkrCard.jsx:37-44 | confirming sets `modalLoading` and sends exactly one DELETE for the card's id, reloading nothing yet |
| LinkrCard.Card.HandleCardRemoval | src/components/LinkrCard.jsx:37-44 | the click changes the object as `ConfirmRemoval` says and keeps the invariant |
| CardState.DeleteSettled | src/components/LinkrCard.jsx:45-56 | either outcome closes the prompt, clears `modalLoading` and shows one alert; only success reloads, exactly once; edit state is untouched |
| LinkrCard.Card.DeleteSucceeded | src/components/LinkrCard.jsx:45-50 | the DELETE's `.then` callback changes the object as `DeleteSettled` with `Succeeded` says, and keeps the invariant |
| LinkrCard.Card.DeleteFailed | src/components/LinkrCard.jsx:51-56 | the DELETE's `.catch` callback changes the object as `DeleteSettled` with `Failed` says, and keeps the invariant |
| CardState.Enabled | src/components/LinkrCard.jsx:106-164 | which events can happen in a state: the edit and remove icons only for the author (line 106), and they stay clickable while a PUT is in flight; typing and key presses only in the rendered input that `loadingEdition` does not disable (121-131); "No, go back" and "Yes, delete it" only while the prompt is open (146-164); a response only while its request is in flight. `NonAuthorCannotAct`, `AuthorCanAct`, `IconsStayLiveWhileSaving` and `NoSecondPutWhileSaving` state its consequences |
| CardProperties.IconsStayLiveWhileSaving | src/components/LinkrCard.jsx:106-131 | while a PUT is in flight the input accepts neither typing nor keys, but both icons and both PUT outcomes remain possible |
| CardState.Step | src/components/LinkrCard.jsx:37-131 | no event changes the props, and the request log only grows at its end |
| CardProperties.KeyDownPreservesInv | src/components/LinkrCard.jsx:59-97 | a key press keeps the invariant on the flags and the draft |
| CardProperties.ToggleEditPreservesInv | src/components/LinkrCard.jsx:90-111 | the edit icon keeps that invariant |
| CardProperties.ChangeDraftPreservesInv | src/components/LinkrCard.jsx:126-130 | typing keeps that invariant |
| CardProperties.PutSettledPreservesInv | src/components/LinkrCard.jsx:77-97 | either PUT outcome keeps that invariant |
| CardProperties.PromptPreservesInv | src/components/LinkrCard.jsx:116-152 | opening or closing the prompt keeps that invariant |
| CardProperties.ConfirmRemovalPreservesInv | src/components/LinkrCard.jsx:37-44 | confirming a deletion keeps that invariant |
| CardProperties.DeleteSettledPreservesInv | src/components/LinkrCard.jsx:45-56 | either DELETE outcome keeps that invariant |
| CardProperties.StepPreservesInv | src/components/LinkrCard.jsx:26-131 | every enabled event keeps the invariant on the flags and the draft: a PUT is in flight exactly while `loadingEdition` holds; "Loading..." means a DELETE is in flight; outside edit mode the card shows `text` unless an edit was accepted |
| CardProperties.StepPreservesLogInv | src/components/LinkrCard.jsx:37-86 | every enabled event keeps the invariant on the request log: an accepted edit answers a PUT, in-flight PUTs never exceed PUTs sent, and reloads plus in-flight DELETEs never exceed DELETEs sent |
| CardProperties.RunPreservesInv | src/components/LinkrCard.jsx:26-131 | every sequence of enabled events keeps both invariants |
| CardProperties.ReachableStates | src/components/LinkrCard.jsx:26-131 | in every state reachable from mounting, at most one PUT is in flight, "Loading..." means a DELETE is in flight, and reloads never exceed DELETEs sent |
| CardProperties.AcceptedIsMonotone | src/components/LinkrCard.jsx:32-79 | once `editAPIAccepted` is true, it stays true after any sequence of events |
| CardProperties.AcceptedDraftKept | src/components/LinkrCard.jsx:92-95 | after an accepted edit, no event except typing changes the draft, so every exit from edit mode keeps it |
| CardProperties.AcceptedDraftKeptAlong | src/components/LinkrCard.jsx:92-95 | the same over any sequence of events that contains no typing |
| CardProperties.BeginThenCancel | src/components/LinkrCard.jsx:59-111 | with no PUT in flight, entering edit mode and leaving it by ESC changes nothing but the focus count: same text, no request |
| CardProperties.ToggleTwiceChangesNothing | src/components/LinkrCard.jsx:90-111 | clicking the edit icon twice from outside edit mode changes nothing but the focus count, also while a PUT is in flight |
| CardProperties.AcceptedCancelShowsUnsentDraft | src/components/LinkrCard.jsx:59-97 | after an accepted edit, typing a draft and pressing ESC leaves edit mode showing that draft, with no request sent |
| CardProperties.SubmitThenSuccess | src/components/LinkrCard.jsx:70-97 | ENTER on a changed draft and then success: one PUT carrying the draft; edit mode left, the draft displayed, `editAPIAccepted` set; no alert |
| CardProperties.SubmitThenFailure | src/components/LinkrCard.jsx:70-86 | ENTER on a changed draft and then failure: one PUT, one alert; still in edit mode, the input enabled again, the draft preserved |
| CardProperties.NoSecondPutWhileSaving | src/components/LinkrCard.jsx:121-131 | while a PUT is in flight, no event sends another PUT until its response arrives |
| CardProperties.RemovalEventsKeepEditState | src/components/LinkrCard.jsx:37-56 | delete-flow events never change the edit state or the displayed text |
| CardProperties.EditEventsKeepRemovalState | src/components/LinkrCard.jsx:59-97 | edit-flow events never change the prompt, its loading line, the outstanding DELETEs or the reload count |
| CardProperties.ConfirmThenSuccess | src/components/LinkrCard.jsx:37-50 | confirming and then success: one DELETE, the prompt closes, the page is reloaded exactly once, edit state untouched |
| CardProperties.ConfirmThenFailure | src/components/LinkrCard.jsx:37-56 | confirming and then failure: one DELETE, the prompt closes, one alert, no reload, the text unchanged |
| CardProperties.EditScenario | src/components/LinkrCard.jsx:59-97 | card 42 "hello" is edited to "hello world" and accepted; entering and leaving edit mode with ESC afterwards still shows "hello world"; one PUT was sent |
| CardProperties.ToggleWhileSavingShowsOldText | src/components/LinkrCard.jsx:77-111 | clicking the edit icon once during a PUT for "hello world" that is then accepted leaves the card showing "hello" |
| CardProperties.ToggleWhileSavingAfterAcceptShowsDraft | src/components/LinkrCard.jsx:70-111 | once an edit was accepted, ENTER on a new draft, the edit icon during the PUT, then success leaves edit mode showing that draft, with one more PUT carrying it |
| LinkrCard.EditAcceptedClient | src/components/LinkrCard.jsx:59-97 | driving a `Card` object through edit, typing, ENTER and success shows the new text after exactly one PUT |

## Left out

- src/components/Trending.jsx is not modelled. It makes a single GET of the hashtag list and renders it. Its only branch clears a loading flag.
- Axios, the base URL read from the environment and the request configuration with the auth header are not modelled. A request becomes an entry in `requests`, and its response becomes a separate event whose outcome is chosen by the caller.
- DOM side effects are reduced to counters: `focus()` (`focuses`), `window.location.reload()` (`reloads`) and `alert` (`alerts`, without the message text). The model does not tear the page down after a reload; later events still apply to the same state.
- `console.log` in the DELETE failure branch is left out.
- `navigate` on the username (line 120) is left out: it leaves the card.
- Rendering, setState batching and the timing of passive effects are not modelled. Each handler's setter calls are applied in order as field updates, and the effect runs right after the handler.
- The effect's first run on mount is not a separate step. It sets the draft to `text`, which the draft already is.
- The model adds no unmount guards and no exclusion between the edit and delete flows, because the code has neither. That the fixed confirmation overlay may cover the icons while it is shown is a matter of styling, and it is not modelled.
- The viewer's name and the `username` prop are strings in the model, so the author is always a string. In the code, `userData?.username === username` also holds when nobody is logged in and `username` is undefined. ENTER on a changed draft then sets `loadingEdition` and throws at `userData.requestConfig` (line 75): no PUT is sent and the input stays disabled. The model does not capture this path.
- The styled-components CSS (lines 169-330) and the sub-widgets `BoxLikes` and `UserPicture` are not modelled.
