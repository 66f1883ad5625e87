# Moderation UI reducer

This project models the moderation UI reducer of the Talk admin client
(`client/coral-admin/src/reducers/moderation.js`). The reducer's state holds
the UI flags and dialog context of the moderation queue: whether single-comment
view is on, whether a modal is open, the ban-user dialog and the user, comment
id and comment status it targets, the keyboard-shortcuts note, the active tab
and the "previously rejected" note. The reducer is a pure function. It builds
a new state for each of six action kinds and returns the state unchanged for
any other action.

Modules:

- `Optional` (`optional.dfy`): the `Option` datatype for nullable fields and absent keys.
- `ModerationReducer` (`moderation.dfy`): the state record `State`, the actions `Action`, and
  `Get`, which models `state.get(key)` on the Immutable map. It also holds the footprint table
  `Writes` (the keys each action's case sets), `InitialState` and the reducer `Moderation`.
  The single-step and two-step lemmas sit beside them.
- `ModerationStore` (`store.dfy`): the state container that owns the state. `Replay` dispatches a
  sequence of actions one at a time, starting from any state. Starting from `InitialState` models
  the reducer's `state = initialState` default argument on the first dispatch. The lemmas here
  state invariants of every state the store can reach.

The persisted `coral:shortcutsNote` preference is read from the browser's local storage. In the
model it is the parameter `stored: Option<string>` of `InitialState`. `None` is a missing key.
Like JavaScript's `||`, both `None` and `""` give `"show"`.

## Model

| member | source | states |
|---|---|---|
| ModerationReducer.InitialState | client/coral-admin/src/reducers/moderation.js:4-12 | single view, modal and ban dialog are off, user is an empty map, comment id and comment status are null, and active tab and rejected note are absent; the shortcuts note is the stored preference when that is a non-empty string and `"show"` otherwise, so it is never empty |
| ModerationReducer.Moderation | client/coral-admin/src/reducers/moderation.js:14-44 | every key outside the action's footprint keeps its value. HIDE_BANUSER_DIALOG closes the dialog and nulls the comment status. SHOW_BANUSER_DIALOG opens it and takes user, comment id, comment status and rejected note from the payload. SET_ACTIVE_TAB and TOGGLE_MODAL write only their own key. SINGLE_VIEW negates single view. HIDE_SHORTCUTS_NOTE sets the note to `"hide"`. Any other action returns the state unchanged |
| ModerationReducer.ShowThenHide | client/coral-admin/src/reducers/moderation.js:16-28 | show followed by hide leaves the dialog closed with no comment status. User, comment id and rejected note keep the values the show set. Single view, modal, active tab and shortcuts note are as before the show |
| ModerationReducer.ToggleModalLastWriteWins | client/coral-admin/src/reducers/moderation.js:32-34 | two TOGGLE_MODAL actions in a row give the same state as the second one alone |
| ModerationReducer.SetActiveTabLastWriteWins | client/coral-admin/src/reducers/moderation.js:29-31 | two SET_ACTIVE_TAB actions in a row give the same state as the second one alone |
| ModerationReducer.SingleViewInvolution | client/coral-admin/src/reducers/moderation.js:35-37 | SINGLE_VIEW dispatched twice gives back the original state |
| ModerationReducer.HideShortcutsNoteIdempotent | client/coral-admin/src/reducers/moderation.js:38-40 | HIDE_SHORTCUTS_NOTE dispatched twice gives the same state as dispatching it once |
| ModerationReducer.BanDialogScenario | client/coral-admin/src/reducers/moderation.js:4-28 | from the initial state, opening the ban dialog for user `{id: "u1"}` on comment `c1` with status `rejected` and the rejected note set gives exactly those values with the dialog open. Closing it then gives a closed dialog with null status and leaves user, comment id and rejected note as they were |
| ModerationStore.Replay | client/coral-admin/src/reducers/moderation.js:14-44 | dispatching a sequence of actions changes no key outside the union of the actions' footprints, and the empty sequence changes nothing |
| ModerationStore.ReachableClosedDialogHasNoStatus | client/coral-admin/src/reducers/moderation.js:4-28 | in every state reachable from the initial state, a closed ban dialog has a null comment status |
| ModerationStore.ReachableOpenDialogCameFromShow | client/coral-admin/src/reducers/moderation.js:4-28 | in every state reachable from the initial state, an open ban dialog was opened by one SHOW_BANUSER_DIALOG with no show or hide after it. The state's user, comment id, comment status and rejected note are the ones that action carried |
| ModerationStore.HiddenShortcutsNoteStaysHidden | client/coral-admin/src/reducers/moderation.js:38-40 | once the shortcuts note is `"hide"`, no sequence of actions shows it again |

## Left out

- `window.localStorage.getItem` is browser I/O. It is the `stored` parameter of `InitialState`, and nothing writes the preference back.
- Immutable.js `Map` semantics are not modelled. The state is a plain record with one field per key. `Map(action.user)` is modelled as a payload that is already a `map<string, Value>`. `Value` is a small stand-in for JavaScript values: null, booleans, integers and strings.
- Payload fields are typed. `commentId`, `commentStatus` and `activeTab` are nullable strings, `open` is a boolean, and `showRejectedNote` is a nullable boolean. JavaScript would accept any value there, and the model does not.
- The model does not tell apart `null`, `undefined` and an absent key. In the source, SHOW_BANUSER_DIALOG with no `showRejectedNote` stores the key with the value `undefined`. The model stores `None`, which it also uses for an absent key.
- The action type strings come from `../constants/moderation`, which is not part of this model. Each recognised kind is a constructor of `Action`, and all other actions are `Other`. The model assumes the six kinds are distinct.
- `client/coral-admin/src/routes/Community/components/FlaggedAccounts.js` is not modelled. It is a React presentational component that renders a list of users or an empty-state card, with no logic of its own.
- `client/coral-reaction/typeDefGenerator.js` is not modelled. It returns a fixed GraphQL schema string whatever its argument is. Its unused `capitalize` helper calls `String.new`, which does not exist.
