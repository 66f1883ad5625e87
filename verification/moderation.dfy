/**
 * The moderation UI reducer of the admin client: an immutable record of UI
 * flags and dialog context, and the pure transition function that builds the
 * next record from the current one and a dispatched action.
 */
module ModerationReducer {
  import opened Optional

  /** A JavaScript value held in the `user` map of a ban dialog. */
  datatype Value = Null | Bool(b: bool) | Num(n: int) | Str(s: string)

  /** The keys of the state map. `activeTab` and `showRejectedNote` are absent from the initial map. */
  datatype Key =
    | SingleViewKey | ModalOpenKey | UserKey | CommentIdKey | CommentStatusKey
    | BanDialogKey | ShortcutsNoteVisibleKey | ActiveTabKey | ShowRejectedNoteKey

  /** What `state.get(key)` returns, tagged by the shape of the key's value. */
  datatype Slot =
    | Flag(flag: bool)
    | Text(text: string)
    | MaybeText(maybeText: Option<string>)
    | MaybeFlag(maybeFlag: Option<bool>)
    | Object(object: map<string, Value>)

  /**
   * The state map as a record. `None` stands for `null` in `commentId` and
   * `commentStatus`, and for a key not (yet) present in `activeTab` and
   * `showRejectedNote`.
   */
  datatype State = State(
    singleView: bool,
    modalOpen: bool,
    user: map<string, Value>,
    commentId: Option<string>,
    commentStatus: Option<string>,
    banDialog: bool,
    shortcutsNoteVisible: string,
    activeTab: Option<string>,
    showRejectedNote: Option<bool>)

  /** The recognised action kinds with the payload each one reads; `Other` is any other action. */
  datatype Action =
    | HideBanUserDialog
    | ShowBanUserDialog(user: map<string, Value>, commentId: Option<string>,
                        commentStatus: Option<string>, showRejectedNote: Option<bool>)
    | SetActiveTab(activeTab: Option<string>)
    | ToggleModal(open: bool)
    | SingleView
    | HideShortcutsNote
    | Other(kind: string)

  /** `state.get(k)`: the value the state map holds under key `k`. */
  function Get(s: State, k: Key): Slot
  {
    match k
    case SingleViewKey => Flag(s.singleView)
    case ModalOpenKey => Flag(s.modalOpen)
    case UserKey => Object(s.user)
    case CommentIdKey => MaybeText(s.commentId)
    case CommentStatusKey => MaybeText(s.commentStatus)
    case BanDialogKey => Flag(s.banDialog)
    case ShortcutsNoteVisibleKey => Text(s.shortcutsNoteVisible)
    case ActiveTabKey => MaybeText(s.activeTab)
    case ShowRejectedNoteKey => MaybeFlag(s.showRejectedNote)
  }

  /** The keys an action's case sets or merges; every other key must come through unchanged. */
  function Writes(a: Action): set<Key>
  {
    match a
    case HideBanUserDialog => {BanDialogKey, CommentStatusKey}
    case ShowBanUserDialog(_, _, _, _) =>
      {UserKey, CommentIdKey, CommentStatusKey, ShowRejectedNoteKey, BanDialogKey}
    case SetActiveTab(_) => {ActiveTabKey}
    case ToggleModal(_) => {ModalOpenKey}
    case SingleView => {SingleViewKey}
    case HideShortcutsNote => {ShortcutsNoteVisibleKey}
    case Other(_) => {}
  }

  /** JavaScript `stored || fallback` for a nullable string: `null` and `""` are falsy. */
  function OrElse(stored: Option<string>, fallback: string): string
  {
    if stored.Some? && stored.value != "" then stored.value else fallback
  }

  /**
   * The initial state. `stored` is the persisted `coral:shortcutsNote`
   * preference, read once from the browser's local storage.
   */
  function InitialState(stored: Option<string>): (r: State)
    ensures !r.singleView && !r.modalOpen && !r.banDialog
    ensures r.user == map[] && r.commentId == None && r.commentStatus == None
    ensures r.activeTab == None && r.showRejectedNote == None
    ensures stored.Some? && stored.value != "" ==> r.shortcutsNoteVisible == stored.value
    ensures stored.None? || stored.value == "" ==> r.shortcutsNoteVisible == "show"
    ensures r.shortcutsNoteVisible != ""
  {
    State(
      singleView := false,
      modalOpen := false,
      user := map[],
      commentId := None,
      commentStatus := None,
      banDialog := false,
      shortcutsNoteVisible := OrElse(stored, "show"),
      activeTab := None,
      showRejectedNote := None)
  }

  /** The reducer: the state that follows `s` once action `a` is dispatched. */
  function Moderation(s: State, a: Action): (r: State)
    // frame: every key outside the action's footprint keeps its value
    ensures forall k :: k !in Writes(a) ==> Get(r, k) == Get(s, k)
    ensures a.HideBanUserDialog? ==> !r.banDialog && r.commentStatus == None
    ensures a.ShowBanUserDialog? ==>
      && r.banDialog
      && r.user == a.user
      && r.commentId == a.commentId
      && r.commentStatus == a.commentStatus
      && r.showRejectedNote == a.showRejectedNote
    ensures a.SetActiveTab? ==> r.activeTab == a.activeTab
    ensures a.ToggleModal? ==> r.modalOpen == a.open
    ensures a.SingleView? ==> r.singleView == !s.singleView
    ensures a.HideShortcutsNote? ==> r.shortcutsNoteVisible == "hide"
    ensures a.Other? ==> r == s
  {
    match a
    case HideBanUserDialog =>
      s.(banDialog := false, commentStatus := None)
    case ShowBanUserDialog(user, commentId, commentStatus, showRejectedNote) =>
      s.(user := user, commentId := commentId, commentStatus := commentStatus,
         showRejectedNote := showRejectedNote, banDialog := true)
    case SetActiveTab(tab) =>
      s.(activeTab := tab)
    case ToggleModal(open) =>
      s.(modalOpen := open)
    case SingleView =>
      s.(singleView := !s.singleView)
    case HideShortcutsNote =>
      s.(shortcutsNoteVisible := "hide")
    case Other(_) =>
      s
  }

  /**
   * Opening the ban dialog and closing it again leaves the dialog hidden with
   * no comment status, keeps the user, comment id and rejected-note flag the
   * opening set, and leaves the flags neither action touches as they were.
   */
  lemma ShowThenHide(s: State, user: map<string, Value>, commentId: Option<string>,
                     commentStatus: Option<string>, showRejectedNote: Option<bool>)
    ensures var r := Moderation(Moderation(s, ShowBanUserDialog(user, commentId, commentStatus, showRejectedNote)),
                                HideBanUserDialog);
      && !r.banDialog && r.commentStatus == None
      && r.user == user && r.commentId == commentId && r.showRejectedNote == showRejectedNote
      && r.singleView == s.singleView && r.modalOpen == s.modalOpen
      && r.activeTab == s.activeTab && r.shortcutsNoteVisible == s.shortcutsNoteVisible
  {
  }

  /** Two TOGGLE_MODAL actions in a row: only the second one matters. */
  lemma ToggleModalLastWriteWins(s: State, first: bool, second: bool)
    ensures Moderation(Moderation(s, ToggleModal(first)), ToggleModal(second))
         == Moderation(s, ToggleModal(second))
  {
  }

  /** Two SET_ACTIVE_TAB actions in a row: only the second one matters. */
  lemma SetActiveTabLastWriteWins(s: State, first: Option<string>, second: Option<string>)
    ensures Moderation(Moderation(s, SetActiveTab(first)), SetActiveTab(second))
         == Moderation(s, SetActiveTab(second))
  {
  }

  /** SINGLE_VIEW is an involution: dispatching it twice restores the state. */
  lemma SingleViewInvolution(s: State)
    ensures Moderation(Moderation(s, SingleView), SingleView) == s
  {
  }

  /** HIDE_SHORTCUTS_NOTE is idempotent. */
  lemma HideShortcutsNoteIdempotent(s: State)
    ensures Moderation(Moderation(s, HideShortcutsNote), HideShortcutsNote)
         == Moderation(s, HideShortcutsNote)
  {
  }

  /**
   * From the initial state, opening the ban dialog for user u1 on a rejected
   * comment c1 and closing it again.
   */
  lemma BanDialogScenario(stored: Option<string>)
    ensures var user := map["id" := Str("u1")];
      var shown := Moderation(InitialState(stored),
                               ShowBanUserDialog(user, Some("c1"), Some("rejected"), Some(true)));
      var hidden := Moderation(shown, HideBanUserDialog);
      && shown.banDialog && shown.user == user && shown.commentId == Some("c1")
      && shown.commentStatus == Some("rejected") && shown.showRejectedNote == Some(true)
      && !hidden.banDialog && hidden.commentStatus == None
      && hidden.user == user && hidden.commentId == Some("c1") && hidden.showRejectedNote == Some(true)
  {
  }
}
