/**
 * The state container that owns the moderation state: it starts from the
 * initial state (the reducer's default argument) and replaces the state with
 * the reducer's result on every dispatch, one action at a time.
 */
module ModerationStore {
  import opened Optional
  import opened ModerationReducer

  /** The union of the footprints of a sequence of actions. */
  function WritesAll(acts: seq<Action>): set<Key>
  {
    if acts == [] then {} else WritesAll(acts[..|acts| - 1]) + Writes(acts[|acts| - 1])
  }

  /** The state after dispatching `acts`, in order, starting from `s`. */
  function Replay(s: State, acts: seq<Action>): (r: State)
    ensures forall k :: k !in WritesAll(acts) ==> Get(r, k) == Get(s, k)
    ensures acts == [] ==> r == s
    decreases |acts|
  {
    if acts == [] then s
    else Moderation(Replay(s, acts[..|acts| - 1]), acts[|acts| - 1])
  }

  /** A closed ban dialog never carries a comment status. */
  predicate ClosedDialogHasNoStatus(s: State)
  {
    !s.banDialog ==> s.commentStatus == None
  }

  /** Every state the store reaches from the initial state keeps `ClosedDialogHasNoStatus`. */
  lemma {:induction false} ReachableClosedDialogHasNoStatus(stored: Option<string>, acts: seq<Action>)
    ensures ClosedDialogHasNoStatus(Replay(InitialState(stored), acts))
    decreases |acts|
  {
    if acts != [] {
      ReachableClosedDialogHasNoStatus(stored, acts[..|acts| - 1]);
    }
  }

  /** Whether an action opens or closes the ban dialog. */
  predicate TouchesBanDialog(a: Action)
  {
    a.ShowBanUserDialog? || a.HideBanUserDialog?
  }

  /**
   * `acts[i]` opened the ban dialog, no later action opened or closed it, and
   * `r` still holds the user, comment id, comment status and rejected-note
   * flag that `acts[i]` carried.
   */
  ghost predicate OpenedBy(r: State, acts: seq<Action>, i: int)
  {
    && 0 <= i < |acts|
    && acts[i].ShowBanUserDialog?
    && (forall j :: i < j < |acts| ==> !TouchesBanDialog(acts[j]))
    && r.user == acts[i].user
    && r.commentId == acts[i].commentId
    && r.commentStatus == acts[i].commentStatus
    && r.showRejectedNote == acts[i].showRejectedNote
  }

  /**
   * In every state the store reaches from the initial state, an open ban
   * dialog was opened by one SHOW_BANUSER_DIALOG, which set the user, comment
   * id and comment status together, and nothing has closed it since.
   */
  lemma {:induction false} ReachableOpenDialogCameFromShow(stored: Option<string>, acts: seq<Action>)
    ensures var r := Replay(InitialState(stored), acts);
      r.banDialog ==> exists i :: OpenedBy(r, acts, i)
    decreases |acts|
  {
    var r := Replay(InitialState(stored), acts);
    if acts != [] && r.banDialog {
      var pre, a := acts[..|acts| - 1], acts[|acts| - 1];
      var p := Replay(InitialState(stored), pre);
      assert r == Moderation(p, a);
      if a.ShowBanUserDialog? {
        assert OpenedBy(r, acts, |acts| - 1);
      } else {
        assert !a.HideBanUserDialog?;
        assert Get(r, BanDialogKey) == Get(p, BanDialogKey);
        ReachableOpenDialogCameFromShow(stored, pre);
        var i :| OpenedBy(p, pre, i);
        assert Get(r, UserKey) == Get(p, UserKey);
        assert Get(r, CommentIdKey) == Get(p, CommentIdKey);
        assert Get(r, CommentStatusKey) == Get(p, CommentStatusKey);
        assert Get(r, ShowRejectedNoteKey) == Get(p, ShowRejectedNoteKey);
        assert OpenedBy(r, acts, i);
      }
    }
  }

  /** The shortcuts note, once hidden, stays hidden whatever is dispatched afterwards. */
  lemma {:induction false} HiddenShortcutsNoteStaysHidden(s: State, acts: seq<Action>)
    requires s.shortcutsNoteVisible == "hide"
    ensures Replay(s, acts).shortcutsNoteVisible == "hide"
    decreases |acts|
  {
    if acts != [] {
      HiddenShortcutsNoteStaysHidden(s, acts[..|acts| - 1]);
    }
  }
}
