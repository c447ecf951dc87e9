/** The user profile and its edit buffers in App.tsx: the profile the app
    starts with, toggling a skin type in the buffer, renaming, and saving or
    cancelling the edit as a whole. */
module Profile {
  import opened Util
  import opened Types

  /** The profile used when nothing is stored. */
  const DefaultProfile := UserProfile("Sarah Jenkins", [Oily, Sensitive])

  /** The starting profile: the stored record, taken as it is without any
      validation, or the default when nothing is stored. */
  function LoadProfile(stored: Option<UserProfile>): (p: UserProfile)
    ensures stored.None? ==> p.name == "Sarah Jenkins" && p.skinTypes == [Oily, Sensitive]
    ensures stored.Some? ==> p == stored.value
  {
    stored.GetOr(DefaultProfile)
  }

  /** The profile, the two edit buffers and whether the edit form is open. */
  datatype Editor = Editor(profile: UserProfile, editName: string, editSkinTypes: seq<SkinType>, editing: bool)

  /** The buffers hold exactly the saved profile. */
  predicate Synced(e: Editor) {
    e.editName == e.profile.name && e.editSkinTypes == e.profile.skinTypes
  }

  /** The state after start-up: buffers initialised from the profile, form closed. */
  function OpenApp(stored: Option<UserProfile>): (e: Editor)
    ensures e.profile == LoadProfile(stored)
    ensures Synced(e) && !e.editing
  {
    var p := LoadProfile(stored);
    Editor(p, p.name, p.skinTypes, false)
  }

  /** toggleSkinTypeEdit on a selection: a present type is filtered out, an
      absent one is appended. */
  function Toggle(types: seq<SkinType>, t: SkinType): (r: seq<SkinType>)
    ensures t in r <==> t !in types
    ensures forall u :: u != t ==> (u in r <==> u in types)
    ensures t in types ==> IsSubseq(r, types)
    ensures t in types ==> forall u :: u != t ==> multiset(r)[u] == multiset(types)[u]
    ensures t !in types ==> r == types + [t]
    ensures NoDuplicates(types) ==> NoDuplicates(r)
  {
    if t in types then
      var r := Filter(types, (u: SkinType) => u != t);
      FilterNoDuplicatesFor(types, t);
      assert forall u :: u != t && u !in types ==> multiset(r)[u] == 0 by {
        forall u | u != t && u !in types ensures multiset(r)[u] == 0 {
          assert u !in r;
        }
      }
      r
    else
      assert NoDuplicates(types) ==> NoDuplicates(types + [t]) by {
        if NoDuplicates(types) {
          NoDuplicatesSnoc(types, t);
        }
      }
      types + [t]
  }

  lemma FilterNoDuplicatesFor(types: seq<SkinType>, t: SkinType)
    ensures NoDuplicates(types) ==> NoDuplicates(Filter(types, (u: SkinType) => u != t))
  {
    if NoDuplicates(types) {
      FilterNoDuplicates(types, (u: SkinType) => u != t);
    }
  }

  lemma NoDuplicatesSnoc(s: seq<SkinType>, t: SkinType)
    requires NoDuplicates(s) && t !in s
    ensures NoDuplicates(s + [t])
  {
    var r := s + [t];
    forall i, j | 0 <= i < j < |r| ensures r[i] != r[j] {
      assert r[i] == s[i];
      if j < |s| {
        assert r[j] == s[j];
      }
    }
  }

  /** Toggling an absent type twice restores the selection exactly. */
  lemma ToggleTwiceRestores(types: seq<SkinType>, t: SkinType)
    requires t !in types
    ensures Toggle(Toggle(types, t), t) == types
  {
    var keep := (u: SkinType) => u != t;
    assert Toggle(types + [t], t) == Filter(types + [t], keep);
    FilterAppend(types, [t], keep);
    FilterKeepsAll(types, keep);
    assert Filter([t], keep) == [];
  }

  /** Toggling a present type twice, in a selection without duplicates,
      moves it to the end and keeps the others in order. */
  lemma ToggleTwiceMovesToEnd(types: seq<SkinType>, t: SkinType)
    requires t in types && NoDuplicates(types)
    ensures Toggle(Toggle(types, t), t) == Filter(types, (u: SkinType) => u != t) + [t]
  {
  }

  function ToggleSkinTypeEdit(e: Editor, t: SkinType): Editor {
    e.(editSkinTypes := Toggle(e.editSkinTypes, t))
  }

  /** Typing in the name field. */
  function SetEditName(e: Editor, name: string): Editor {
    e.(editName := name)
  }

  /** The profile screen's edit button: open the form with fresh buffers. */
  function EditFromProfile(e: Editor): Editor {
    e.(editing := true, editName := e.profile.name, editSkinTypes := e.profile.skinTypes)
  }

  /** The home screen's edit button: open the form, keeping the buffers. */
  function EditFromHome(e: Editor): Editor {
    e.(editing := true)
  }

  /** saveProfile: the whole profile is replaced by the buffers. */
  function SaveProfile(e: Editor): (r: Editor)
    ensures r.profile == UserProfile(e.editName, e.editSkinTypes)
    ensures Synced(r) && !r.editing
    ensures r.editName == e.editName && r.editSkinTypes == e.editSkinTypes
  {
    e.(profile := UserProfile(e.editName, e.editSkinTypes), editing := false)
  }

  /** cancelProfileEdit: the buffers are reset to the profile, which stays. */
  function CancelProfileEdit(e: Editor): (r: Editor)
    ensures r.profile == e.profile
    ensures Synced(r) && !r.editing
  {
    e.(editName := e.profile.name, editSkinTypes := e.profile.skinTypes, editing := false)
  }

  /** The things a user can do on the profile screens. The name field and
      the skin-type buttons are only shown while the form is open. */
  datatype Action = ToggleType(t: SkinType) | Rename(name: string) | OpenFromProfile | OpenFromHome | Save | Cancel

  predicate Enabled(e: Editor, a: Action) {
    (a.ToggleType? || a.Rename?) ==> e.editing
  }

  function Step(e: Editor, a: Action): Editor {
    match a
    case ToggleType(t) => ToggleSkinTypeEdit(e, t)
    case Rename(n) => SetEditName(e, n)
    case OpenFromProfile => EditFromProfile(e)
    case OpenFromHome => EditFromHome(e)
    case Save => SaveProfile(e)
    case Cancel => CancelProfileEdit(e)
  }

  /** Whenever the form is closed, the buffers hold exactly the saved profile. */
  predicate Consistent(e: Editor) {
    e.editing || Synced(e)
  }

  /** Every enabled action keeps the editor consistent, and the profile
      changes only by saving. */
  lemma StepKeepsConsistent(e: Editor, a: Action)
    requires Consistent(e) && Enabled(e, a)
    ensures Consistent(Step(e, a))
    ensures !a.Save? ==> Step(e, a).profile == e.profile
  {
  }

  /** Every run of enabled actions from start-up keeps the editor consistent. */
  lemma {:induction false} RunKeepsConsistent(e: Editor, actions: seq<Action>)
    requires Consistent(e)
    ensures Consistent(Run(e, actions))
    decreases |actions|
  {
    if actions != [] {
      var next := if Enabled(e, actions[0]) then Step(e, actions[0]) else e;
      if Enabled(e, actions[0]) {
        StepKeepsConsistent(e, actions[0]);
      }
      RunKeepsConsistent(next, actions[1..]);
    }
  }

  /** Apply the enabled actions in order; a disabled one has no effect. */
  function Run(e: Editor, actions: seq<Action>): Editor
    decreases |actions|
  {
    if actions == [] then e
    else Run(if Enabled(e, actions[0]) then Step(e, actions[0]) else e, actions[1..])
  }

  /** From a closed, consistent form the home screen's edit button opens the
      same buffers as the profile screen's, although it does not reset them. */
  lemma EditButtonsAgree(e: Editor)
    requires Consistent(e) && !e.editing
    ensures EditFromHome(e) == EditFromProfile(e)
  {
  }

  /** A saved profile, reloaded at the next start, comes back identical,
      names and skin-type order included. */
  lemma SaveThenReload(e: Editor)
    ensures OpenApp(Some(SaveProfile(e).profile)).profile == UserProfile(e.editName, e.editSkinTypes)
  {
  }
}
