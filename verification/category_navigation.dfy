/**
 * The navigation bar above the calculator: a dropdown of saved calculation
 * titles, a free-text title input, a Save button that adds the typed title
 * to the list, and a Delete button that asks for confirmation before
 * removing a title.
 *
 * The handlers are pure transitions on `NavState`; `Step` dispatches the
 * user's interactions to them, treating a click on a control that is not on
 * screen (a dropdown entry while the dropdown is closed, a dialog button
 * while the dialog is closed) as impossible and therefore a no-op.
 */
module CategoryNavigation {

  /** The dropdown's first entry, which doubles as "nothing selected". */
  const NoSelection: string := "Select Existing Calculations"
  /** The input's initial text, which Save refuses to store. */
  const Placeholder: string := "Celsior ROI Calculator Title"

  datatype NavState = NavState(
    isDropdownOpen: bool,
    selectedTitle: string,
    searchInput: string,
    titles: seq<string>,
    isDeleteDialogOpen: bool,
    titleToDelete: string)

  const InitialTitles: seq<string> := [
    NoSelection,
    "Q1 2025 Budget Planning",
    "Enterprise AI Evaluation",
    "Developer Productivity Study",
    "Cost Optimization Analysis"]

  const Initial: NavState := NavState(false, NoSelection, Placeholder, InitialTitles, false, "")

  // ---------------------------------------------------------------- trim

  /** The whitespace `String.prototype.trim` removes, restricted to the common characters. */
  predicate IsSpace(c: char) {
    c == ' ' || c == '\t' || c == '\n' || c == '\r' || c == '\U{000B}' || c == '\U{000C}'
    || c == '\U{00A0}' || c == '\U{FEFF}' || c == '\U{2028}' || c == '\U{2029}'
  }

  function TrimStart(s: string): (r: string)
    ensures |r| <= |s| && r == s[|s| - |r|..]
    ensures forall k :: 0 <= k < |s| - |r| ==> IsSpace(s[k])
    ensures |r| == 0 || !IsSpace(r[0])
    decreases |s|
  {
    if |s| > 0 && IsSpace(s[0]) then TrimStart(s[1..]) else s
  }

  function TrimEnd(s: string): (r: string)
    ensures |r| <= |s| && r == s[..|r|]
    ensures forall k :: |r| <= k < |s| ==> IsSpace(s[k])
    ensures |r| == 0 || !IsSpace(r[|r| - 1])
    decreases |s|
  {
    if |s| > 0 && IsSpace(s[|s| - 1]) then TrimEnd(s[..|s| - 1]) else s
  }

  /** `s.trim()`: leading and trailing whitespace removed. */
  function Trim(s: string): (r: string)
    ensures |r| == 0 || (!IsSpace(r[0]) && !IsSpace(r[|r| - 1]))
  {
    TrimEnd(TrimStart(s))
  }

  /** Trimming a trimmed string changes nothing. */
  lemma TrimIdempotent(s: string)
    ensures Trim(Trim(s)) == Trim(s)
  {
    var t := Trim(s);
    if |t| > 0 {
      assert TrimStart(t) == t;
      assert TrimEnd(t) == t;
    }
  }

  // ----------------------------------------------------------- title list

  predicate NoDuplicates(xs: seq<string>) {
    forall j, k :: 0 <= j < k < |xs| ==> xs[j] != xs[k]
  }

  /** `titles.filter(t => t !== title)`. */
  function RemoveAll(xs: seq<string>, title: string): (r: seq<string>)
    ensures multiset(r) == multiset(xs)[title := 0]
    decreases |xs|
  {
    if |xs| == 0 then []
    else
      assert xs == [xs[0]] + xs[1..];
      if xs[0] == title then RemoveAll(xs[1..], title)
      else [xs[0]] + RemoveAll(xs[1..], title)
  }

  /** Filtering a concatenation filters each part and keeps them in order. */
  lemma {:induction false} RemoveAllDistributes(a: seq<string>, b: seq<string>, title: string)
    ensures RemoveAll(a + b, title) == RemoveAll(a, title) + RemoveAll(b, title)
    decreases |a|
  {
    if |a| == 0 {
      assert a + b == b;
    } else {
      assert (a + b)[0] == a[0];
      assert (a + b)[1..] == a[1..] + b;
      RemoveAllDistributes(a[1..], b, title);
    }
  }

  /**
   * Deleting removes every occurrence of the title and keeps every other
   * title, each as often as before and in the original order.
   */
  lemma RemoveAllSpec(xs: seq<string>, title: string)
    ensures title !in RemoveAll(xs, title)
    ensures forall x :: x != title ==> (x in RemoveAll(xs, title) <==> x in xs)
    ensures title !in xs ==> RemoveAll(xs, title) == xs
    ensures forall k :: 0 <= k < |xs| ==>
      RemoveAll(xs, title) == RemoveAll(xs[..k], title) + RemoveAll(xs[k..], title)
  {
    var r := RemoveAll(xs, title);
    assert multiset(r)[title] == 0;
    forall x | x != title ensures x in r <==> x in xs {
      assert multiset(r)[x] == multiset(xs)[x];
    }
    if title !in xs {
      RemoveAllAbsent(xs, title);
    }
    forall k | 0 <= k < |xs|
      ensures r == RemoveAll(xs[..k], title) + RemoveAll(xs[k..], title)
    {
      assert xs == xs[..k] + xs[k..];
      RemoveAllDistributes(xs[..k], xs[k..], title);
    }
  }

  lemma {:induction false} RemoveAllAbsent(xs: seq<string>, title: string)
    requires title !in xs
    ensures RemoveAll(xs, title) == xs
    decreases |xs|
  {
    if |xs| > 0 {
      RemoveAllAbsent(xs[1..], title);
      assert xs == [xs[0]] + xs[1..];
    }
  }

  /** Filtering never introduces a duplicate. */
  lemma {:induction false} RemoveAllKeepsNoDuplicates(xs: seq<string>, title: string)
    requires NoDuplicates(xs)
    ensures NoDuplicates(RemoveAll(xs, title))
    decreases |xs|
  {
    if |xs| > 0 {
      var tail := xs[1..];
      assert NoDuplicates(tail) by {
        forall j, k | 0 <= j < k < |tail| ensures tail[j] != tail[k] {
          assert tail[j] == xs[j + 1] && tail[k] == xs[k + 1];
        }
      }
      RemoveAllKeepsNoDuplicates(tail, title);
      if xs[0] != title {
        assert xs[0] !in tail;
        assert multiset(tail)[xs[0]] == 0;
        var rest := RemoveAll(tail, title);
        assert multiset(rest)[xs[0]] == 0;
        assert xs[0] !in rest;
      }
    }
  }

  // ------------------------------------------------------------ handlers

  /** `handleTitleSelect`: the chosen title becomes the selection and the input text, and the dropdown closes. */
  function HandleTitleSelect(s: NavState, title: string): (r: NavState)
    ensures r.selectedTitle == title && r.searchInput == title && !r.isDropdownOpen
    ensures r.titles == s.titles && r.isDeleteDialogOpen == s.isDeleteDialogOpen && r.titleToDelete == s.titleToDelete
  {
    s.(selectedTitle := title, searchInput := title, isDropdownOpen := false)
  }

  /** Save stores a title only when its trimmed text is neither empty nor the placeholder. */
  predicate SaveAccepts(input: string) {
    var trimmed := Trim(input);
    trimmed != "" && trimmed != Placeholder
  }

  /** `handleSave`: append the trimmed input if it is new, and select it. */
  function HandleSave(s: NavState): (r: NavState)
    ensures !SaveAccepts(s.searchInput) ==> r == s
    ensures SaveAccepts(s.searchInput) ==> r.selectedTitle == Trim(s.searchInput) && r.selectedTitle in r.titles
    ensures s.titles <= r.titles && |r.titles| <= |s.titles| + 1
    ensures forall x :: x in r.titles ==> x in s.titles || x == Trim(s.searchInput)
    ensures r.searchInput == s.searchInput && r.isDropdownOpen == s.isDropdownOpen
    ensures r.isDeleteDialogOpen == s.isDeleteDialogOpen && r.titleToDelete == s.titleToDelete
  {
    var trimmed := Trim(s.searchInput);
    if trimmed != "" && trimmed != Placeholder then
      s.(titles := if trimmed in s.titles then s.titles else s.titles + [trimmed],
         selectedTitle := trimmed)
    else s
  }

  /**
   * An accepted save adds the trimmed input at the end exactly when it was
   * missing, and so never introduces a duplicate.
   */
  lemma SaveAppendsNewTitle(s: NavState)
    requires SaveAccepts(s.searchInput)
    ensures Trim(s.searchInput) in s.titles ==> HandleSave(s).titles == s.titles
    ensures Trim(s.searchInput) !in s.titles ==> HandleSave(s).titles == s.titles + [Trim(s.searchInput)]
    ensures NoDuplicates(s.titles) ==> NoDuplicates(HandleSave(s).titles)
  {
    var trimmed := Trim(s.searchInput);
    var r := HandleSave(s);
    if trimmed in s.titles {
      assert r == s.(selectedTitle := trimmed);
    } else {
      assert r == s.(titles := s.titles + [trimmed], selectedTitle := trimmed);
      assert r.titles[..|s.titles|] == s.titles;
      assert r.titles[|s.titles|] == trimmed;
      if NoDuplicates(s.titles) {
        AppendFreshKeepsNoDuplicates(s.titles, trimmed);
      }
    }
  }

  lemma AppendFreshKeepsNoDuplicates(xs: seq<string>, x: string)
    requires NoDuplicates(xs) && x !in xs
    ensures NoDuplicates(xs + [x])
  {
    var ys := xs + [x];
    forall j, k | 0 <= j < k < |ys| ensures ys[j] != ys[k] {
      assert ys[j] == xs[j];
      if k < |xs| {
        assert ys[k] == xs[k];
      }
    }
  }

  /** Saving twice has the same effect as saving once. */
  lemma SaveIdempotent(s: NavState)
    ensures HandleSave(HandleSave(s)) == HandleSave(s)
  {
  }

  /** `handleDelete`: remove the title; if it was selected, fall back to no selection and the placeholder. */
  function HandleDelete(s: NavState, title: string): (r: NavState)
    ensures title !in r.titles
    ensures forall x :: x != title ==> (x in r.titles <==> x in s.titles)
    ensures |r.titles| <= |s.titles|
    ensures s.selectedTitle == title ==> r.selectedTitle == NoSelection && r.searchInput == Placeholder
    ensures s.selectedTitle != title ==> r.selectedTitle == s.selectedTitle && r.searchInput == s.searchInput
    ensures r.isDropdownOpen == s.isDropdownOpen
    ensures r.isDeleteDialogOpen == s.isDeleteDialogOpen && r.titleToDelete == s.titleToDelete
  {
    RemoveAllSpec(s.titles, title);
    RemoveAllShrinks(s.titles, title);
    var r := s.(titles := RemoveAll(s.titles, title));
    if s.selectedTitle == title then r.(selectedTitle := NoSelection, searchInput := Placeholder)
    else r
  }

  lemma RemoveAllShrinks(xs: seq<string>, title: string)
    ensures |RemoveAll(xs, title)| <= |xs|
  {
    assert |RemoveAll(xs, title)| == |multiset(RemoveAll(xs, title))|;
    assert |multiset(xs)[title := 0]| <= |multiset(xs)|;
  }

  /** The title the Delete button asks about: the selection, or the typed text when nothing is selected. */
  function DeleteTarget(s: NavState): (target: string)
    ensures target == s.selectedTitle || target == s.searchInput
    ensures target == NoSelection ==> s.selectedTitle == NoSelection && s.searchInput == NoSelection
  {
    if s.selectedTitle != NoSelection then s.selectedTitle else s.searchInput
  }

  /** `openDeleteDialog`. */
  function OpenDeleteDialog(s: NavState, title: string): NavState {
    s.(titleToDelete := title, isDeleteDialogOpen := true)
  }

  /** `closeDeleteDialog`. */
  function CloseDeleteDialog(s: NavState): NavState {
    s.(isDeleteDialogOpen := false)
  }

  // -------------------------------------------------------------- events

  datatype NavEvent =
    | ToggleDropdown
    | ClickOutsideDropdown
    | PickTitle(index: nat)
    | EditInput(text: string)
    | Save
    | DeleteClicked
    | ConfirmDelete
    | CancelDelete
    | BackdropClick

  /**
   * One interaction. Only Save and a confirmed delete touch the list of
   * titles, and the only title that can appear is the trimmed input.
   */
  function Step(s: NavState, e: NavEvent): (r: NavState)
    ensures !e.Save? && !e.ConfirmDelete? ==> r.titles == s.titles
    ensures forall x :: x in r.titles ==> x in s.titles || (e.Save? && x == Trim(s.searchInput))
    ensures e.ConfirmDelete? && s.isDeleteDialogOpen ==> s.titleToDelete !in r.titles && !r.isDeleteDialogOpen
    ensures !e.ConfirmDelete? ==> |r.titles| >= |s.titles|
  {
    match e
    case ToggleDropdown => s.(isDropdownOpen := !s.isDropdownOpen)
    case ClickOutsideDropdown => s.(isDropdownOpen := false)
    case PickTitle(k) =>
      if s.isDropdownOpen && k < |s.titles| then HandleTitleSelect(s, s.titles[k]) else s
    case EditInput(text) => s.(searchInput := text)
    case Save => HandleSave(s)
    case DeleteClicked => OpenDeleteDialog(s, DeleteTarget(s))
    case ConfirmDelete =>
      if s.isDeleteDialogOpen then CloseDeleteDialog(HandleDelete(s, s.titleToDelete)) else s
    case CancelDelete => if s.isDeleteDialogOpen then CloseDeleteDialog(s) else s
    case BackdropClick => if s.isDeleteDialogOpen then CloseDeleteDialog(s) else s
  }

  /**
   * Confirming deletes the title the dialog was opened for and closes the
   * dialog; cancelling or clicking the backdrop only closes it.
   */
  lemma DialogOutcomes(s: NavState)
    requires s.isDeleteDialogOpen
    ensures var r := Step(s, ConfirmDelete);
      !r.isDeleteDialogOpen && r.titles == RemoveAll(s.titles, s.titleToDelete) && s.titleToDelete !in r.titles
    ensures Step(s, CancelDelete) == s.(isDeleteDialogOpen := false)
    ensures Step(s, BackdropClick) == s.(isDeleteDialogOpen := false)
  {
    RemoveAllSpec(s.titles, s.titleToDelete);
  }

  /** The Delete button opens the dialog for the delete target and touches nothing else. */
  lemma DeleteClickedOpensDialog(s: NavState)
    ensures Step(s, DeleteClicked) == s.(isDeleteDialogOpen := true, titleToDelete := DeleteTarget(s))
  {
  }

  /**
   * Picking a title from the open dropdown selects it, puts it in the input
   * and closes the dropdown; whatever was picked, even the "nothing
   * selected" entry, is then what the Delete button asks about.
   */
  lemma PickTitleSelectsIt(s: NavState, k: nat)
    requires s.isDropdownOpen && k < |s.titles|
    ensures var r := Step(s, PickTitle(k));
      && r.selectedTitle == s.titles[k] && r.searchInput == s.titles[k] && !r.isDropdownOpen
      && r.titles == s.titles
      && DeleteTarget(r) == s.titles[k]
  {
  }

  /**
   * Clicking Delete and confirming removes the selected title, or the typed
   * text when nothing is selected; the selection falls back to "nothing
   * selected" exactly when a real selection was deleted.
   */
  lemma DeleteThenConfirm(s: NavState)
    ensures var r := Step(Step(s, DeleteClicked), ConfirmDelete);
      && !r.isDeleteDialogOpen
      && (s.selectedTitle != NoSelection ==>
            r.titles == RemoveAll(s.titles, s.selectedTitle)
            && r.selectedTitle == NoSelection && r.searchInput == Placeholder)
      && (s.selectedTitle == NoSelection ==>
            r.titles == RemoveAll(s.titles, s.searchInput)
            && s.searchInput !in r.titles
            && (s.searchInput != NoSelection ==> r.selectedTitle == NoSelection && r.searchInput == s.searchInput))
  {
    RemoveAllSpec(s.titles, DeleteTarget(s));
  }

  /** The saved titles never contain a duplicate, whatever the user does. */
  lemma StepKeepsNoDuplicates(s: NavState, e: NavEvent)
    requires NoDuplicates(s.titles)
    ensures NoDuplicates(Step(s, e).titles)
  {
    match e
    case Save =>
      if SaveAccepts(s.searchInput) {
        SaveAppendsNewTitle(s);
      }
    case ConfirmDelete =>
      if s.isDeleteDialogOpen {
        RemoveAllKeepsNoDuplicates(s.titles, s.titleToDelete);
      }
    case _ =>
  }

  function Run(s: NavState, events: seq<NavEvent>): NavState
    decreases |events|
  {
    if |events| == 0 then s else Run(Step(s, events[0]), events[1..])
  }

  /** Starting from the initial list, no sequence of interactions produces a duplicate title. */
  lemma {:induction false} RunKeepsNoDuplicates(s: NavState, events: seq<NavEvent>)
    requires NoDuplicates(s.titles)
    ensures NoDuplicates(Run(s, events).titles)
    decreases |events|
  {
    if |events| > 0 {
      StepKeepsNoDuplicates(s, events[0]);
      RunKeepsNoDuplicates(Step(s, events[0]), events[1..]);
    }
  }

  lemma InitialHasNoDuplicates()
    ensures NoDuplicates(Initial.titles)
  {
  }
}
