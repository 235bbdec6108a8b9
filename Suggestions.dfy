/** The "Discover Users" dialog (`UserSuggestionsModal`): the suggested users
    fetched when it opens, and the short skills preview on each card. */
module Suggestions {
  import opened Wrappers
  import opened Requests

  /** A suggested user; only the skills matter to the dialog's logic. */
  datatype SuggestedUser = SuggestedUser(username: Option<string>, skills: Option<seq<string>>)

  const PreviewSize := 3
  const LoadFailed := "Failed to load suggestions. Please try again."

  /** The skills row of a card: nothing when the user has no skills, else
      the skills shown and, when some are hidden, the number on the "+N"
      badge. */
  datatype SkillsRow = NoSkills | SkillsRow(shown: seq<string>, badge: Option<nat>)

  /** `skills.slice(0, 3)` and `+{skills.length - 3}` when the length is
      over 3, inside `skills && skills.length > 0`. */
  function Preview(skills: Option<seq<string>>): (row: SkillsRow)
    ensures row.NoSkills? <==> skills.None? || skills.value == []
    ensures row.SkillsRow? ==>
      skills.Some? && |row.shown| <= PreviewSize && |row.shown| <= |skills.value| && row.shown == skills.value[..|row.shown|]
    ensures row.SkillsRow? ==> (row.badge.Some? <==> |skills.value| > PreviewSize)
  {
    if skills.None? || skills.value == [] then NoSkills
    else
      var all := skills.value;
      var n := |all|;
      SkillsRow(all[..if n < PreviewSize then n else PreviewSize],
                if n > PreviewSize then Some(n - PreviewSize) else None)
  }

  /** Nothing is lost and nothing is counted twice: the shown skills are the
      first ones, at most three and as many as there are up to three, and the
      badge counts exactly the rest. */
  lemma PreviewAccountsForAll(skills: seq<string>)
    requires skills != []
    ensures var row := Preview(Some(skills));
      && |row.shown| == (if |skills| < PreviewSize then |skills| else PreviewSize)
      && |row.shown| + row.badge.GetOr(0) == |skills|
      && row.shown + skills[|row.shown|..] == skills
      && |skills[|row.shown|..]| == row.badge.GetOr(0)
  {
    var row := Preview(Some(skills));
    assert row.shown + skills[|row.shown|..] == skills;
  }

  /** The line above the cards. */
  datatype Header = Showing(count: nat) | ClickRefresh

  /** `Showing N suggestions` exactly when there are users to show. */
  function HeaderFor(users: seq<SuggestedUser>): (h: Header)
    ensures h.Showing? <==> |users| > 0
    ensures h.Showing? ==> h.count == |users|
  {
    if |users| > 0 then Showing(|users|) else ClickRefresh
  }

  /** The dialog. `fetches` counts the suggestion requests sent. */
  class SuggestionsModal {
    var isOpen: bool
    var users: seq<SuggestedUser>
    var loading: bool
    var error: string
    var fetches: nat

    constructor ()
      ensures !isOpen && users == [] && !loading && error == "" && fetches == 0
    {
      isOpen, users, loading, error, fetches := false, [], false, "", 0;
    }

    /** `fetchSuggestions`, from the effect or the refresh button: the error
        is cleared and the request sent; success shows the returned `users`
        (none when the response has none), failure shows no users and the
        error text. `loading` is down again either way. */
    method FetchSuggestions(outcome: Outcome<Option<seq<SuggestedUser>>>)
      modifies this
      ensures fetches == old(fetches) + 1 && !loading && isOpen == old(isOpen)
      ensures outcome.Success? ==> users == outcome.body.GetOr([]) && error == ""
      ensures outcome.Failure? ==> users == [] && error == LoadFailed
    {
      loading := true;
      error := "";
      fetches := fetches + 1;
      if outcome.Success? {
        users := outcome.body.GetOr([]);
      } else {
        error := LoadFailed;
        users := [];
      }
      loading := false;
    }

    /** The parent changed `isOpen`. The effect keyed on it fetches only when
        the dialog is now open and holds no users; users from an earlier
        opening are kept and shown again without a request. */
    method OnOpenChanged(open: bool, outcome: Outcome<Option<seq<SuggestedUser>>>)
      requires open != isOpen
      modifies this
      ensures isOpen == open
      ensures open && old(users) == [] ==> fetches == old(fetches) + 1 && !loading
      ensures open && old(users) == [] && outcome.Success? ==> users == outcome.body.GetOr([]) && error == ""
      ensures open && old(users) == [] && outcome.Failure? ==> users == [] && error == LoadFailed
      ensures !(open && old(users) == []) ==>
        fetches == old(fetches) && users == old(users) && error == old(error) && loading == old(loading)
    {
      isOpen := open;
      if open && users == [] {
        FetchSuggestions(outcome);
      }
    }
  }
}
