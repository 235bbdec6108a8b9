/** The profile editor (`EditProfile`): the form state, the skills list, the
    checks made before the profile is saved, and the submit handler. */
module Profile {
  import opened Wrappers
  import opened Text
  import opened Requests

  /** The age field: empty, or the number in the number input (or the
      stored user's age). */
  datatype Age = NoAge | Years(value: real)

  datatype FormData = FormData(username: string, age: Age, gender: string, about: string, skills: seq<string>)

  /** The signed-in user from the store, each field possibly missing. */
  datatype User = User(
    username: Option<string>,
    age: Option<real>,
    gender: Option<string>,
    about: Option<string>,
    skills: Option<seq<string>>)

  /** The initial form: every field of the signed-in user, with `''` (and `[]`
      for skills) where the user or the field is missing. An age of 0 is
      falsy and also gives the empty field. */
  function InitialForm(user: Option<User>): (f: FormData)
    ensures user.None? ==> f == FormData("", NoAge, "", "", [])
    ensures user.Some? ==> f.username == user.value.username.GetOr("") && f.gender == user.value.gender.GetOr("")
    ensures user.Some? ==> f.about == user.value.about.GetOr("") && f.skills == user.value.skills.GetOr([])
    ensures f.age.Years? <==> user.Some? && user.value.age.Some? && user.value.age.value != 0.0
    ensures f.age.Years? ==> f.age.value == user.value.age.value
  {
    match user
    case None => FormData("", NoAge, "", "", [])
    case Some(u) =>
      FormData(
        u.username.GetOr(""),
        if u.age.Some? && u.age.value != 0.0 then Years(u.age.value) else NoAge,
        u.gender.GetOr(""),
        u.about.GetOr(""),
        u.skills.GetOr([]))
  }

  /** The `name` and `value` of the input that changed. */
  datatype FieldChange = Username(text: string) | AgeInput(age: Age) | Gender(text: string) | About(text: string)

  /** `handleInputChange`: the named field takes the new value and every other
      field, the skills included, keeps its value. */
  function InputChange(f: FormData, change: FieldChange): (g: FormData)
    ensures g.skills == f.skills
    ensures g.username == (if change.Username? then change.text else f.username)
    ensures g.age == (if change.AgeInput? then change.age else f.age)
    ensures g.gender == (if change.Gender? then change.text else f.gender)
    ensures g.about == (if change.About? then change.text else f.about)
  {
    match change
    case Username(t) => f.(username := t)
    case AgeInput(a) => f.(age := a)
    case Gender(t) => f.(gender := t)
    case About(t) => f.(about := t)
  }

  predicate NoDuplicates(s: seq<string>)
  {
    forall i, j :: 0 <= i < j < |s| ==> s[i] != s[j]
  }

  /** `handleAddSkill`: the skills list and the text of the skill input
      afterwards. The trimmed text is appended and the input cleared when the
      trimmed text is non-empty and not in the list yet; otherwise both stay
      as they are. */
  function AddSkill(skills: seq<string>, current: string): (r: (seq<string>, string))
    ensures Trim(current) != "" && Trim(current) !in skills ==> r == (skills + [Trim(current)], "")
    ensures Trim(current) == "" || Trim(current) in skills ==> r == (skills, current)
  {
    var skill := Trim(current);
    if skill != "" && skill !in skills then (skills + [skill], "") else (skills, current)
  }

  /** White space alone is never added, and the input keeps it. */
  lemma AddBlankSkill(skills: seq<string>, current: string)
    requires IsBlank(current)
    ensures AddSkill(skills, current) == (skills, current)
  {
    TrimEmptyIffBlank(current);
  }

  /** Adding never creates a duplicate. */
  lemma AddSkillKeepsDistinct(skills: seq<string>, current: string)
    requires NoDuplicates(skills)
    ensures NoDuplicates(AddSkill(skills, current).0)
  {
    var r := AddSkill(skills, current).0;
    if r != skills {
      forall i, j | 0 <= i < j < |r| ensures r[i] != r[j] {
        if j == |skills| {
          assert r[i] == skills[i];
        }
      }
    }
  }

  /** When every listed skill is trimmed and non-empty, so is every skill
      after an add. */
  lemma AddSkillKeepsTrimmed(skills: seq<string>, current: string)
    requires forall i :: 0 <= i < |skills| ==> skills[i] != "" && Trim(skills[i]) == skills[i]
    ensures var r := AddSkill(skills, current).0;
      forall i :: 0 <= i < |r| ==> r[i] != "" && Trim(r[i]) == r[i]
  {
    TrimIdempotent(current);
  }

  /** `handleRemoveSkill`: `skills.filter(skill => skill !== x)`. */
  function RemoveSkill(skills: seq<string>, x: string): (r: seq<string>)
    ensures multiset(r) == multiset(skills)[x := 0]
    ensures x !in r
  {
    if skills == [] then []
    else
      var rest := RemoveSkill(skills[1..], x);
      assert skills == [skills[0]] + skills[1..];
      if skills[0] == x then rest else [skills[0]] + rest
  }

  /** Removing commutes with concatenation: the skills that stay keep their
      relative order. */
  lemma {:induction false} RemoveSkillConcat(a: seq<string>, b: seq<string>, x: string)
    ensures RemoveSkill(a + b, x) == RemoveSkill(a, x) + RemoveSkill(b, x)
  {
    if a != [] {
      assert (a + b)[0] == a[0] && (a + b)[1..] == a[1..] + b;
      RemoveSkillConcat(a[1..], b, x);
      if a[0] != x {
        assert RemoveSkill(a + b, x) == [a[0]] + (RemoveSkill(a[1..], x) + RemoveSkill(b, x));
      }
    } else {
      assert a + b == b;
    }
  }

  /** Removing a skill that is not listed changes nothing. */
  lemma {:induction false} RemoveAbsentSkill(skills: seq<string>, x: string)
    requires x !in skills
    ensures RemoveSkill(skills, x) == skills
  {
    if skills != [] {
      RemoveAbsentSkill(skills[1..], x);
    }
  }

  /** Removing keeps a list free of duplicates. */
  lemma {:induction false} RemoveSkillKeepsDistinct(skills: seq<string>, x: string)
    requires NoDuplicates(skills)
    ensures NoDuplicates(RemoveSkill(skills, x))
  {
    if skills != [] {
      var rest := skills[1..];
      RemoveSkillKeepsDistinct(rest, x);
      var r := RemoveSkill(rest, x);
      if skills[0] != x {
        assert skills[0] !in rest;
        assert skills[0] !in multiset(rest);
        assert skills[0] !in r by {
          assert multiset(r)[skills[0]] <= multiset(rest)[skills[0]];
        }
      }
    }
  }

  const UsernameRequired := "Username is required"
  const InvalidAge := "Please enter a valid age"
  const GenderRequired := "Please select a gender"
  const SaveFailed := "Failed to update profile. Please try again."

  /** What the age check accepts: a number from 1 to 150. */
  predicate AgeValid(a: Age)
  {
    a.Years? && 1.0 <= a.value <= 150.0
  }

  /** The checks at the top of `handleSubmit`, in their order; the first that
      fails gives the error shown, and `None` lets the save go ahead. */
  function Validate(f: FormData): (r: Option<string>)
    ensures r == Some(UsernameRequired) <==> IsBlank(f.username)
    ensures r == Some(InvalidAge) <==> !IsBlank(f.username) && !AgeValid(f.age)
    ensures r == Some(GenderRequired) <==> !IsBlank(f.username) && AgeValid(f.age) && f.gender == ""
    ensures r.None? <==> !IsBlank(f.username) && AgeValid(f.age) && f.gender != ""
  {
    TrimEmptyIffBlank(f.username);
    if Trim(f.username) == "" then Some(UsernameRequired)
    else if f.age.NoAge? || f.age.value == 0.0 || f.age.value < 1.0 || f.age.value > 150.0 then Some(InvalidAge)
    else if f.gender == "" then Some(GenderRequired)
    else None
  }

  /** The fields of the multipart body sent to save the profile; the age is
      `parseInt` of the field. */
  datatype Payload = Payload(username: string, age: int, gender: string, about: string, skills: seq<string>)

  /** The body built from a form that passed the checks. */
  function ToPayload(f: FormData): (p: Payload)
    requires Validate(f).None?
    ensures 1 <= p.age <= 150 && p.age as real <= f.age.value < p.age as real + 1.0
    ensures p.username == f.username && p.gender == f.gender && p.about == f.about && p.skills == f.skills
  {
    Payload(f.username, f.age.value.Floor, f.gender, f.about, f.skills)
  }

  /** The mounted editor. `saved` lists the bodies sent to the server, oldest
      first; `route` is where the editor navigated, if anywhere. */
  class Editor {
    var form: FormData
    var currentSkill: string
    var loading: bool
    var error: string
    var saved: seq<Payload>
    var route: Option<string>

    constructor (user: Option<User>)
      ensures form == InitialForm(user) && currentSkill == "" && !loading && error == ""
      ensures saved == [] && route == None
    {
      form, currentSkill, loading, error := InitialForm(user), "", false, "";
      saved, route := [], None;
    }

    method OnInputChange(change: FieldChange)
      modifies this
      ensures form == InputChange(old(form), change)
      ensures currentSkill == old(currentSkill) && error == old(error) && saved == old(saved)
      ensures loading == old(loading) && route == old(route)
    {
      form := InputChange(form, change);
    }

    method OnSkillInput(text: string)
      modifies this
      ensures currentSkill == text && form == old(form) && error == old(error) && saved == old(saved)
      ensures loading == old(loading) && route == old(route)
    {
      currentSkill := text;
    }

    method OnAddSkill()
      modifies this
      ensures (form.skills, currentSkill) == AddSkill(old(form.skills), old(currentSkill))
      ensures form == old(form).(skills := form.skills)
      ensures error == old(error) && saved == old(saved) && loading == old(loading) && route == old(route)
    {
      var r := AddSkill(form.skills, currentSkill);
      form := form.(skills := r.0);
      currentSkill := r.1;
    }

    method OnRemoveSkill(x: string)
      modifies this
      ensures form == old(form).(skills := RemoveSkill(old(form.skills), x))
      ensures currentSkill == old(currentSkill) && error == old(error) && saved == old(saved)
      ensures loading == old(loading) && route == old(route)
    {
      form := form.(skills := RemoveSkill(form.skills, x));
    }

    /** `handleSubmit`: the error is cleared, then a failed check shows its
      message and nothing is sent. Otherwise the body is sent; success goes
      to the home page, failure shows the server's message or the default
      text, and `loading` is down again either way. The form is not touched. */
    method OnSubmit(outcome: Outcome<User>)
      modifies this
      ensures form == old(form) && currentSkill == old(currentSkill)
      ensures Validate(form).Some? ==>
        error == Validate(form).value && saved == old(saved) && route == old(route) && loading == old(loading)
      ensures Validate(form).None? ==> saved == old(saved) + [ToPayload(form)] && !loading
      ensures Validate(form).None? && outcome.Success? ==> error == "" && route == Some("/")
      ensures Validate(form).None? && outcome.Failure? ==>
        error == ErrorText(outcome.serverMessage, SaveFailed) && route == old(route)
    {
      error := "";
      var f := form;
      var check := Validate(f);
      if check.Some? {
        error := check.value;
        return;
      }
      loading := true;
      var body := ToPayload(f);
      saved := saved + [body];
      if outcome.Success? {
        route := Some("/");
      } else {
        error := ErrorText(outcome.serverMessage, SaveFailed);
      }
      loading := false;
    }
  }
}
