/** The decision logic of components/pages/ProfileScreen.tsx: the avatar
    initials, the labelling of connected accounts, the edit-mode toggle,
    the profile submit and the confirmed sign-out. */
module ProfileScreen {
  import opened Nullable
  import opened Effects
  import opened Text

  /** The parts of the identity provider's user the screen reads. */
  datatype User = User(firstName: Option<string>, lastName: Option<string>)

  /** `name?.[0] || ""`: the first character of a non-empty name, else "". */
  function Initial(name: Option<string>): (r: string)
    ensures Truthy(name) ==> r == [name.value[0]]
    ensures !Truthy(name) ==> r == ""
  {
    if Truthy(name) then [name.value[0]] else ""
  }

  /** `getInitials`. */
  function Initials(user: Option<User>): (r: string)
    ensures user.None? ==> r == ""
    ensures |r| <= 2
    ensures forall i :: 0 <= i < |r| ==> !IsAsciiLower(r[i])
  {
    if user.None? then "" else Upper(Initial(user.value.firstName) + Initial(user.value.lastName))
  }

  /** The initials as described independently: one upper-cased letter per
      name that is present and non-empty, first name first. */
  lemma InitialsFromNames(u: User)
    ensures |Initials(Some(u))| == (if Truthy(u.firstName) then 1 else 0) + (if Truthy(u.lastName) then 1 else 0)
    ensures Truthy(u.firstName) ==> Initials(Some(u))[0] == UpperChar(u.firstName.value[0])
    ensures Truthy(u.lastName) ==> Initials(Some(u))[|Initials(Some(u))| - 1] == UpperChar(u.lastName.value[0])
    ensures !Truthy(u.firstName) ==> Initials(Some(u)) == Initials(Some(u.(firstName := None)))
    ensures !Truthy(u.lastName) ==> Initials(Some(u)) == Initials(Some(u.(lastName := None)))
  {
  }

  // ------------------------------------------------------ connected accounts

  datatype ProviderKind = Google | GitHub | Apple | OtherProvider

  /** `account.provider?.toString() || ""`. */
  function ProviderString(provider: Option<string>): string
  {
    OrEmpty(provider)
  }

  /** The `isGoogle`/`isGithub`/`isApple` chain, first match wins. */
  function Classify(ps: string): (k: ProviderKind)
    ensures k == Google <==> Contains(ps, "google")
    ensures k == GitHub <==> !Contains(ps, "google") && Contains(ps, "github")
    ensures k == Apple <==> !Contains(ps, "google") && !Contains(ps, "github") && Contains(ps, "apple")
  {
    if Contains(ps, "google") then Google
    else if Contains(ps, "github") then GitHub
    else if Contains(ps, "apple") then Apple
    else OtherProvider
  }

  function Icon(k: ProviderKind): string
  {
    match k
    case Google => "logo-google"
    case GitHub => "logo-github"
    case Apple => "logo-apple"
    case OtherProvider => "link-outline"
  }

  function Colour(k: ProviderKind): string
  {
    match k
    case Google => "#4285F4"
    case GitHub => "#333"
    case Apple => "#000"
    case OtherProvider => "#6b7280"
  }

  /** The brand name, or the raw provider string when none matched. */
  function Label(k: ProviderKind, ps: string): string
  {
    match k
    case Google => "Google"
    case GitHub => "GitHub"
    case Apple => "Apple"
    case OtherProvider => ps
  }

  datatype Account = Account(provider: Option<string>, emailAddress: Option<string>)

  datatype AccountRow = AccountRow(icon: string, colour: string, name: string, subtitle: string)

  /** One row of "Connected Accounts": icon, colour and label all come from
      one classification of the provider string. */
  function Row(a: Account): AccountRow
  {
    var ps := ProviderString(a.provider);
    var k := Classify(ps);
    AccountRow(Icon(k), Colour(k), Label(k, ps), if Truthy(a.emailAddress) then a.emailAddress.value else "Connected")
  }

  /** The card is shown only for a non-empty list, one row per account. */
  function ConnectedAccounts(accounts: Option<seq<Account>>): (rows: Option<seq<AccountRow>>)
    ensures rows.Some? <==> accounts.Some? && |accounts.value| > 0
    ensures rows.Some? ==> |rows.value| == |accounts.value|
    ensures rows.Some? ==> forall i :: 0 <= i < |rows.value| ==> rows.value[i] == Row(accounts.value[i])
  {
    if accounts.Some? && |accounts.value| > 0 then
      Some(seq(|accounts.value|, i requires 0 <= i < |accounts.value| => Row(accounts.value[i])))
    else None
  }

  /** The row in terms of which substrings occur, google first, then
      github, then apple, else the raw string with the generic icon. */
  lemma RowBySubstrings(a: Account)
    ensures var ps := ProviderString(a.provider); var row := Row(a);
      && (Contains(ps, "google") ==> row.icon == "logo-google" && row.colour == "#4285F4" && row.name == "Google")
      && (!Contains(ps, "google") && Contains(ps, "github") ==>
            row.icon == "logo-github" && row.colour == "#333" && row.name == "GitHub")
      && (!Contains(ps, "google") && !Contains(ps, "github") && Contains(ps, "apple") ==>
            row.icon == "logo-apple" && row.colour == "#000" && row.name == "Apple")
      && (!Contains(ps, "google") && !Contains(ps, "github") && !Contains(ps, "apple") ==>
            row.icon == "link-outline" && row.colour == "#6b7280" && row.name == ps)
      && (Truthy(a.emailAddress) ==> row.subtitle == a.emailAddress.value)
      && (!Truthy(a.emailAddress) ==> row.subtitle == "Connected")
  {
  }

  /** Icon and colour always agree, and a brand icon always comes with
      that brand's label. */
  lemma RowConsistent(a: Account)
    ensures var row := Row(a);
      && (row.icon == "logo-google" <==> row.colour == "#4285F4")
      && (row.icon == "logo-github" <==> row.colour == "#333")
      && (row.icon == "logo-apple" <==> row.colour == "#000")
      && (row.icon == "logo-google" ==> row.name == "Google")
      && (row.icon == "logo-github" ==> row.name == "GitHub")
      && (row.icon == "logo-apple" ==> row.name == "Apple")
  {
  }

  /** "google" wins whatever else the provider string contains. */
  lemma GoogleTakesPrecedence(prefix: string, suffix: string)
    ensures Classify(prefix + "github" + "google" + "apple" + suffix) == Google
    ensures Classify(prefix + "google" + suffix) == Google
  {
    var s := prefix + "github" + "google" + "apple" + suffix;
    assert s[|prefix| + 6..|prefix| + 12] == "google";
    assert OccursAt(s, "google", |prefix| + 6);
    var s2 := prefix + "google" + suffix;
    assert s2[|prefix|..|prefix| + 6] == "google";
    assert OccursAt(s2, "google", |prefix|);
  }

  /** A missing provider gives an empty label and the generic icon. */
  lemma MissingProvider(email: Option<string>)
    ensures ProviderString(None) == ""
    ensures Row(Account(None, email)).icon == "link-outline"
    ensures Row(Account(None, email)).colour == "#6b7280"
    ensures Row(Account(None, email)).name == ""
  {
  }

  // -------------------------------------------------------------- edit mode

  /** The edit flag and the two form fields. */
  datatype Form = Form(editMode: bool, firstName: string, lastName: string)

  /** `useForm` default values and the values `reset` restores. */
  function FormDefaults(user: Option<User>): (f: Form)
    ensures !f.editMode
    ensures user.None? ==> f.firstName == "" && f.lastName == ""
    ensures user.Some? ==> f.firstName == OrEmpty(user.value.firstName) && f.lastName == OrEmpty(user.value.lastName)
  {
    if user.None? then Form(false, "", "")
    else Form(false, OrEmpty(user.value.firstName), OrEmpty(user.value.lastName))
  }

  /** The pencil/close button. */
  function ToggleEdit(f: Form, user: Option<User>): (r: Form)
    ensures r.editMode == !f.editMode
    ensures f.editMode ==> r == FormDefaults(user)
    ensures !f.editMode ==> r.firstName == f.firstName && r.lastName == f.lastName
  {
    if f.editMode then FormDefaults(user) else f.(editMode := true)
  }

  function EditIcon(editMode: bool): string
  {
    if editMode then "close" else "pencil"
  }

  /** The button shows "close" exactly while editing, so each press flips
      its icon between "pencil" and "close". */
  lemma ToggleFlipsIcon(f: Form, user: Option<User>)
    ensures EditIcon(f.editMode) == "close" <==> f.editMode
    ensures EditIcon(ToggleEdit(f, user).editMode) != EditIcon(f.editMode)
  {
  }

  /** Entering edit mode, typing, then leaving again discards what was
      typed and shows the user's current names. */
  lemma CancelDiscardsEdits(f: Form, user: Option<User>, first: string, last: string)
    requires !f.editMode
    ensures var editing := ToggleEdit(f, user).(firstName := first, lastName := last);
      editing.editMode && ToggleEdit(editing, user) == FormDefaults(user)
  {
  }

  // ----------------------------------------------------------------- submit

  datatype ScreenFlags = ScreenFlags(editMode: bool, loading: bool)

  datatype UpdateResult = UpdateSucceeded | UpdateFailed

  datatype SubmitRun = SubmitRun(during: ScreenFlags, after: ScreenFlags, actions: seq<Action>)

  /** `onSubmit`: without a user nothing happens; otherwise `loading` is on
      while `user.update` runs, success leaves edit mode, and `loading` is
      off afterwards either way. */
  function OnSubmit(flags: ScreenFlags, user: Option<User>, first: string, last: string, result: UpdateResult): (run: SubmitRun)
    ensures user.None? ==> run.during == flags && run.after == flags && run.actions == []
    ensures user.Some? ==> run.during == flags.(loading := true)
    ensures user.Some? ==> !run.after.loading && |run.actions| == 2 && run.actions[0] == UpdateProfile(first, last)
    ensures user.Some? && result == UpdateSucceeded ==>
      !run.after.editMode && run.actions[1] == ShowAlert("Success", "Profile updated successfully!")
    ensures user.Some? && result == UpdateFailed ==>
      run.after.editMode == flags.editMode && run.actions[1] == ShowAlert("Error", "Failed to update profile. Please try again.")
    ensures Navigations(run.actions) == 0
  {
    if user.None? then SubmitRun(flags, flags, [])
    else
      var during := flags.(loading := true);
      match result
      case UpdateSucceeded =>
        SubmitRun(during, ScreenFlags(false, false),
                  [UpdateProfile(first, last), ShowAlert("Success", "Profile updated successfully!")])
      case UpdateFailed =>
        SubmitRun(during, during.(loading := false),
                  [UpdateProfile(first, last), ShowAlert("Error", "Failed to update profile. Please try again.")])
  }

  // --------------------------------------------------------------- sign out

  datatype Choice = Cancel | ConfirmSignOut

  const ConfirmTitle: string := "Sign Out"
  const ConfirmMessage: string := "Are you sure you want to sign out?"

  /** `handleSignOut`: every press opens the confirmation dialog; after
      confirmation it signs out and then replaces the route with the sign-in
      screen; a failed sign-out is only logged. */
  function HandleSignOut(choice: Choice, signedOut: bool): (actions: seq<Action>)
    ensures |actions| >= 1 && actions[0] == ShowAlert(ConfirmTitle, ConfirmMessage)
    ensures choice == Cancel ==> |actions| == 1
    ensures choice == ConfirmSignOut ==> |actions| >= 2 && actions[1] == CallSignOut
    ensures Navigations(actions) == (if choice.ConfirmSignOut? && signedOut then 1 else 0)
    ensures Navigations(actions) == 1 ==> actions[|actions| - 1] == Navigate(Replace, "/sign-in")
    ensures forall i :: 1 <= i < |actions| ==> !actions[i].ShowAlert?
  {
    var confirm := [ShowAlert(ConfirmTitle, ConfirmMessage)];
    var afterChoice := AfterConfirmation(choice, signedOut);
    NavigationsAppend(confirm, afterChoice);
    confirm + afterChoice
  }

  /** What follows the dialog: nothing on cancel; on confirmation the
      sign-out call, then the navigation if it succeeded. */
  function AfterConfirmation(choice: Choice, signedOut: bool): (actions: seq<Action>)
    ensures choice == Cancel ==> actions == []
    ensures choice == ConfirmSignOut ==> |actions| >= 1 && actions[0] == CallSignOut
    ensures Navigations(actions) == (if choice.ConfirmSignOut? && signedOut then 1 else 0)
    ensures Navigations(actions) == 1 ==> actions[|actions| - 1] == Navigate(Replace, "/sign-in")
    ensures forall i :: 0 <= i < |actions| ==> !actions[i].ShowAlert?
  {
    if choice == Cancel then []
    else
      var outcome := if signedOut then [Navigate(Replace, "/sign-in")] else [];
      NavigationsAppend([CallSignOut], outcome);
      [CallSignOut] + outcome
  }
}
