/** The profile page: saving the name and e-mail, changing the password with
    its checks in order, and the member-since date. */
module Profile {
  import opened Common

  datatype ProfileData = ProfileData(userId: int, fullName: string, email: string,
                                     preferredCurrency: Option<string>, createdAt: Option<int>)

  /** The fields a profile update returns; a field the reply lacks is `None`. */
  datatype ProfilePatch = ProfilePatch(userId: Option<int>, fullName: Option<string>, email: Option<string>,
                                       preferredCurrency: Option<string>, createdAt: Option<int>)

  /** `{ ...prev, ...updated }`: every field the reply carries replaces the
      profile's, every other is kept. */
  function Merge(prev: ProfileData, updated: ProfilePatch): (p: ProfileData)
    ensures p.userId == updated.userId.GetOr(prev.userId)
    ensures p.fullName == updated.fullName.GetOr(prev.fullName)
    ensures p.email == updated.email.GetOr(prev.email)
    ensures p.preferredCurrency == (if updated.preferredCurrency.Some? then updated.preferredCurrency else prev.preferredCurrency)
    ensures p.createdAt == (if updated.createdAt.Some? then updated.createdAt else prev.createdAt)
  {
    ProfileData(updated.userId.GetOr(prev.userId), updated.fullName.GetOr(prev.fullName),
                updated.email.GetOr(prev.email),
                if updated.preferredCurrency.Some? then updated.preferredCurrency else prev.preferredCurrency,
                if updated.createdAt.Some? then updated.createdAt else prev.createdAt)
  }

  const EmptyPatch := ProfilePatch(None, None, None, None, None)

  /** Merging an empty reply keeps the profile, and merging the same reply
      twice is merging it once. */
  lemma MergeLaws(prev: ProfileData, updated: ProfilePatch)
    ensures Merge(prev, EmptyPatch) == prev
    ensures Merge(Merge(prev, updated), updated) == Merge(prev, updated)
  {
  }

  datatype Kind = Success | Error

  /** A message under a form. */
  datatype Message = Message(kind: Kind, text: string)

  /** How an update request ended: it succeeded, it threw an `Error` with its
      message, or it threw something else. */
  datatype Outcome = Succeeded | ThrewError(message: string) | ThrewOther

  /** `e instanceof Error ? e.message : fallback`. */
  function FailureText(outcome: Outcome, fallback: string): (t: string)
    requires !outcome.Succeeded?
    ensures outcome.ThrewError? ==> t == outcome.message
    ensures outcome.ThrewOther? ==> t == fallback
  {
    if outcome.ThrewError? then outcome.message else fallback
  }

  const NameSaved := "Profile updated successfully."
  const NameFailed := "Failed to update profile."
  const PasswordsDiffer := "New passwords do not match."
  const PasswordTooShort := "New password must be at least 8 characters."
  const PasswordChanged := "Password changed successfully."
  const PasswordFailed := "Failed to change password."

  /** The shortest new password accepted. */
  const MinPasswordLength := 8

  datatype NameForm = NameForm(fullName: string, email: string)

  datatype PasswordForm = PasswordForm(currentPassword: string, newPassword: string, confirmPassword: string)

  const EmptyPasswordForm := PasswordForm("", "", "")

  /** The password sent: the current and the new one. */
  datatype PasswordRequest = PasswordRequest(currentPassword: string, newPassword: string)

  /** The checks made before anything is sent, in order: the new password
      and its confirmation must agree, then the new password must be long
      enough. */
  function PasswordProblem(form: PasswordForm): (problem: Option<string>)
    ensures form.newPassword != form.confirmPassword ==> problem == Some(PasswordsDiffer)
    ensures form.newPassword == form.confirmPassword && |form.newPassword| < MinPasswordLength ==>
              problem == Some(PasswordTooShort)
    ensures problem.None? <==> form.newPassword == form.confirmPassword && |form.newPassword| >= MinPasswordLength
  {
    if form.newPassword != form.confirmPassword then Some(PasswordsDiffer)
    else if |form.newPassword| < MinPasswordLength then Some(PasswordTooShort)
    else None
  }

  /** "Update Password" is disabled while saving or until all three fields
      are filled. */
  predicate PasswordButtonDisabled(saving: bool, form: PasswordForm) {
    saving || form.currentPassword == "" || form.newPassword == "" || form.confirmPassword == ""
  }

  /** "Save Changes" is disabled while saving or until a name and an e-mail
      are filled. */
  predicate SaveNameDisabled(saving: bool, form: NameForm) {
    saving || form.fullName == "" || form.email == ""
  }

  /** The inline "Passwords do not match." under the confirmation field. */
  predicate MismatchHint(form: PasswordForm) {
    form.confirmPassword != "" && form.newPassword != form.confirmPassword
  }

  /** The inline hint foretells the mismatch error; with the button enabled
      and no hint, the only check that can still fail is the length. */
  lemma HintForetellsMismatch(saving: bool, form: PasswordForm)
    ensures MismatchHint(form) ==> PasswordProblem(form) == Some(PasswordsDiffer)
    ensures !PasswordButtonDisabled(saving, form) && !MismatchHint(form) ==>
              PasswordProblem(form) != Some(PasswordsDiffer)
  {
  }

  /** What the member-since line shows. */
  datatype DateText = Placeholder | Day(timestamp: int)

  /** `formatDate`: the dash for a missing or zero timestamp, else the date. */
  function FormatDate(ts: Option<int>): (d: DateText)
    ensures d == Placeholder <==> ts.None? || ts.value == 0
    ensures d.Day? ==> d.timestamp == ts.value
  {
    if ts.None? || ts.value == 0 then Placeholder else Day(ts.value)
  }

  class ProfilePage {
    var profile: Option<ProfileData>
    var loading: bool
    var nameForm: NameForm
    var savingName: bool
    var nameMsg: Option<Message>
    var pwForm: PasswordForm
    var savingPw: bool
    var pwMsg: Option<Message>

    constructor ()
      ensures profile == None && loading && nameForm == NameForm("", "") && !savingName && nameMsg == None
      ensures pwForm == EmptyPasswordForm && !savingPw && pwMsg == None
    {
      profile, loading, nameForm, savingName, nameMsg := None, true, NameForm("", ""), false, None;
      pwForm, savingPw, pwMsg := EmptyPasswordForm, false, None;
    }

    /** A loaded profile is shown and fills the name form; a failed request
        changes neither. */
    method LoadProfile(reply: Option<ProfileData>)
      modifies this
      ensures reply.Some? ==> profile == reply && nameForm == NameForm(reply.value.fullName, reply.value.email)
      ensures reply.None? ==> profile == old(profile) && nameForm == old(nameForm)
      ensures !loading
      ensures savingName == old(savingName) && nameMsg == old(nameMsg)
      ensures pwForm == old(pwForm) && savingPw == old(savingPw) && pwMsg == old(pwMsg)
    {
      loading := true;
      if reply.Some? {
        profile := reply;
        nameForm := NameForm(reply.value.fullName, reply.value.email);
      }
      loading := false;
    }

    /** Saves the name and e-mail. On success the returned fields are merged
        over the profile (a missing profile stays missing) and the success
        message shows; on failure the error's message, or the fallback. */
    method HandleSaveName(outcome: Outcome, updated: ProfilePatch) returns (request: NameForm)
      modifies this
      ensures request == old(nameForm)
      ensures outcome.Succeeded? ==> nameMsg == Some(Message(Success, NameSaved))
      ensures outcome.Succeeded? && old(profile).Some? ==> profile == Some(Merge(old(profile).value, updated))
      ensures outcome.Succeeded? && old(profile).None? ==> profile == None
      ensures !outcome.Succeeded? ==> nameMsg == Some(Message(Error, FailureText(outcome, NameFailed)))
                                      && profile == old(profile)
      ensures !savingName
      ensures nameForm == old(nameForm) && loading == old(loading)
      ensures pwForm == old(pwForm) && savingPw == old(savingPw) && pwMsg == old(pwMsg)
    {
      savingName := true;
      nameMsg := None;
      request := nameForm;
      if outcome.Succeeded? {
        profile := if profile.Some? then Some(Merge(profile.value, updated)) else profile;
        nameMsg := Some(Message(Success, NameSaved));
      } else {
        nameMsg := Some(Message(Error, FailureText(outcome, NameFailed)));
      }
      savingName := false;
    }

    /** Changes the password. A failed check shows its error and sends
        nothing; otherwise the current and new password are sent, and on
        success all three fields are cleared and the success message shows,
        on failure the error's message, or the fallback, with the fields
        kept. */
    method HandleChangePassword(outcome: Outcome) returns (request: Option<PasswordRequest>)
      modifies this
      ensures PasswordProblem(old(pwForm)).Some? ==>
                request == None && pwMsg == Some(Message(Error, PasswordProblem(old(pwForm)).value))
                && pwForm == old(pwForm) && savingPw == old(savingPw)
      ensures PasswordProblem(old(pwForm)).None? ==>
                request == Some(PasswordRequest(old(pwForm).currentPassword, old(pwForm).newPassword))
                && !savingPw
      ensures PasswordProblem(old(pwForm)).None? && outcome.Succeeded? ==>
                pwForm == EmptyPasswordForm && pwMsg == Some(Message(Success, PasswordChanged))
      ensures PasswordProblem(old(pwForm)).None? && !outcome.Succeeded? ==>
                pwForm == old(pwForm) && pwMsg == Some(Message(Error, FailureText(outcome, PasswordFailed)))
      ensures profile == old(profile) && loading == old(loading) && nameForm == old(nameForm)
      ensures savingName == old(savingName) && nameMsg == old(nameMsg)
    {
      pwMsg := None;
      if pwForm.newPassword != pwForm.confirmPassword {
        pwMsg := Some(Message(Error, PasswordsDiffer));
        return None;
      }
      if |pwForm.newPassword| < MinPasswordLength {
        pwMsg := Some(Message(Error, PasswordTooShort));
        return None;
      }
      savingPw := true;
      request := Some(PasswordRequest(pwForm.currentPassword, pwForm.newPassword));
      if outcome.Succeeded? {
        pwForm := EmptyPasswordForm;
        pwMsg := Some(Message(Success, PasswordChanged));
      } else {
        pwMsg := Some(Message(Error, FailureText(outcome, PasswordFailed)));
      }
      savingPw := false;
    }
  }
}
