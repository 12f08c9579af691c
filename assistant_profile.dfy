/** The profile page of src/pages/AssistantProfile.jsx: the edited
    `profile`, the `initial` baseline it is compared with, and the load,
    change and save handlers. A field the baseline lacks (`initial` starts
    as `{}`) is `None`. */
module AssistantProfile {
  import opened Common

  datatype Profile = Profile(name: Option<string>, email: Option<string>, cardId: Option<string>)

  datatype ProfileField = Name | Email | CardId

  /** `{ name: '', email: '', cardId: '' }` */
  const BlankProfile := Profile(Some(""), Some(""), Some(""))

  /** `{}` */
  const NoBaseline := Profile(None, None, None)

  function FieldOf(p: Profile, field: ProfileField): Option<string> {
    match field
    case Name => p.name
    case Email => p.email
    case CardId => p.cardId
  }

  /** `dirty` (lines 63-66): some field differs from the baseline. */
  predicate Dirty(profile: Profile, initial: Profile) {
    profile.name != initial.name || profile.email != initial.email || profile.cardId != initial.cardId
  }

  /** The page has unsaved edits exactly when the profile is not the
      baseline. */
  lemma DirtyIffChanged(profile: Profile, initial: Profile)
    ensures Dirty(profile, initial) <==> profile != initial
    ensures Dirty(profile, initial) <==> exists f :: FieldOf(profile, f) != FieldOf(initial, f)
  {
    if Dirty(profile, initial) {
      if profile.name != initial.name {
        assert FieldOf(profile, Name) != FieldOf(initial, Name);
      } else if profile.email != initial.email {
        assert FieldOf(profile, Email) != FieldOf(initial, Email);
      } else {
        assert FieldOf(profile, CardId) != FieldOf(initial, CardId);
      }
    }
  }

  /** `handleChange` (lines 46-48): only the named field takes the value. */
  function Changed(p: Profile, field: ProfileField, value: string): (r: Profile)
    ensures FieldOf(r, field) == Some(value)
    ensures forall g :: g != field ==> FieldOf(r, g) == FieldOf(p, g)
  {
    match field
    case Name => p.(name := Some(value))
    case Email => p.(email := Some(value))
    case CardId => p.(cardId := Some(value))
  }

  /** From a saved state, one edit makes the page dirty exactly when it
      changes the field's value, and typing the old value back makes it
      clean again. */
  lemma EditDirtiesIffDifferent(p: Profile, field: ProfileField, value: string)
    ensures !Dirty(Changed(p, field, value), p) <==> FieldOf(p, field) == Some(value)
    ensures FieldOf(p, field).Some? ==> !Dirty(Changed(Changed(p, field, value), field, FieldOf(p, field).value), p)
  {
    DirtyIffChanged(Changed(p, field, value), p);
    var q := Changed(p, field, value);
    if FieldOf(p, field) == Some(value) {
      assert forall g :: FieldOf(q, g) == FieldOf(p, g);
      assert q == p by {
        assert q.name == FieldOf(q, Name) && q.email == FieldOf(q, Email) && q.cardId == FieldOf(q, CardId);
      }
    } else {
      assert FieldOf(q, field) != FieldOf(p, field);
    }
    if FieldOf(p, field).Some? {
      var r := Changed(q, field, FieldOf(p, field).value);
      assert forall g :: FieldOf(r, g) == FieldOf(p, g);
      assert r.name == FieldOf(r, Name) && r.email == FieldOf(r, Email) && r.cardId == FieldOf(r, CardId);
    }
  }

  /** What `getAssistantProfile` resolves with, or the message it throws. */
  datatype LoadReply = ProfileLoaded(profile: Profile) | LoadFailed(message: Option<string>)

  datatype SaveReply = SaveOk | SaveFailed(message: Option<string>)

  class ProfileScreen {
    var profile: Profile
    var initial: Profile
    var loading: bool
    var error: string
    var saving: bool
    var successOpen: bool

    /** The form starts blank against an empty baseline, loading. */
    constructor ()
      ensures profile == BlankProfile && initial == NoBaseline && Dirty(profile, initial)
      ensures loading && error == "" && !saving && !successOpen
    {
      profile, initial := BlankProfile, NoBaseline;
      loading, error, saving, successOpen := true, "", false, false;
    }

    /** The mount effect (lines 32-44): both profile and baseline take the
        loaded record, so the page starts clean. */
    method OnLoaded(reply: LoadReply)
      modifies this
      ensures reply.ProfileLoaded? ==>
                profile == reply.profile && initial == reply.profile && error == old(error)
                && !Dirty(profile, initial)
      ensures reply.LoadFailed? ==>
                profile == old(profile) && initial == old(initial)
                && error == OrElse(reply.message, "Failed to load profile.")
      ensures !loading && saving == old(saving) && successOpen == old(successOpen)
    {
      match reply {
        case ProfileLoaded(p) =>
          profile := p;
          initial := p;
        case LoadFailed(message) =>
          error := OrElse(message, "Failed to load profile.");
      }
      loading := false;
    }

    method HandleChange(field: ProfileField, value: string)
      modifies this
      ensures profile == Changed(old(profile), field, value)
      ensures initial == old(initial) && loading == old(loading) && error == old(error)
      ensures saving == old(saving) && successOpen == old(successOpen)
    {
      profile := Changed(profile, field, value);
    }

    /** `handleSave` (lines 50-61): the profile is sent; on success it
        becomes the baseline, so nothing is dirty; on failure the baseline
        stays and the error is set. */
    method HandleSave(reply: SaveReply) returns (sent: Profile)
      modifies this
      ensures sent == old(profile) && profile == old(profile) && !saving
      ensures reply.SaveOk? ==> initial == profile && !Dirty(profile, initial) && successOpen && error == old(error)
      ensures reply.SaveFailed? ==>
                initial == old(initial) && successOpen == old(successOpen)
                && error == OrElse(reply.message, "Update failed.")
                && Dirty(profile, initial) == Dirty(old(profile), old(initial))
      ensures loading == old(loading)
    {
      saving := true;
      sent := profile;
      match reply {
        case SaveOk =>
          successOpen := true;
          initial := profile;
        case SaveFailed(message) =>
          error := OrElse(message, "Update failed.");
      }
      saving := false;
    }
  }
}
