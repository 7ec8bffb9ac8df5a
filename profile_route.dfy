/**
 * The `/api/profile` route: `PUT` updates the profile's bio and, when
 * files are supplied, its avatar and CV — through the mock data layer when
 * no service address is configured, otherwise through the hosted stores.
 */
module ProfileRoute {
  import opened Common
  import opened Types
  import opened StoragePaths
  import opened RemoteStore
  import opened Responses
  import MockData

  const BioRequired: string := "Bio is required"
  const UpdateFailed: string := "Failed to update profile"

  /** The `bio`, `avatar` and `cv` fields of the submitted form. */
  datatype ProfileForm = ProfileForm(bio: Option<string>, avatar: Option<FormFile>, cv: Option<FormFile>)

  /** `const useMock = !supabaseUrl`: only the address is consulted, not the key. */
  predicate UseMock(supabaseUrl: Option<string>): (m: bool)
    ensures m <==> supabaseUrl.None? || supabaseUrl.value == ""
  {
    !Truthy(supabaseUrl)
  }

  /** The mock branch's `updateData`: the bio, plus each file's data URL only for files supplied. */
  function MockPatch(bio: string, avatar: Option<FormFile>, cv: Option<FormFile>): (u: MockData.ProfilePatch)
    ensures u.id.None? && u.updated_at.None? && u.bio == Some(Some(bio))
    ensures u.avatar_url.Some? <==> avatar.Some?
    ensures avatar.Some? ==> u.avatar_url == Some(Some(avatar.value.dataUrl))
    ensures u.cv_url.Some? <==> cv.Some?
    ensures cv.Some? ==> u.cv_url == Some(Some(cv.value.dataUrl))
  {
    MockData.ProfilePatch(
      None,
      Some(Some(bio)),
      if avatar.Some? then Some(Some(avatar.value.dataUrl)) else None,
      if cv.Some? then Some(Some(cv.value.dataUrl)) else None,
      None)
  }

  /** In mock mode the profile keeps its id, and its avatar and CV unless new files came. */
  lemma MockUpdateKeepsOtherFields(current: Profile, bio: string, avatar: Option<FormFile>, cv: Option<FormFile>, now: string)
    ensures var p := MockData.MergeProfile(current, MockPatch(bio, avatar, cv), now);
      && p.id == current.id && p.bio == Some(bio) && p.updated_at == now
      && p.avatar_url == (if avatar.Some? then Some(avatar.value.dataUrl) else current.avatar_url)
      && p.cv_url == (if cv.Some? then Some(cv.value.dataUrl) else current.cv_url)
  {
  }

  /** With no upload that succeeded, the hosted update changes the bio and nothing else. */
  lemma BioOnlyUpdate(row: Profile, bio: string)
    ensures ApplyProfileUpdate(row, ProfileUpdate(bio, None, None)) == row.(bio := Some(bio))
  {
  }

  /** `getProfileId`: the id of the single profile row, if the lookup yields one. */
  method GetProfileId(rows: RowStore, fault: bool) returns (id: Option<string>)
    requires rows.Valid()
    ensures id.Some? <==> !fault && |rows.profiles| == 1
    ensures id.Some? ==> rows.profiles.Keys == {id.value} && rows.profiles[id.value].id == id.value
  {
    id := rows.ProfileId(fault);
  }

  /**
   * `PUT`. Upload failures are only logged: the URL is left out of the
   * update and the request goes on. The hosted update writes `bio` and the
   * new URLs only; it does not stamp `updated_at`.
   */
  method Put(form: Option<ProfileForm>, supabaseUrl: Option<string>,
             mock: MockData.MockStore, objects: ObjectStore, rows: RowStore,
             avatarStamp: string, cvStamp: string, now: string,
             avatarFault: bool, cvFault: bool, idFault: bool, updateFault: bool) returns (resp: Response)
    requires rows.Valid()
    modifies mock`profile, objects`objects, rows`profiles
    ensures rows.Valid()
    ensures form.None? ==> resp == Internal
    ensures form.Some? && !Truthy(form.value.bio) ==> resp == Response(400, ErrorBody(BioRequired))
    ensures form.None? || !Truthy(form.value.bio) || UseMock(supabaseUrl) ==>
      objects.objects == old(objects.objects) && rows.profiles == old(rows.profiles)
    ensures form.None? || !Truthy(form.value.bio) || !UseMock(supabaseUrl) ==> mock.profile == old(mock.profile)
    // mock mode: merge through the mock data layer
    ensures form.Some? && Truthy(form.value.bio) && UseMock(supabaseUrl) ==>
      var f := form.value;
      var p := MockData.MergeProfile(old(mock.CurrentProfile()), MockPatch(f.bio.value, f.avatar, f.cv), now);
      && resp == Response(200, ProfileBody(p))
      && mock.profile == (if mock.isBrowser then Some(p) else old(mock.profile))
    // hosted mode: tolerant uploads, then one row update
    ensures form.Some? && Truthy(form.value.bio) && !UseMock(supabaseUrl) ==>
      var f := form.value;
      var avatarOk := f.avatar.Some? && !avatarFault;
      var cvOk := f.cv.Some? && !cvFault;
      var avatarPath := AvatarPath(avatarStamp, if f.avatar.Some? then f.avatar.value.name else "");
      var cvPath := CvPath(cvStamp);
      var afterAvatar := if avatarOk then old(objects.objects)[avatarPath := f.avatar.value] else old(objects.objects);
      var u := ProfileUpdate(f.bio.value,
                             if avatarOk then Some(objects.PublicUrl(avatarPath)) else None,
                             if cvOk then Some(objects.PublicUrl(cvPath)) else None);
      var updated := !idFault && !updateFault && |old(rows.profiles)| == 1;
      && objects.objects == (if cvOk then afterAvatar[cvPath := f.cv.value] else afterAvatar)
      && (!updated ==> resp == Response(500, ErrorBody(UpdateFailed)) && rows.profiles == old(rows.profiles))
      && (updated ==> forall k :: k in old(rows.profiles) ==>
            && resp == Response(200, ProfileBody(ApplyProfileUpdate(old(rows.profiles)[k], u)))
            && resp.body.profile.id == k
            && rows.profiles == old(rows.profiles)[k := ApplyProfileUpdate(old(rows.profiles)[k], u)])
  {
    if form.None? {
      return Internal;
    }
    var f := form.value;
    if !Truthy(f.bio) {
      return Response(400, ErrorBody(BioRequired));
    }
    var bio := f.bio.value;

    if UseMock(supabaseUrl) {
      var patch := MockData.ProfilePatch(None, Some(Some(bio)), None, None, None);
      if f.avatar.Some? {
        patch := patch.(avatar_url := Some(Some(f.avatar.value.dataUrl)));
      }
      if f.cv.Some? {
        patch := patch.(cv_url := Some(Some(f.cv.value.dataUrl)));
      }
      var profile := mock.UpdateProfile(patch, now);
      return Response(200, ProfileBody(profile));
    }

    var update := ProfileUpdate(bio, None, None);
    if f.avatar.Some? {
      var avatar := f.avatar.value;
      var path := AvatarPath(avatarStamp, avatar.name);
      var uploaded := objects.Upload(path, avatar, true, avatarFault);
      if uploaded {
        update := update.(avatar_url := Some(objects.PublicUrl(path)));
      }
    }
    if f.cv.Some? {
      var cv := f.cv.value;
      var path := CvPath(cvStamp);
      var uploaded := objects.Upload(path, cv, true, cvFault);
      if uploaded {
        update := update.(cv_url := Some(objects.PublicUrl(path)));
      }
    }
    var id := GetProfileId(rows, idFault);
    var profile := rows.UpdateProfile(id, update, updateFault);
    if profile.None? {
      return Response(500, ErrorBody(UpdateFailed));
    }
    return Response(200, ProfileBody(profile.value));
  }
}
