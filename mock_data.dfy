/**
 * The browser-local mock data layer: a key-value store holding the project
 * list, the profile record and an authentication marker, with CRUD
 * operations over them and a check against one fixed credential pair.
 *
 * Each of the three storage keys is a field of `MockStore`; an absent key
 * and a stored empty list read the same, so the project list is a plain
 * sequence. Outside a browser there is no storage: every operation then
 * leaves the fields alone.
 */
module MockData {
  import opened Common
  import opened Types
  import opened ProjectList

  const MockEmail: string := "admin@portfolio.com"
  const MockPassword: string := "admin123"
  const MockToken: string := "mock-token"
  const AuthenticatedMarker: string := "authenticated"
  const InvalidCredentials: string := "Invalid credentials"
  const DefaultBio: string :=
    "Graphic designer specializing in modern, minimalist design. Passionate about creating beautiful and functional user experiences."

  /** The profile used while none is stored; its timestamp is taken when the module loads. */
  function DefaultProfile(loadedAt: string): (p: Profile)
    ensures p.id == "1" && p.bio == Some(DefaultBio)
    ensures p.avatar_url.None? && p.cv_url.None? && p.updated_at == loadedAt
  {
    Profile("1", Some(DefaultBio), None, None, loadedAt)
  }

  datatype Session = Session(access_token: string)

  /** `{ success, session?, error? }` as returned by the mock sign-in. */
  datatype SignInResult = SignInResult(success: bool, session: Option<Session>, error: Option<string>)

  /** The result of a mock sign-in, before any storage is touched. */
  function SignInResponse(email: string, password: string): (r: SignInResult)
    ensures r.success <==> email == MockEmail && password == MockPassword
    ensures r.success ==> r.session == Some(Session(MockToken)) && r.error.None?
    ensures !r.success ==> r.session.None? && r.error == Some(InvalidCredentials)
  {
    if email == MockEmail && password == MockPassword then
      SignInResult(true, Some(Session(MockToken)), None)
    else
      SignInResult(false, None, Some(InvalidCredentials))
  }

  /** The fields a caller supplies to `create`. */
  datatype ProjectInput = ProjectInput(title: string, description: Option<string>, image_url: string)

  /** `Partial<MockProject>`: each field either supplied or absent. */
  datatype ProjectPatch = ProjectPatch(
    id: Option<string>,
    title: Option<string>,
    description: Option<Option<string>>,
    image_url: Option<string>,
    created_at: Option<string>,
    display_order: Option<int>)

  /** `Partial<MockProfile>`. */
  datatype ProfilePatch = ProfilePatch(
    id: Option<string>,
    bio: Option<Option<string>>,
    avatar_url: Option<Option<string>>,
    cv_url: Option<Option<string>>,
    updated_at: Option<string>)

  /** The id `create` generates from the clock reading and the random suffix. */
  function MockProjectId(stamp: string, suffix: string): (id: string)
    ensures "project_" <= id && |id| == |stamp| + |suffix| + 9
  {
    "project_" + stamp + "_" + suffix
  }

  /**
   * A clock reading has no underscore, so the id determines both the
   * reading and the suffix: distinct draws give distinct ids.
   */
  lemma MockProjectIdInjective(stamp1: string, suffix1: string, stamp2: string, suffix2: string)
    requires '_' !in stamp1 && '_' !in stamp2
    requires MockProjectId(stamp1, suffix1) == MockProjectId(stamp2, suffix2)
    ensures stamp1 == stamp2 && suffix1 == suffix2
  {
    var id := MockProjectId(stamp1, suffix1);
    assert id == "project_" + stamp1 + "_" + suffix1;
    assert id == "project_" + stamp2 + "_" + suffix2;
    assert id[8 + |stamp1|] == '_' && id[8 + |stamp2|] == '_';
    assert stamp1 == id[8..8 + |stamp1|] == stamp2;
    assert suffix1 == id[9 + |stamp1|..] == suffix2;
  }

  /** The record `create` builds: the input's fields, the generated id and time, order 0. */
  function NewProject(input: ProjectInput, id: string, createdAt: string): (p: Project)
    ensures p.title == input.title && p.description == input.description
    ensures p.image_url == input.image_url
    ensures p.id == id && p.created_at == createdAt && p.display_order == 0
  {
    Project(id, input.title, input.description, input.image_url, createdAt, 0)
  }

  /** `{ ...p, ...u }`: every field the patch supplies replaces the old one, the rest stay. */
  function ApplyProjectPatch(p: Project, u: ProjectPatch): (r: Project)
    ensures Merged(u.id, r.id, p.id) && Merged(u.title, r.title, p.title)
    ensures Merged(u.description, r.description, p.description)
    ensures Merged(u.image_url, r.image_url, p.image_url)
    ensures Merged(u.created_at, r.created_at, p.created_at)
    ensures Merged(u.display_order, r.display_order, p.display_order)
  {
    Project(
      Override(u.id, p.id),
      Override(u.title, p.title),
      Override(u.description, p.description),
      Override(u.image_url, p.image_url),
      Override(u.created_at, p.created_at),
      Override(u.display_order, p.display_order))
  }

  /** `{ ...current, ...u, updated_at: now }`: the stamp wins even over a supplied `updated_at`. */
  function MergeProfile(current: Profile, u: ProfilePatch, now: string): (r: Profile)
    ensures Merged(u.id, r.id, current.id) && Merged(u.bio, r.bio, current.bio)
    ensures Merged(u.avatar_url, r.avatar_url, current.avatar_url)
    ensures Merged(u.cv_url, r.cv_url, current.cv_url)
    ensures r.updated_at == now
  {
    Profile(
      Override(u.id, current.id),
      Override(u.bio, current.bio),
      Override(u.avatar_url, current.avatar_url),
      Override(u.cv_url, current.cv_url),
      now)
  }

  /** The stored profile after `initialize`: the default is written only into an empty slot. */
  function InitializedProfile(isBrowser: bool, stored: Option<Profile>, default: Profile): (r: Option<Profile>)
    ensures stored.Some? ==> r == stored
    ensures stored.None? ==> (r.Some? <==> isBrowser)
    ensures r.Some? && stored.None? ==> r.value == default
  {
    if isBrowser && stored.None? then Some(default) else stored
  }

  /** Initializing twice leaves the profile as initializing once. */
  lemma InitializeIdempotent(isBrowser: bool, stored: Option<Profile>, default: Profile)
    ensures var once := InitializedProfile(isBrowser, stored, default);
      InitializedProfile(isBrowser, once, default) == once
  {
  }

  /** Applying the same patch twice is the same as applying it once. */
  lemma ProjectPatchIdempotent(p: Project, u: ProjectPatch)
    ensures ApplyProjectPatch(ApplyProjectPatch(p, u), u) == ApplyProjectPatch(p, u)
  {
  }

  class MockStore {
    /** Whether a window (and so localStorage) exists. */
    const isBrowser: bool
    /** DEFAULT_PROFILE, fixed when the module is loaded. */
    const defaultProfile: Profile
    /** The `portfolio_projects` key. */
    var projects: seq<Project>
    /** The `portfolio_profile` key. */
    var profile: Option<Profile>
    /** The `portfolio_auth` key. */
    var authMarker: Option<string>

    /** What `isAuthenticated` reports. */
    predicate Authenticated()
      reads this
    {
      isBrowser && authMarker == Some(AuthenticatedMarker)
    }

    /** What `mockProfile.get` reports. */
    function CurrentProfile(): Profile
      reads this
    {
      if isBrowser && profile.Some? then profile.value else defaultProfile
    }

    /** Loading the module: storage holds what earlier pages left, then `initialize` runs. */
    constructor Load(isBrowser: bool, loadedAt: string, projects: seq<Project>,
                     profile: Option<Profile>, authMarker: Option<string>)
      ensures this.isBrowser == isBrowser && defaultProfile == DefaultProfile(loadedAt)
      ensures this.projects == projects && this.authMarker == authMarker
      ensures this.profile == InitializedProfile(isBrowser, profile, DefaultProfile(loadedAt))
    {
      this.isBrowser := isBrowser;
      this.defaultProfile := DefaultProfile(loadedAt);
      this.projects := projects;
      this.profile := profile;
      this.authMarker := authMarker;
      new;
      if isBrowser {
        Initialize();
      }
    }

    /** `mockAuth.signIn`: on the fixed pair, mark the session authenticated. */
    method SignIn(email: string, password: string) returns (r: SignInResult)
      modifies this`authMarker
      ensures r == SignInResponse(email, password)
      ensures authMarker == if r.success && isBrowser then Some(AuthenticatedMarker) else old(authMarker)
      ensures r.success && isBrowser ==> Authenticated()
    {
      if email == MockEmail && password == MockPassword {
        if isBrowser {
          authMarker := Some(AuthenticatedMarker);
        }
        return SignInResult(true, Some(Session(MockToken)), None);
      }
      return SignInResult(false, None, Some(InvalidCredentials));
    }

    /** `mockAuth.signOut`: remove the marker. */
    method SignOut() returns (success: bool)
      modifies this`authMarker
      ensures success
      ensures authMarker == if isBrowser then None else old(authMarker)
      ensures !Authenticated()
    {
      if isBrowser {
        authMarker := None;
      }
      return true;
    }

    /** `mockAuth.isAuthenticated`. */
    method IsAuthenticated() returns (b: bool)
      ensures b == Authenticated()
    {
      if !isBrowser {
        return false;
      }
      return authMarker == Some(AuthenticatedMarker);
    }

    /** `mockProjects.getAll`: the stored list, or nothing; no starter set is seeded. */
    method GetAll() returns (ps: seq<Project>)
      ensures isBrowser ==> ps == projects
      ensures !isBrowser ==> ps == []
    {
      if !isBrowser {
        return [];
      }
      return projects;
    }

    /** `mockProjects.create`: build the record, and in a browser put it in front of the list. */
    method Create(input: ProjectInput, stamp: string, suffix: string, createdAt: string) returns (p: Project)
      modifies this`projects
      ensures p == NewProject(input, MockProjectId(stamp, suffix), createdAt)
      ensures projects == if isBrowser then [p] + old(projects) else old(projects)
      ensures isBrowser ==> |projects| == |old(projects)| + 1
      ensures old(UniqueIds(projects)) && !old(HasId(projects, p.id)) ==> UniqueIds(projects)
    {
      p := NewProject(input, MockProjectId(stamp, suffix), createdAt);
      if isBrowser {
        var all := GetAll();
        all := [p] + all;
        projects := all;
        if old(UniqueIds(projects)) && !old(HasId(projects, p.id)) {
          PrependUnique(p, old(projects));
        }
      }
    }

    /** `mockProjects.delete`: keep every project with another id; `true` whenever storage exists. */
    method Delete(id: string) returns (ok: bool)
      modifies this`projects
      ensures ok == isBrowser
      ensures projects == if isBrowser then Without(old(projects), id) else old(projects)
      ensures isBrowser ==> !HasId(projects, id)
      ensures old(UniqueIds(projects)) ==> UniqueIds(projects)
    {
      if !isBrowser {
        return false;
      }
      var all := GetAll();
      var filtered := Without(all, id);
      projects := filtered;
      WithoutIdempotent(old(projects), id);
      if old(UniqueIds(projects)) {
        WithoutUnique(old(projects), id);
      }
      return true;
    }

    /** `mockProjects.update`: patch the first project with the id, or report `null`. */
    method Update(id: string, u: ProjectPatch) returns (r: Option<Project>)
      modifies this`projects
      ensures !isBrowser || FindIndex(old(projects), id).None? ==> r.None? && projects == old(projects)
      ensures isBrowser && FindIndex(old(projects), id).Some? ==>
        var i := FindIndex(old(projects), id).value;
        && projects == old(projects)[i := ApplyProjectPatch(old(projects)[i], u)]
        && r == Some(projects[i])
      ensures |projects| == |old(projects)|
      ensures old(UniqueIds(projects)) && (u.id.None? || u.id == Some(id) || !old(HasId(projects, u.id.value)))
        ==> UniqueIds(projects)
    {
      if !isBrowser {
        return None;
      }
      var all := GetAll();
      var index := FindIndex(all, id);
      if index.None? {
        return None;
      }
      var i := index.value;
      all := all[i := ApplyProjectPatch(all[i], u)];
      projects := all;
      if old(UniqueIds(projects)) && (u.id.None? || u.id == Some(id) || !old(HasId(projects, u.id.value))) {
        ReplaceUnique(old(projects), i, ApplyProjectPatch(old(projects)[i], u));
      }
      return Some(all[i]);
    }

    /** `mockProfile.get`. */
    method GetProfile() returns (p: Profile)
      ensures isBrowser && profile.Some? ==> p == profile.value
      ensures !isBrowser || profile.None? ==> p == defaultProfile
    {
      if !isBrowser {
        return defaultProfile;
      }
      match profile
      case Some(stored) => return stored;
      case None => return defaultProfile;
    }

    /** `mockProfile.update`: merge onto the current profile, stamp it, and store it in a browser. */
    method UpdateProfile(u: ProfilePatch, now: string) returns (p: Profile)
      modifies this`profile
      ensures p == MergeProfile(old(CurrentProfile()), u, now)
      ensures profile == if isBrowser then Some(p) else old(profile)
      ensures isBrowser ==> CurrentProfile() == p
    {
      var current := GetProfile();
      p := MergeProfile(current, u, now);
      if isBrowser {
        profile := Some(p);
      }
    }

    /** `mockProfile.initialize`: store the default profile only when none is stored. */
    method Initialize()
      modifies this`profile
      ensures profile == InitializedProfile(isBrowser, old(profile), defaultProfile)
    {
      if !isBrowser {
        return;
      }
      if profile.None? {
        profile := Some(defaultProfile);
      }
    }
  }
}
