/**
 * The hosted backend as the route handlers see it: an object store of
 * uploaded files addressed by path, and a row store with the `projects`
 * and `profile` tables keyed by id. Whether a call to the service fails
 * is outside the model's control and is passed in as a `fault` flag.
 */
module RemoteStore {
  import opened Common
  import opened Types
  import StoragePaths

  class ObjectStore {
    /** The service address the public URLs start with. */
    const baseUrl: string
    /** The `portfolio-assets` bucket. */
    var objects: map<string, FormFile>

    constructor (baseUrl: string, objects: map<string, FormFile>)
      ensures this.baseUrl == baseUrl && this.objects == objects
    {
      this.baseUrl := baseUrl;
      this.objects := objects;
    }

    /** `upload(path, file, { upsert })`: without upsert an existing object is a conflict. */
    method Upload(path: string, file: FormFile, upsert: bool, fault: bool) returns (ok: bool)
      modifies this`objects
      ensures ok <==> !fault && (upsert || path !in old(objects))
      ensures objects == if ok then old(objects)[path := file] else old(objects)
    {
      ok := !fault && (upsert || path !in objects);
      if ok {
        objects := objects[path := file];
      }
    }

    /** `getPublicUrl(path)`: computed locally, it cannot fail. */
    function PublicUrl(path: string): string
    {
      StoragePaths.PublicUrl(baseUrl, path)
    }

    /** `remove(paths)`: every listed object that exists is deleted, unless the call fails. */
    method Remove(paths: seq<string>, fault: bool) returns (ok: bool)
      modifies this`objects
      ensures ok == !fault
      ensures objects == if ok then old(objects) - set p | p in paths else old(objects)
    {
      if fault {
        return false;
      }
      objects := objects - set p | p in paths;
      return true;
    }
  }

  /** The fields the profile route sends to `update`: `bio`, and each URL only when it was set. */
  datatype ProfileUpdate = ProfileUpdate(bio: string, avatar_url: Option<string>, cv_url: Option<string>)

  /** A row after an `update` with those fields: nothing else changes, `updated_at` included. */
  function ApplyProfileUpdate(row: Profile, u: ProfileUpdate): (r: Profile)
    ensures r.id == row.id && r.bio == Some(u.bio) && r.updated_at == row.updated_at
    ensures r.avatar_url == if u.avatar_url.Some? then u.avatar_url else row.avatar_url
    ensures r.cv_url == if u.cv_url.Some? then u.cv_url else row.cv_url
  {
    row.(bio := Some(u.bio),
         avatar_url := if u.avatar_url.Some? then u.avatar_url else row.avatar_url,
         cv_url := if u.cv_url.Some? then u.cv_url else row.cv_url)
  }

  class RowStore {
    var projects: map<string, Project>
    var profiles: map<string, Profile>

    /** Every row sits under its own id. */
    ghost predicate Valid()
      reads this
    {
      && (forall k :: k in projects ==> projects[k].id == k)
      && (forall k :: k in profiles ==> profiles[k].id == k)
    }

    constructor (projects: map<string, Project>, profiles: map<string, Profile>)
      requires forall k :: k in projects ==> projects[k].id == k
      requires forall k :: k in profiles ==> profiles[k].id == k
      ensures Valid() && this.projects == projects && this.profiles == profiles
    {
      this.projects := projects;
      this.profiles := profiles;
    }

    /**
     * `insert({...}).select().single()`: the database assigns the id and
     * the creation time, given here as `newId` and `createdAt`.
     */
    method InsertProject(title: string, description: Option<string>, imageUrl: string, displayOrder: int,
                         newId: string, createdAt: string, fault: bool) returns (r: Option<Project>)
      requires Valid() && newId !in projects
      modifies this`projects
      ensures Valid()
      ensures r.None? <==> fault
      ensures r.Some? ==> r.value == Project(newId, title, description, imageUrl, createdAt, displayOrder)
      ensures projects == if r.Some? then old(projects)[newId := r.value] else old(projects)
    {
      if fault {
        return None;
      }
      var row := Project(newId, title, description, imageUrl, createdAt, displayOrder);
      projects := projects[newId := row];
      return Some(row);
    }

    /** `select('image_url').eq('id', id).single()`: `null` data when there is no such row or the call fails. */
    method SelectImageUrl(id: string, fault: bool) returns (url: Option<string>)
      ensures url.Some? <==> !fault && id in projects
      ensures url.Some? ==> url.value == projects[id].image_url
    {
      if fault || id !in projects {
        return None;
      }
      return Some(projects[id].image_url);
    }

    /** `delete().eq('id', id)`: deleting no row is not an error. */
    method DeleteProject(id: string, fault: bool) returns (ok: bool)
      requires Valid()
      modifies this`projects
      ensures Valid()
      ensures ok == !fault
      ensures projects == if ok then old(projects) - {id} else old(projects)
    {
      if fault {
        return false;
      }
      projects := projects - {id};
      return true;
    }

    /** `select('id').single()` on the profile table: an id only when there is exactly one row. */
    method ProfileId(fault: bool) returns (id: Option<string>)
      requires Valid()
      ensures id.Some? <==> !fault && |profiles| == 1
      ensures id.Some? ==> profiles.Keys == {id.value} && profiles[id.value].id == id.value
    {
      if fault || |profiles| != 1 {
        return None;
      }
      var k :| k in profiles;
      assert profiles.Keys == {k} by {
        assert |profiles.Keys - {k}| == |profiles.Keys| - 1 == 0;
      }
      return Some(k);
    }

    /**
     * `update(u).eq('id', id).select().single()`: it fails when no id was
     * found, when no row has that id, or when the call fails; otherwise that
     * one row is updated.
     */
    method UpdateProfile(id: Option<string>, u: ProfileUpdate, fault: bool) returns (r: Option<Profile>)
      requires Valid()
      modifies this`profiles
      ensures Valid()
      ensures r.Some? <==> !fault && id.Some? && id.value in old(profiles)
      ensures r.Some? ==> r.value == ApplyProfileUpdate(old(profiles)[id.value], u) && r.value.id == id.value
      ensures profiles == if r.Some? then old(profiles)[id.value := r.value] else old(profiles)
    {
      if fault || id.None? || id.value !in profiles {
        return None;
      }
      var row := ApplyProfileUpdate(profiles[id.value], u);
      profiles := profiles[id.value := row];
      return Some(row);
    }
  }
}
