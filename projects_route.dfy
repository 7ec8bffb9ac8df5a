/**
 * The `/api/projects` route: `POST` uploads an image and inserts a project
 * row, `DELETE` removes a row and then, best effort, its image.
 */
module ProjectsRoute {
  import opened Common
  import opened Types
  import opened StoragePaths
  import opened RemoteStore
  import opened Responses

  const MissingFields: string := "Missing required fields"
  const UploadFailed: string := "Failed to upload image"
  const CreateFailed: string := "Failed to create project"
  const IdRequired: string := "Project ID is required"
  const DeleteFailed: string := "Failed to delete project"

  /** The `file`, `title` and `description` fields of the submitted form. */
  datatype ProjectForm = ProjectForm(file: Option<FormFile>, title: Option<string>, description: Option<string>)

  /** `file && title && description`: a file, and two non-empty texts. */
  predicate Complete(f: ProjectForm): (c: bool)
    ensures c <==> f.file.Some? && f.title.Some? && f.title.value != "" && f.description.Some? && f.description.value != ""
  {
    f.file.Some? && Truthy(f.title) && Truthy(f.description)
  }

  /**
   * `POST`: validate, upload the image without overwriting, then insert
   * the row pointing at its public URL. A failed upload inserts nothing;
   * a failed insert leaves the uploaded image in place.
   */
  method Post(form: Option<ProjectForm>, objects: ObjectStore, rows: RowStore,
              stamp: string, suffix: string, newId: string, createdAt: string,
              uploadFault: bool, insertFault: bool) returns (resp: Response)
    requires rows.Valid() && newId !in rows.projects
    modifies objects`objects, rows`projects
    ensures rows.Valid()
    ensures form.None? ==> resp == Internal
    ensures form.Some? && !Complete(form.value) ==> resp == Response(400, ErrorBody(MissingFields))
    ensures form.None? || !Complete(form.value) ==>
      objects.objects == old(objects.objects) && rows.projects == old(rows.projects)
    ensures form.Some? && Complete(form.value) ==>
      var f := form.value;
      var path := ProjectImagePath(stamp, suffix, f.file.value.name);
      var uploaded := !uploadFault && path !in old(objects.objects);
      var row := Project(newId, f.title.value, Some(f.description.value), objects.PublicUrl(path), createdAt, 0);
      && objects.objects == (if uploaded then old(objects.objects)[path := f.file.value] else old(objects.objects))
      && (!uploaded ==> resp == Response(500, ErrorBody(UploadFailed)) && rows.projects == old(rows.projects))
      && (uploaded && insertFault ==>
            resp == Response(500, ErrorBody(CreateFailed)) && rows.projects == old(rows.projects))
      && (uploaded && !insertFault ==>
            resp == Response(200, ProjectBody(row)) && rows.projects == old(rows.projects)[newId := row])
  {
    if form.None? {
      return Internal;
    }
    var f := form.value;
    if !Complete(f) {
      return Response(400, ErrorBody(MissingFields));
    }
    var file := f.file.value;
    var path := ProjectImagePath(stamp, suffix, file.name);
    var uploaded := objects.Upload(path, file, false, uploadFault);
    if !uploaded {
      return Response(500, ErrorBody(UploadFailed));
    }
    var publicUrl := objects.PublicUrl(path);
    var project := rows.InsertProject(f.title.value, Some(f.description.value), publicUrl, 0,
                                      newId, createdAt, insertFault);
    if project.None? {
      return Response(500, ErrorBody(CreateFailed));
    }
    return Response(200, ProjectBody(project.value));
  }

  /** The object `DELETE` removes after the row is gone, if any: the last two segments of a non-empty image URL. */
  function ImageToRemove(imageUrl: Option<string>): (path: Option<string>)
    ensures path.Some? <==> Truthy(imageUrl)
    ensures path.Some? ==> path.value == PathFromUrl(imageUrl.value)
  {
    if Truthy(imageUrl) then Some(PathFromUrl(imageUrl.value)) else None
  }

  /**
   * `DELETE`: require an id, look the row's image URL up, delete the row,
   * then remove the image, ignoring whether that removal worked.
   */
  method Delete(id: Option<string>, objects: ObjectStore, rows: RowStore,
                lookupFault: bool, deleteFault: bool, removeFault: bool) returns (resp: Response)
    requires rows.Valid()
    modifies objects`objects, rows`projects
    ensures rows.Valid()
    ensures !Truthy(id) ==> resp == Response(400, ErrorBody(IdRequired))
    ensures !Truthy(id) || deleteFault ==>
      objects.objects == old(objects.objects) && rows.projects == old(rows.projects)
    ensures Truthy(id) && deleteFault ==> resp == Response(500, ErrorBody(DeleteFailed))
    ensures Truthy(id) && !deleteFault ==>
      var url := if !lookupFault && id.value in old(rows.projects) then Some(old(rows.projects)[id.value].image_url) else None;
      var target := ImageToRemove(url);
      && resp == Response(200, SuccessBody)
      && rows.projects == old(rows.projects) - {id.value}
      && objects.objects == (if target.Some? && !removeFault then old(objects.objects) - {target.value} else old(objects.objects))
  {
    if !Truthy(id) {
      return Response(400, ErrorBody(IdRequired));
    }
    var key := id.value;
    var imageUrl := rows.SelectImageUrl(key, lookupFault);
    var deleted := rows.DeleteProject(key, deleteFault);
    if !deleted {
      return Response(500, ErrorBody(DeleteFailed));
    }
    var target := ImageToRemove(imageUrl);
    if target.Some? {
      var removed := objects.Remove([target.value], removeFault);
      assert (set p | p in [target.value]) == {target.value};
    }
    return Response(200, SuccessBody);
  }

  /**
   * Creating a project and deleting it again, with no service failure and
   * slash-free name parts, leaves both stores as they were: the delete
   * finds the very object the create uploaded.
   */
  method CreateThenDelete(f: ProjectForm, objects: ObjectStore, rows: RowStore,
                          stamp: string, suffix: string, newId: string, createdAt: string)
    returns (created: Response, deleted: Response)
    requires rows.Valid() && newId !in rows.projects && newId != ""
    requires Complete(f)
    requires '/' !in stamp && '/' !in suffix && '/' !in f.file.value.name
    requires ProjectImagePath(stamp, suffix, f.file.value.name) !in objects.objects
    modifies objects`objects, rows`projects
    ensures created.status == 200 && created.body.ProjectBody? && created.body.project.id == newId
    ensures deleted == Response(200, SuccessBody)
    ensures objects.objects == old(objects.objects) && rows.projects == old(rows.projects)
  {
    var path := ProjectImagePath(stamp, suffix, f.file.value.name);
    created := Post(Some(f), objects, rows, stamp, suffix, newId, createdAt, false, false);
    assert rows.projects[newId].image_url == objects.PublicUrl(path);
    ProjectImageRoundTrip(objects.baseUrl, stamp, suffix, f.file.value.name);
    deleted := Delete(Some(newId), objects, rows, false, false, false);
    assert objects.objects == old(objects.objects)[path := f.file.value] - {path};
    assert objects.objects == old(objects.objects);
    assert rows.projects == old(rows.projects);
  }
}
