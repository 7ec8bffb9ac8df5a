/**
 * Object-store paths and URLs built by the route handlers: the file
 * extension taken from an upload's name, the three storage paths, the
 * public URL of a stored object and the path read back from such a URL.
 */
module StoragePaths {
  import opened Strings

  const Bucket: string := "portfolio-assets"

  /**
   * `name.split('.').pop()`: the text after the last dot, or the whole name
   * when it has no dot.
   */
  function Extension(name: string): (ext: string)
    ensures |ext| <= |name| && name[|name| - |ext|..] == ext && '.' !in ext
    ensures |ext| < |name| ==> name[|name| - |ext| - 1] == '.'
    ensures ext == name <==> '.' !in name
  {
    SplitLastIsSuffix(name, '.');
    Last(Split(name, '.'))
  }

  /** The extension of a name ending in `.<ext>`, for a dot-free `ext`, is `ext`. */
  lemma ExtensionAfterDot(prefix: string, ext: string)
    requires '.' !in ext
    ensures Extension(prefix + "." + ext) == ext
  {
    assert prefix + "." + ext == prefix + ['.'] + ext;
    SplitConcat(prefix, ext, '.');
    SplitNoSeparator(ext, '.');
  }

  const ProjectsDir: string := "projects"

  /** `<stamp>-<suffix>.<ext>`: the generated file name of a project image, keeping the upload's extension. */
  function ProjectImageName(stamp: string, suffix: string, name: string): (n: string)
    ensures Extension(n) == Extension(name)
    ensures '/' !in stamp && '/' !in suffix && '/' !in name ==> '/' !in n
  {
    ExtensionAfterDot(stamp + "-" + suffix, Extension(name));
    assert '/' !in stamp && '/' !in suffix && '/' !in name ==> '/' !in stamp + "-" + suffix + "." + Extension(name) by {
      if '/' !in name { ExtensionWithoutSlash(name); }
      assert '/' !in "-" && '/' !in ".";
    }
    stamp + "-" + suffix + "." + Extension(name)
  }

  /** `projects/<file name>` for a project image. */
  function ProjectImagePath(stamp: string, suffix: string, name: string): (p: string)
    ensures ProjectsDir + "/" <= p
    ensures Extension(p) == Extension(name)
  {
    var dir, base, ext := ProjectsDir + "/", stamp + "-" + suffix, Extension(name);
    ExtensionAfterDot(dir + base, ext);
    assert dir + (base + "." + ext) == (dir + base) + "." + ext;
    dir + ProjectImageName(stamp, suffix, name)
  }

  /** `profile/avatar-<stamp>.<ext>` for an avatar, keeping the upload's extension. */
  function AvatarPath(stamp: string, name: string): (a: string)
    ensures "profile/avatar-" <= a
    ensures Extension(a) == Extension(name)
  {
    ExtensionAfterDot("profile/avatar-" + stamp, Extension(name));
    "profile/avatar-" + stamp + "." + Extension(name)
  }

  /** `profile/cv-<stamp>.pdf` for a CV, whatever the uploaded name. */
  function CvPath(stamp: string): (c: string)
    ensures "profile/cv-" <= c
    ensures Extension(c) == "pdf"
  {
    ExtensionAfterDot("profile/cv-" + stamp, "pdf");
    assert "profile/cv-" + stamp + "." + "pdf" == "profile/cv-" + stamp + ".pdf";
    "profile/cv-" + stamp + ".pdf"
  }

  /** The image path spelled out: `projects/`, the reading, `-`, the suffix, `.`, the extension. */
  lemma ProjectImagePathShape(stamp: string, suffix: string, name: string)
    ensures ProjectImagePath(stamp, suffix, name) == "projects/" + (stamp + ['-'] + (suffix + ['.'] + Extension(name)))
  {
    var ext := Extension(name);
    var n := ProjectImageName(stamp, suffix, name);
    assert n == stamp + "-" + suffix + "." + ext;
    assert stamp + "-" + suffix + "." + ext == stamp + ['-'] + (suffix + ['.'] + ext);
    assert ProjectImagePath(stamp, suffix, name) == ProjectsDir + "/" + n;
    assert ProjectsDir + "/" == "projects/";
  }

  /**
   * A clock reading has no `-` and the random suffix no `.`, so the image
   * path determines both: later uploads never meet an earlier object.
   */
  lemma ProjectImagePathInjective(stamp1: string, suffix1: string, name1: string,
                                  stamp2: string, suffix2: string, name2: string)
    requires '-' !in stamp1 && '-' !in stamp2 && '.' !in suffix1 && '.' !in suffix2
    requires ProjectImagePath(stamp1, suffix1, name1) == ProjectImagePath(stamp2, suffix2, name2)
    ensures stamp1 == stamp2 && suffix1 == suffix2
  {
    var p, e1, e2 := ProjectImagePath(stamp1, suffix1, name1), Extension(name1), Extension(name2);
    var rest1, rest2 := suffix1 + ['.'] + e1, suffix2 + ['.'] + e2;
    ProjectImagePathShape(stamp1, suffix1, name1);
    ProjectImagePathShape(stamp2, suffix2, name2);
    assert stamp1 + ['-'] + rest1 == p[9..] == stamp2 + ['-'] + rest2;
    SplitAtFirst(stamp1, rest1, stamp2, rest2, '-');
    SplitAtFirst(suffix1, e1, suffix2, e2, '.');
  }

  /** The avatar path spelled out: `profile/avatar-`, the reading, `.`, the extension. */
  lemma AvatarPathShape(stamp: string, name: string)
    ensures AvatarPath(stamp, name) == "profile/avatar-" + (stamp + ['.'] + Extension(name))
  {
  }

  /** A clock reading has no `.`, so the avatar path determines it. */
  lemma AvatarPathInjective(stamp1: string, name1: string, stamp2: string, name2: string)
    requires '.' !in stamp1 && '.' !in stamp2
    requires AvatarPath(stamp1, name1) == AvatarPath(stamp2, name2)
    ensures stamp1 == stamp2
  {
    var a, e1, e2 := AvatarPath(stamp1, name1), Extension(name1), Extension(name2);
    AvatarPathShape(stamp1, name1);
    AvatarPathShape(stamp2, name2);
    assert stamp1 + ['.'] + e1 == a[15..] == stamp2 + ['.'] + e2;
    SplitAtFirst(stamp1, e1, stamp2, e2, '.');
  }

  /** The CV path determines the clock reading it was built from. */
  lemma CvPathInjective(stamp1: string, stamp2: string)
    requires CvPath(stamp1) == CvPath(stamp2)
    ensures stamp1 == stamp2
  {
    var c := CvPath(stamp1);
    assert c == "profile/cv-" + stamp1 + ".pdf" == "profile/cv-" + stamp2 + ".pdf";
    assert stamp1 == c[11..|c| - 4] == stamp2;
  }

  /** The part of every public URL in front of the path: `<base>/storage/v1/object/public/<bucket>`. */
  function UrlPrefix(base: string): string
  {
    base + "/storage/v1/object/public/" + Bucket
  }

  /** The public URL of the object at `path` under the service address `base`. */
  function PublicUrl(base: string, path: string): string
  {
    UrlPrefix(base) + "/" + path
  }

  /**
   * `url.split('/').slice(-2).join('/')`: the last two segments of a URL,
   * a suffix of it that is the whole URL when it has at most one slash.
   */
  function PathFromUrl(url: string): (p: string)
    ensures |p| <= |url| && url[|url| - |p|..] == p
    ensures '/' !in url ==> p == url
  {
    var parts := Split(url, '/');
    var k := if |parts| >= 2 then |parts| - 2 else 0;
    JoinSplit(url, '/');
    JoinSuffix(parts, k, '/');
    assert '/' !in url ==> parts == [url] by {
      if '/' !in url { SplitNoSeparator(url, '/'); }
    }
    assert parts[k..] == if |parts| >= 2 then parts[|parts| - 2..] else parts;
    Join(if |parts| >= 2 then parts[|parts| - 2..] else parts, '/')
  }

  /** Whatever precedes them, the last two segments of `<a>/<dir>/<file>` are `dir/file`. */
  lemma LastTwoSegments(a: string, dir: string, file: string)
    requires '/' !in dir && '/' !in file
    ensures PathFromUrl(a + "/" + dir + "/" + file) == dir + "/" + file
  {
    var url := a + "/" + dir + "/" + file;
    assert url == (a + ['/'] + dir) + ['/'] + file;
    SplitConcat(a + ['/'] + dir, file, '/');
    SplitConcat(a, dir, '/');
    SplitNoSeparator(dir, '/');
    SplitNoSeparator(file, '/');
    var parts := Split(a, '/') + [dir] + [file];
    assert Split(url, '/') == parts;
    assert parts[|parts| - 2..] == [dir, file];
    assert Join([dir, file], '/') == dir + ['/'] + file;
  }

  /** A path of exactly two slash-free segments is read back whole. */
  lemma TwoSegmentsKept(dir: string, file: string)
    requires '/' !in dir && '/' !in file
    ensures PathFromUrl(dir + "/" + file) == dir + "/" + file
  {
    assert dir + "/" + file == dir + ['/'] + file;
    SplitConcat(dir, file, '/');
    SplitNoSeparator(dir, '/');
    SplitNoSeparator(file, '/');
    assert Split(dir + "/" + file, '/') == [dir, file];
    assert Join([dir, file], '/') == dir + ['/'] + file;
  }

  /** A slash-free directory and file name are read back from the public URL of `dir/file`. */
  lemma PathFromPublicUrl(base: string, dir: string, file: string)
    requires '/' !in dir && '/' !in file
    ensures PathFromUrl(PublicUrl(base, dir + "/" + file)) == dir + "/" + file
  {
    assert PublicUrl(base, dir + "/" + file) == UrlPrefix(base) + "/" + dir + "/" + file;
    LastTwoSegments(UrlPrefix(base), dir, file);
  }

  /** The extension of a slash-free name is slash-free. */
  lemma ExtensionWithoutSlash(name: string)
    requires '/' !in name
    ensures '/' !in Extension(name)
  {
    var ext := Extension(name);
    forall k | 0 <= k < |ext| ensures ext[k] != '/' {
      assert ext[k] == name[|name| - |ext| + k];
    }
  }

  /**
   * Deleting a project finds its uploaded image again: the path read back
   * from the image's public URL is the path it was uploaded to.
   */
  lemma ProjectImageRoundTrip(base: string, stamp: string, suffix: string, name: string)
    requires '/' !in stamp && '/' !in suffix && '/' !in name
    ensures PathFromUrl(PublicUrl(base, ProjectImagePath(stamp, suffix, name))) == ProjectImagePath(stamp, suffix, name)
  {
    var file := ProjectImageName(stamp, suffix, name);
    assert '/' !in ProjectsDir;
    PathFromPublicUrl(base, ProjectsDir, file);
  }

  /** A name without a dot is its own extension; with a dot, the extension is what follows the last one. */
  lemma ExtensionExamples()
    ensures Extension("photo.final.png") == "png"
    ensures Extension("photo") == "photo"
    ensures Extension("") == ""
  {
    assert "photo.final.png" == "photo.final" + ['.'] + "png";
    SplitConcat("photo.final", "png", '.');
    SplitNoSeparator("png", '.');
    SplitNoSeparator("photo", '.');
  }
}
