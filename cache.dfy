/**
 * The in-memory cache of the language server: five keyed stores (documents, orbs,
 * image checks, contexts, projects), the aggregate that owns them, and the on-disk
 * path of a cached orb definition. Each store operation is one atomic step.
 */
module Utils {

  import opened Wrappers
  import opened Records
  import Arrays
  import Paths
  import OS

  /** Open documents by URI. */
  class FileCache {
    var files: map<Uri, Document>

    /** Every document is stored under its own URI. */
    ghost predicate Valid()
      reads this
    {
      forall uri :: uri in files ==> files[uri].uri == uri
    }

    constructor ()
      ensures Valid() && files == map[]
    {
      files := map[];
    }

    /** Stores `file` under its URI, replacing any previous document there. */
    method SetFile(file: Document) returns (stored: Document)
      requires Valid()
      modifies this
      ensures Valid()
      ensures files == old(files)[file.uri := file]
      ensures stored == file
    {
      files := files[file.uri := file];
      stored := file;
    }

    method GetFile(uri: Uri) returns (file: Option<Document>)
      ensures file.Some? <==> uri in files
      ensures file.Some? ==> file.value == files[uri]
      ensures Valid() && file.Some? ==> file.value.uri == uri
    {
      if uri in files {
        file := Some(files[uri]);
      } else {
        file := None;
      }
    }

    /** A snapshot of every stored document, each under its own URI. */
    method GetFiles() returns (all: map<Uri, Document>)
      ensures all == files
      ensures Valid() ==> forall uri :: uri in all ==> all[uri].uri == uri
    {
      all := files;
    }

    method RemoveFile(uri: Uri)
      requires Valid()
      modifies this
      ensures Valid()
      ensures files == old(files) - {uri}
      ensures uri !in old(files) ==> files == old(files)
    {
      files := files - {uri};
    }
  }

  /** Orb records by orb identifier. */
  class OrbCache {
    var orbs: map<string, OrbInfo>

    constructor ()
      ensures orbs == map[]
    {
      orbs := map[];
    }

    method HasOrb(orbId: string) returns (found: bool)
      ensures found <==> orbId in orbs
    {
      found := orbId in orbs;
    }

    /** Stores `orb` under the caller's `orbId`, replacing any previous record there. */
    method SetOrb(orb: OrbInfo, orbId: string) returns (stored: OrbInfo)
      modifies this
      ensures orbs == old(orbs)[orbId := orb]
      ensures stored == orb
    {
      orbs := orbs[orbId := orb];
      stored := orb;
    }

    /** Replaces the parsed attributes of an existing record and nothing else. */
    method UpdateOrbParsedAttributes(orbId: string, attributes: OrbParsedAttributes) returns (stored: OrbParsedAttributes)
      requires orbId in orbs
      modifies this
      ensures orbs == old(orbs)[orbId := old(orbs)[orbId].(parsedAttributes := attributes)]
      ensures orbs[orbId].remoteInfo == old(orbs)[orbId].remoteInfo
      ensures stored == attributes
    {
      orbs := orbs[orbId := orbs[orbId].(parsedAttributes := attributes)];
      stored := attributes;
    }

    method GetOrb(orbId: string) returns (orb: Option<OrbInfo>)
      ensures orb.Some? <==> orbId in orbs
      ensures orb.Some? ==> orb.value == orbs[orbId]
    {
      if orbId in orbs {
        orb := Some(orbs[orbId]);
      } else {
        orb := None;
      }
    }

    method RemoveOrb(orbId: string)
      modifies this
      ensures orbs == old(orbs) - {orbId}
      ensures orbId !in old(orbs) ==> orbs == old(orbs)
    {
      orbs := orbs - {orbId};
    }

    /** Deletes the records one key at a time until none is left. */
    method RemoveOrbs()
      modifies this
      ensures orbs == map[]
    {
      var pending := orbs.Keys;
      ghost var visited: set<string> := {};
      while pending != {}
        invariant orbs.Keys == pending
        invariant visited !! orbs.Keys && visited + orbs.Keys == old(orbs).Keys
        invariant forall k :: k in orbs ==> orbs[k] == old(orbs)[k]
        decreases pending
      {
        var k :| k in pending;
        orbs := orbs - {k};
        pending := pending - {k};
        visited := visited + {k};
      }
      assert orbs.Keys == {};
    }
  }

  /** Image existence checks by image name. */
  class DockerCache {
    var images: map<string, CachedDockerImage>

    /** Every stored entry records a check that was made. */
    ghost predicate Valid()
      reads this
    {
      forall name :: name in images ==> images[name].checked
    }

    constructor ()
      ensures Valid() && images == map[]
    {
      images := map[];
    }

    /** Records the outcome of checking `name`, replacing any earlier outcome. */
    method Add(name: string, imageExists: bool) returns (image: CachedDockerImage)
      requires Valid()
      modifies this
      ensures Valid()
      ensures image.checked && image.imageExists == imageExists
      ensures images == old(images)[name := image]
    {
      images := images[name := CachedDockerImage(true, imageExists)];
      image := images[name];
    }

    method Get(name: string) returns (image: Option<CachedDockerImage>)
      ensures image.Some? <==> name in images
      ensures image.Some? ==> image.value == images[name]
      ensures Valid() && image.Some? ==> image.value.checked
    {
      if name in images {
        image := Some(images[name]);
      } else {
        image := None;
      }
    }

    method Remove(name: string)
      requires Valid()
      modifies this
      ensures Valid()
      ensures images == old(images) - {name}
      ensures name !in old(images) ==> images == old(images)
    {
      images := images - {name};
    }
  }

  /** Contexts by context name. */
  class ContextCache {
    var contexts: map<string, Context>

    /** Every context is stored under its own name. */
    ghost predicate Valid()
      reads this
    {
      forall name :: name in contexts ==> contexts[name].name == name
    }

    constructor ()
      ensures Valid() && contexts == map[]
    {
      contexts := map[];
    }

    /** Stores `ctx` under its own name, replacing any previous context there. */
    method SetContext(ctx: Context) returns (stored: Context)
      requires Valid()
      modifies this
      ensures Valid()
      ensures contexts == old(contexts)[ctx.name := ctx]
      ensures stored == ctx
    {
      contexts := contexts[ctx.name := ctx];
      stored := ctx;
    }

    method GetContext(name: string) returns (ctx: Option<Context>)
      ensures ctx.Some? <==> name in contexts
      ensures ctx.Some? ==> ctx.value == contexts[name]
      ensures Valid() && ctx.Some? ==> ctx.value.name == name
    {
      if name in contexts {
        ctx := Some(contexts[name]);
      } else {
        ctx := None;
      }
    }

    method RemoveContext(name: string)
      requires Valid()
      modifies this
      ensures Valid()
      ensures contexts == old(contexts) - {name}
      ensures name !in old(contexts) ==> contexts == old(contexts)
    {
      contexts := contexts - {name};
    }

    /** Adds `envVariable` to the variables of context `name` unless it is already one of them. */
    method AddEnvVariableToContext(name: string, envVariable: string)
      requires Valid() && name in contexts
      modifies this
      ensures Valid()
      ensures contexts == old(contexts)[name := old(contexts)[name].(envVariables := Arrays.AppendUnique(old(contexts)[name].envVariables, envVariable))]
      ensures envVariable in contexts[name].envVariables
      ensures Arrays.NoDuplicates(old(contexts)[name].envVariables) ==> Arrays.NoDuplicates(contexts[name].envVariables)
    {
      var ctx := contexts[name];
      var index := Arrays.FindInArray(ctx.envVariables, envVariable);
      if index < 0 {
        ctx := ctx.(envVariables := ctx.envVariables + [envVariable]);
      }
      contexts := contexts[name := ctx];
    }

    /** A snapshot of every stored context, each under its own name. */
    method GetAllContext() returns (all: map<string, Context>)
      ensures all == contexts
      ensures Valid() ==> forall name :: name in all ==> all[name].name == name
    {
      all := contexts;
    }
  }

  /** Projects by project slug. */
  class ProjectCache {
    var projects: map<string, Project>

    /** Every project is stored under its own slug. */
    ghost predicate Valid()
      reads this
    {
      forall slug :: slug in projects ==> projects[slug].slug == slug
    }

    constructor ()
      ensures Valid() && projects == map[]
    {
      projects := map[];
    }

    /** Stores `project` under its own slug, replacing any previous project there. */
    method SetProject(project: Project) returns (stored: Project)
      requires Valid()
      modifies this
      ensures Valid()
      ensures projects == old(projects)[project.slug := project]
      ensures stored == project
    {
      projects := projects[project.slug := project];
      stored := project;
    }

    method GetProject(name: string) returns (project: Option<Project>)
      ensures project.Some? <==> name in projects
      ensures project.Some? ==> project.value == projects[name]
      ensures Valid() && project.Some? ==> project.value.slug == name
    {
      if name in projects {
        project := Some(projects[name]);
      } else {
        project := None;
      }
    }

    method RemoveProject(name: string)
      requires Valid()
      modifies this
      ensures Valid()
      ensures projects == old(projects) - {name}
      ensures name !in old(projects) ==> projects == old(projects)
    {
      projects := projects - {name};
    }

    /** A snapshot of every stored project, each under its own slug. */
    method GetAllProjects() returns (all: map<string, Project>)
      ensures all == projects
      ensures Valid() ==> forall slug :: slug in all ==> all[slug].slug == slug
    {
      all := projects;
    }

    /** Adds `envVariable` to the variables of project `name` unless it is already one of them. */
    method AddEnvVariableToProject(name: string, envVariable: string)
      requires Valid() && name in projects
      modifies this
      ensures Valid()
      ensures projects == old(projects)[name := old(projects)[name].(envVariables := Arrays.AppendUnique(old(projects)[name].envVariables, envVariable))]
      ensures envVariable in projects[name].envVariables
      ensures Arrays.NoDuplicates(old(projects)[name].envVariables) ==> Arrays.NoDuplicates(projects[name].envVariables)
    {
      var project := projects[name];
      var index := Arrays.FindInArray(project.envVariables, envVariable);
      if index < 0 {
        project := project.(envVariables := project.envVariables + [envVariable]);
      }
      projects := projects[name := project];
    }
  }

  /** The file paths recorded by the orbs stored under the keys `ids`. */
  function OrbFilePaths(orbs: map<string, OrbInfo>, ids: set<string>): set<string>
  {
    set id | id in ids && id in orbs :: orbs[id].remoteInfo.filePath
  }

  /** The aggregate that owns one instance of each store. */
  class Cache {
    const fileCache: FileCache
    const orbCache: OrbCache
    const dockerCache: DockerCache
    const contextCache: ContextCache
    const projectCache: ProjectCache

    ghost predicate Valid()
      reads this, fileCache, dockerCache, contextCache, projectCache
    {
      fileCache.Valid() && dockerCache.Valid() && contextCache.Valid() && projectCache.Valid()
    }

    /** CreateCache: five fresh, empty stores. */
    constructor ()
      ensures Valid()
      ensures fresh(fileCache) && fresh(orbCache) && fresh(dockerCache) && fresh(contextCache) && fresh(projectCache)
      ensures fileCache.files == map[] && orbCache.orbs == map[] && dockerCache.images == map[]
      ensures contextCache.contexts == map[] && projectCache.projects == map[]
    {
      fileCache := new FileCache();
      orbCache := new OrbCache();
      dockerCache := new DockerCache();
      contextCache := new ContextCache();
      projectCache := new ProjectCache();
    }

    /** Deletes from disk the file of every stored orb that exists; the stores are untouched. */
    method RemoveOrbFiles(fs: OS.FileSystem)
      modifies fs
      ensures fs.existing == old(fs.existing) - OrbFilePaths(orbCache.orbs, orbCache.orbs.Keys)
    {
      var pending := orbCache.orbs.Keys;
      ghost var visited: set<string> := {};
      while pending != {}
        invariant pending !! visited && pending + visited == orbCache.orbs.Keys
        invariant fs.existing == old(fs.existing) - OrbFilePaths(orbCache.orbs, visited)
        decreases pending
      {
        var id :| id in pending;
        var path := orbCache.orbs[id].remoteInfo.filePath;
        var found := fs.Stat(path);
        if found {
          fs.Remove(path);
        }
        assert OrbFilePaths(orbCache.orbs, visited + {id}) == OrbFilePaths(orbCache.orbs, visited) + {path};
        pending := pending - {id};
        visited := visited + {id};
      }
    }

    /** Deletes the orb files from disk, then empties the orb store; no other store changes. */
    method ClearHostData(fs: OS.FileSystem)
      requires Valid()
      modifies orbCache, fs
      ensures Valid()
      ensures orbCache.orbs == map[]
      ensures fs.existing == old(fs.existing) - OrbFilePaths(old(orbCache.orbs), old(orbCache.orbs.Keys))
      ensures unchanged(fileCache, dockerCache, contextCache, projectCache)
    {
      RemoveOrbFiles(fs);
      orbCache.RemoveOrbs();
    }
  }

  /** The orb definition file, relative to the cache root. */
  function OrbCacheRelPath(orbYaml: string): (r: string)
    ensures r == "cci" + "/" + "orbs" + "/" + ".circleci" + "/" + orbYaml + ".yml"
  {
    var elems := ["cci", "orbs", ".circleci", orbYaml + ".yml"];
    Paths.NonEmptyOfNonEmpty(elems);
    Paths.ConcatAppend(["cci"], elems[1..]);
    Paths.ConcatAppend(["orbs"], elems[2..]);
    Paths.ConcatAppend([".circleci"], elems[3..]);
    assert elems == ["cci"] + elems[1..];
    assert elems[1..] == ["orbs"] + elems[2..];
    assert elems[2..] == [".circleci"] + elems[3..];
    Paths.Join(elems)
  }

  /**
   * GetOrbCacheFSPath: the orb file under the per-user cache directory `cacheHome`, or,
   * when that directory cannot be resolved (None), under `home`/.cache.
   */
  function GetOrbCacheFSPath(cacheHome: Option<string>, home: string, orbYaml: string): (r: string)
    ensures Paths.EndsWithPath(r, OrbCacheRelPath(orbYaml))
    ensures cacheHome.None? ==> Paths.EndsWithPath(r, ".cache" + "/" + OrbCacheRelPath(orbYaml))
    ensures cacheHome.Some? && cacheHome.value != "" ==> r == cacheHome.value + "/" + OrbCacheRelPath(orbYaml)
    ensures cacheHome == Some("") ==> r == OrbCacheRelPath(orbYaml)
    ensures cacheHome.None? && home != "" ==> r == home + "/" + ".cache" + "/" + OrbCacheRelPath(orbYaml)
    ensures cacheHome.None? && home == "" ==> r == ".cache" + "/" + OrbCacheRelPath(orbYaml)
  {
    var file := OrbCacheRelPath(orbYaml);
    match cacheHome
    case Some(root) =>
      Paths.JoinPair(root, file);
      Paths.Join([root, file])
    case None =>
      Paths.JoinTriple(home, ".cache", file);
      Paths.Join([home, ".cache", file])
  }

  /** Whichever root is used, the path's last four segments are cci, orbs, .circleci and the orb file. */
  lemma OrbCachePathSegments(cacheHome: Option<string>, home: string, orbYaml: string)
    requires '/' !in orbYaml
    ensures var segs := Paths.Split(GetOrbCacheFSPath(cacheHome, home, orbYaml));
      |segs| >= 4 && segs[|segs| - 4..] == ["cci", "orbs", ".circleci", orbYaml + ".yml"]
  {
    var file := OrbCacheRelPath(orbYaml);
    var elems := ["cci", "orbs", ".circleci", orbYaml + ".yml"];
    assert '/' !in orbYaml + ".yml";
    Paths.NonEmptyOfNonEmpty(elems);
    Paths.SplitJoin(elems);
    assert Paths.Split(file) == elems;
    Paths.SplitEndsWithPath(GetOrbCacheFSPath(cacheHome, home, orbYaml), file);
  }
}
