# In-memory cache of the CircleCI YAML language server, in Dafny

This project models `pkg/utils/cache.go`. That file is the language server's process-wide store of ephemeral data. It holds five keyed stores:

- **FileCache**: open documents by URI.
- **OrbCache**: orb records by orb identifier.
- **DockerCache**: image-existence checks by image name.
- **ContextCache**: contexts by name.
- **ProjectCache**: projects by slug.

It also holds the aggregate `Cache` that owns the stores, the teardown `ClearHostData`, and `GetOrbCacheFSPath`, the on-disk path of a cached orb definition.

Each store is a class whose map field the methods reassign; each method is one atomic step. After each call, a method's postcondition gives the store's whole new map in terms of the old one. Four stores have an object invariant `Valid()` that every method keeps, and `Cache.Valid()` combines them:

- a document is stored under its own URI;
- a context under its own name, and a project under its own slug (so `SetContext` and `SetProject` key by the record, never by a caller-supplied key);
- every image record has `checked` set.

The list of environment variables is kept set-like by `Arrays.AppendUnique`. That function is the specification of the two `AddEnvVariable*` methods: they must match it, and its contract says the variable is appended only when absent, the list is otherwise unchanged, and a duplicate-free list stays duplicate-free. The orb path is built by `Paths.Join`, a model of Go's `path.Join`. `Paths.Split` is its partner: splitting a joined path gives back its segments.

Modules:

- `wrappers.dfy`: `Option`, returned where the source returns a nil pointer.
- `records.dfy`: the value records.
- `arrays.dfy`: `FindInArray`, `AppendUnique`, `NoDuplicates`.
- `paths.dfy`: joining and splitting slash-separated paths.
- `os.dfy`: the file system, modelled as the set of paths that exist.
- `cache.dfy`: the stores, `Cache`, and the orb path.
- `scenarios.dfy`: callers' sequences of calls, with what the contracts let them conclude.

Things the source takes from outside are parameters here:

- `cacheHome: Option<string>` stands for `xdg.CacheHome`, the per-user cache directory that `xdg.CacheFile` joins with the relative file. `None` stands for `xdg.CacheFile` failing.
- `xdg.Home` is `home`.
- The file system is an `OS.FileSystem` object passed to `ClearHostData`.

## Model

| member | source | states |
|---|---|---|
| Arrays.FindInArray | pkg/utils/cache.go:229 | index of the first occurrence of the value, or -1 exactly when the value does not occur |
| Arrays.AppendUnique | pkg/utils/cache.go:229-230 | the list after adding a name: same members plus the name, old list kept as a prefix, at most one element longer, unchanged exactly when the name was already present, duplicate-free lists stay duplicate-free |
| Arrays.NoDuplicatesOccursOnce | pkg/utils/cache.go:224-233 | in a duplicate-free variable list each name occurs once or not at all |
| Arrays.AppendUniqueIdempotent | pkg/utils/cache.go:224-233 | adding the same name twice equals adding it once, for every list |
| Arrays.AppendUniqueOccursOnce | pkg/utils/cache.go:224-233 | after adding a name to a duplicate-free list, the list holds that name exactly once |
| Paths.NonEmpty | pkg/utils/cache.go:188 | the elements `path.Join` keeps are exactly the non-empty ones |
| Paths.SplitJoin | pkg/utils/cache.go:188 | splitting a joined path on slashes gives back the non-empty elements (when none holds a slash) |
| Paths.Concat | pkg/utils/cache.go:188 | the slash-separated concatenation of segments, which starts with the first segment |
| Paths.Join | pkg/utils/cache.go:188 | Go's path.Join without cleaning: the result is empty exactly when every element is empty; its other properties come through JoinInFront, JoinPair, JoinTriple and SplitJoin |
| Paths.JoinInFront | pkg/utils/cache.go:188 | joining one element in front of non-empty elements adds it and one slash, or nothing when it is empty |
| Paths.JoinPair | pkg/utils/cache.go:189 | joining a root and a non-empty file gives root/file, or the file alone for an empty root, ending on a segment boundary with the file |
| Paths.JoinTriple | pkg/utils/cache.go:192 | joining home, .cache and the file gives home/.cache/file, or .cache/file for an empty home, ending on segment boundaries with file and with .cache/file |
| Paths.SplitEndsWithPath | pkg/utils/cache.go:187-196 | a path ending with a segment suffix splits into segments ending with that suffix's segments |
| OS.FileSystem.Stat | pkg/utils/cache.go:147 | the stat succeeds exactly on a path that exists |
| OS.FileSystem.Remove | pkg/utils/cache.go:148 | removing makes the path absent and leaves every other path |
| Utils.FileCache.constructor | pkg/utils/cache.go:52 | the document store starts empty and valid |
| Utils.FileCache.SetFile | pkg/utils/cache.go:70-75 | the document is stored under its own URI, other entries are unchanged, the stored document is returned, the keyed-by-URI invariant is kept |
| Utils.FileCache.GetFile | pkg/utils/cache.go:77-81 | Some(the stored document) when the URI is present, None otherwise; the returned document carries that URI |
| Utils.FileCache.GetFiles | pkg/utils/cache.go:83-87 | the whole store as a value snapshot, every document under its own URI |
| Utils.FileCache.RemoveFile | pkg/utils/cache.go:89-93 | the URI becomes absent, every other entry is unchanged, removing an absent URI is a no-op |
| Utils.OrbCache.constructor | pkg/utils/cache.go:55 | the orb store starts empty |
| Utils.OrbCache.HasOrb | pkg/utils/cache.go:97-104 | true exactly when the identifier is a key of the orb store |
| Utils.OrbCache.SetOrb | pkg/utils/cache.go:106-111 | the record is stored under the caller's identifier, other entries are unchanged, the stored record is returned |
| Utils.OrbCache.UpdateOrbParsedAttributes | pkg/utils/cache.go:113-118 | only the parsed-attributes field of that existing entry changes; its remote info and all other entries are unchanged; the attributes are returned |
| Utils.OrbCache.GetOrb | pkg/utils/cache.go:120-124 | Some(the stored record) when the identifier is present, None otherwise |
| Utils.OrbCache.RemoveOrb | pkg/utils/cache.go:126-130 | the identifier becomes absent, every other entry is unchanged, removing an absent identifier is a no-op |
| Utils.OrbCache.RemoveOrbs | pkg/utils/cache.go:132-138 | the orb store is empty afterwards; the loop keeps the invariant that no visited key remains and unvisited entries are untouched |
| Utils.DockerCache.constructor | pkg/utils/cache.go:58-59 | the image store starts empty and valid |
| Utils.DockerCache.Add | pkg/utils/cache.go:155-165 | stores and returns a record with checked set and the given existence, replacing any earlier record for the name, other entries unchanged |
| Utils.DockerCache.Get | pkg/utils/cache.go:167-172 | Some(the stored record) when the name is present, None otherwise; any returned record has checked set |
| Utils.DockerCache.Remove | pkg/utils/cache.go:174-179 | the name becomes absent, every other entry is unchanged, removing an absent name is a no-op |
| Utils.ContextCache.constructor | pkg/utils/cache.go:61-62 | the context store starts empty and valid |
| Utils.ContextCache.SetContext | pkg/utils/cache.go:205-210 | the context is stored under its own name, other entries are unchanged, it is returned, the keyed-by-name invariant is kept |
| Utils.ContextCache.GetContext | pkg/utils/cache.go:212-216 | Some(the stored context) when the name is present, None otherwise; the returned context carries that name |
| Utils.ContextCache.RemoveContext | pkg/utils/cache.go:218-222 | the name becomes absent, every other entry is unchanged, removing an absent name is a no-op |
| Utils.ContextCache.AddEnvVariableToContext | pkg/utils/cache.go:224-233 | on a present context, its variable list becomes AppendUnique of the old one, the variable is then in it, a duplicate-free list stays duplicate-free, all other entries unchanged |
| Utils.ContextCache.GetAllContext | pkg/utils/cache.go:235-239 | the whole store as a value snapshot, every context under its own name |
| Utils.ProjectCache.constructor | pkg/utils/cache.go:64-65 | the project store starts empty and valid |
| Utils.ProjectCache.SetProject | pkg/utils/cache.go:243-248 | the project is stored under its own slug, other entries are unchanged, it is returned, the keyed-by-slug invariant is kept |
| Utils.ProjectCache.GetProject | pkg/utils/cache.go:250-254 | Some(the stored project) when the slug is present, None otherwise; the returned project carries that slug |
| Utils.ProjectCache.RemoveProject | pkg/utils/cache.go:256-260 | the slug becomes absent, every other entry is unchanged, removing an absent slug is a no-op |
| Utils.ProjectCache.GetAllProjects | pkg/utils/cache.go:262-266 | the whole store as a value snapshot, every project under its own slug |
| Utils.ProjectCache.AddEnvVariableToProject | pkg/utils/cache.go:268-277 | on a present project, its variable list becomes AppendUnique of the old one, the variable is then in it, a duplicate-free list stays duplicate-free, all other entries unchanged |
| Utils.Cache.constructor | pkg/utils/cache.go:51-66 | CreateCache/init: five fresh, empty stores, all invariants established |
| Utils.Cache.RemoveOrbFiles | pkg/utils/cache.go:140-151 | exactly the existing files recorded by stored orbs are deleted from disk; no store changes |
| Utils.Cache.ClearHostData | pkg/utils/cache.go:198-201 | the orb files are deleted from disk, the orb store is empty, and the other four stores are unchanged |
| Utils.OrbCacheRelPath | pkg/utils/cache.go:188 | the relative orb file is cci/orbs/.circleci/<name>.yml |
| Utils.GetOrbCacheFSPath | pkg/utils/cache.go:187-196 | with a resolved non-empty cache directory the path is <cacheHome>/cci/orbs/.circleci/<name>.yml; when the directory cannot be resolved it is <home>/.cache/cci/orbs/.circleci/<name>.yml; empty roots drop out as path.Join drops them; in every case the path ends on a segment boundary with cci/orbs/.circleci/<name>.yml |
| Utils.OrbCachePathSegments | pkg/utils/cache.go:187-196 | for a name without a slash, the last four segments of the path are cci, orbs, .circleci and <name>.yml, whichever root is used |
| CacheScenarios.OrbSetThenRemove | pkg/utils/cache.go:97-130 | after SetOrb, HasOrb is true and GetOrb returns the record; after RemoveOrb both report absence, and another key is undisturbed |
| CacheScenarios.ContextAddTwice | pkg/utils/cache.go:224-233 | two AddEnvVariableToContext calls with one name leave a duplicate-free list holding it exactly once |
| CacheScenarios.ProjectAddTwice | pkg/utils/cache.go:268-277 | two AddEnvVariableToProject calls with one name leave a duplicate-free list holding it exactly once |
| CacheScenarios.DockerCheckThenGet | pkg/utils/cache.go:155-172 | on a fresh cache, Get after Add returns the checked record with the given existence |
| CacheScenarios.ClearHostDataDeletesOrbFile | pkg/utils/cache.go:140-201 | with one orb whose file exists and one whose file is missing, ClearHostData deletes the existing file and neither orb is stored afterwards |

## Left out

- The mutexes and the lock order (`cacheMutex`, pkg/utils/cache.go:71-72 and onward, 141-144) are concurrency only. Every critical section is one sequential map update, so each method is modelled as a single atomic step.
- Go pointer aliasing is not modelled. The stores hold pointers, so a record returned by `Set*`/`Get*` can be mutated behind the store's back. Here records are values.
- `GetFiles`, `GetAllContext` and `GetAllProjects` return the live map in the source. Here a Dafny `map` value is already a snapshot.
- Dereferencing a missing key is a nil-pointer fault in the source (`UpdateOrbParsedAttributes`, `AddEnvVariableToContext`, `AddEnvVariableToProject`, lines 116, 229 and 273). Here it is the precondition that the key is present.
- The definition of `FindInArray` is in a file that is not part of this model. It is modelled from its use as a first-match linear search that returns -1 when the value is absent.
- `xdg.CacheFile` and `xdg.Home` are not modelled; their results are passed in. `xdg.CacheFile` also creates the cache directories on disk, which is not modelled.
- `GetOrbCacheFSPath`: `path.Clean` is not modelled, so Join only drops empty elements and puts one slash between the others. For names or roots containing `.`, `..`, repeated slashes or a trailing slash, Go's cleaned path can differ from the model's.
- `Utils.Cache.RemoveOrbFiles`: if `os.Stat` succeeds, `os.Remove` is assumed to succeed. The source ignores a failed removal, such as a non-empty directory or a permission error, and the model does not represent one.
- The internals of `protocol.TextDocumentItem`, `ast.OrbInfo`, `ast.OrbParsedAttributes`, `Context` and `Project` are not modelled. Each is a record with the fields the cache uses. Parsed attributes are reduced to the declared command, job and executor names. The document version is an unbounded `int`, not an `int32`.
