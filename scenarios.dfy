/**
 * Callers' sequences of store operations, and what the store contracts let a caller
 * conclude about them.
 */
module CacheScenarios {

  import opened Wrappers
  import opened Records
  import Arrays
  import Utils
  import OS

  /** Set, has, get and remove on the orb store; an unrelated key is not disturbed. */
  method OrbSetThenRemove(c: Utils.OrbCache, orb: OrbInfo, orbId: string, other: string)
    returns (hasAfterSet: bool, got: Option<OrbInfo>, hasAfterRemove: bool, gotAfterRemove: Option<OrbInfo>)
    requires other != orbId
    modifies c
    ensures hasAfterSet && got == Some(orb)
    ensures !hasAfterRemove && gotAfterRemove == None
    ensures c.orbs == old(c.orbs) - {orbId}
    ensures other in c.orbs <==> other in old(c.orbs)
  {
    var _ := c.SetOrb(orb, orbId);
    hasAfterSet := c.HasOrb(orbId);
    got := c.GetOrb(orbId);
    c.RemoveOrb(orbId);
    hasAfterRemove := c.HasOrb(orbId);
    gotAfterRemove := c.GetOrb(orbId);
  }

  /** Adding the same variable twice to a context leaves it there exactly once. */
  method ContextAddTwice(c: Utils.ContextCache, name: string, envVariable: string) returns (vars: seq<string>)
    requires c.Valid() && name in c.contexts
    requires Arrays.NoDuplicates(c.contexts[name].envVariables)
    modifies c
    ensures c.Valid()
    ensures vars == Arrays.AppendUnique(old(c.contexts[name].envVariables), envVariable)
    ensures multiset(vars)[envVariable] == 1
  {
    c.AddEnvVariableToContext(name, envVariable);
    c.AddEnvVariableToContext(name, envVariable);
    Arrays.AppendUniqueIdempotent(old(c.contexts[name].envVariables), envVariable);
    Arrays.AppendUniqueOccursOnce(old(c.contexts[name].envVariables), envVariable);
    var ctx := c.GetContext(name);
    vars := ctx.value.envVariables;
  }

  /** Adding the same variable twice to a project leaves it there exactly once. */
  method ProjectAddTwice(c: Utils.ProjectCache, slug: string, envVariable: string) returns (vars: seq<string>)
    requires c.Valid() && slug in c.projects
    requires Arrays.NoDuplicates(c.projects[slug].envVariables)
    modifies c
    ensures c.Valid()
    ensures vars == Arrays.AppendUnique(old(c.projects[slug].envVariables), envVariable)
    ensures multiset(vars)[envVariable] == 1
  {
    c.AddEnvVariableToProject(slug, envVariable);
    c.AddEnvVariableToProject(slug, envVariable);
    Arrays.AppendUniqueIdempotent(old(c.projects[slug].envVariables), envVariable);
    Arrays.AppendUniqueOccursOnce(old(c.projects[slug].envVariables), envVariable);
    var project := c.GetProject(slug);
    vars := project.value.envVariables;
  }

  /** A fresh cache: checking an image, then reading the record back. */
  method DockerCheckThenGet(name: string, imageExists: bool) returns (image: Option<CachedDockerImage>)
    ensures image == Some(CachedDockerImage(true, imageExists))
  {
    var cache := new Utils.Cache();
    var _ := cache.dockerCache.Add(name, imageExists);
    image := cache.dockerCache.Get(name);
  }

  /** Clearing host data deletes an existing orb file and empties the orb store; a missing file is no obstacle. */
  method ClearHostDataDeletesOrbFile(orb: OrbInfo, orbId: string, other: string) returns (stillThere: bool, hasOrb: bool, hasOther: bool)
    requires other != orbId
    ensures !stillThere && !hasOrb && !hasOther
  {
    var cache := new Utils.Cache();
    var _ := cache.orbCache.SetOrb(orb, orbId);
    var missing := OrbInfo(RemoteOrbInfo(orb.remoteInfo.filePath + ".gone", ""), orb.parsedAttributes);
    var _ := cache.orbCache.SetOrb(missing, other);
    var fs := new OS.FileSystem({orb.remoteInfo.filePath});
    assert cache.orbCache.orbs[orbId] == orb;
    assert orb.remoteInfo.filePath in Utils.OrbFilePaths(cache.orbCache.orbs, cache.orbCache.orbs.Keys);
    cache.ClearHostData(fs);
    stillThere := fs.Stat(orb.remoteInfo.filePath);
    hasOrb := cache.orbCache.HasOrb(orbId);
    hasOther := cache.orbCache.HasOrb(other);
  }
}
