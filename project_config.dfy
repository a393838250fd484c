/**
 * The project configuration: records with declared defaults, a lazily
 * loaded configuration cached for the life of the process, and the helpers
 * that derive run-name templates, pipeline tags and snapshot names from it.
 *
 * A Python `Optional[str]` argument is an `Option<string>`; the source tests
 * it for truthiness, which holds for a present, non-empty string.
 */
module ProjectConfiguration {
  import opened Wrappers

  datatype ModelConfig = ModelConfig(name: string, description: string, tags: seq<string>)
  datatype PipelineConfig = PipelineConfig(name: string, runNamePrefix: string, tags: seq<string>)
  datatype SnapshotConfig = SnapshotConfig(prefix: string)
  datatype EnvironmentConfig = EnvironmentConfig(tags: seq<string>)
  datatype EnvironmentsConfig = EnvironmentsConfig(local: EnvironmentConfig, staging: EnvironmentConfig,
                                                   production: EnvironmentConfig)
  datatype ProjectInfo = ProjectInfo(name: string, description: string)
  datatype ProjectConfig = ProjectConfig(project: ProjectInfo, model: ModelConfig, pipeline: PipelineConfig,
                                         snapshot: SnapshotConfig, environments: EnvironmentsConfig)

  const DefaultProjectInfo := ProjectInfo("my-project", "My ML project")
  const DefaultModelConfig := ModelConfig("MyModel", "My ML model", [])
  const DefaultPipelineConfig := PipelineConfig("my_pipeline", "run", [])
  const DefaultSnapshotConfig := SnapshotConfig("snapshot")
  const DefaultEnvironmentsConfig := EnvironmentsConfig(EnvironmentConfig(["local", "development"]),
                                                        EnvironmentConfig(["staging", "pre-release"]),
                                                        EnvironmentConfig(["production", "release"]))
  const DefaultProjectConfig := ProjectConfig(DefaultProjectInfo, DefaultModelConfig, DefaultPipelineConfig,
                                              DefaultSnapshotConfig, DefaultEnvironmentsConfig)

  /** The top-level sections a configuration file gives; a missing one takes its default. */
  datatype RawConfig = RawConfig(project: Option<ProjectInfo>, model: Option<ModelConfig>,
                                 pipeline: Option<PipelineConfig>, snapshot: Option<SnapshotConfig>,
                                 environments: Option<EnvironmentsConfig>)

  const EmptyRawConfig := RawConfig(None, None, None, None, None)

  /** The loader. `onDisk` is the configuration file as found (`None`: no
      file); an empty file reads as `EmptyRawConfig`. */
  function LoadProjectConfig(onDisk: Option<RawConfig>): (config: ProjectConfig)
    ensures onDisk.None? || onDisk == Some(EmptyRawConfig) ==> config == DefaultProjectConfig
    ensures onDisk.Some? && onDisk.value.project.Some? ==> config.project == onDisk.value.project.value
    ensures onDisk.Some? && onDisk.value.model.Some? ==> config.model == onDisk.value.model.value
    ensures onDisk.Some? && onDisk.value.pipeline.Some? ==> config.pipeline == onDisk.value.pipeline.value
    ensures onDisk.Some? && onDisk.value.snapshot.Some? ==> config.snapshot == onDisk.value.snapshot.value
    ensures onDisk.Some? && onDisk.value.environments.Some? ==> config.environments == onDisk.value.environments.value
    ensures onDisk.Some? && onDisk.value.project.None? ==> config.project == DefaultProjectInfo
    ensures onDisk.Some? && onDisk.value.model.None? ==> config.model == DefaultModelConfig
    ensures onDisk.Some? && onDisk.value.pipeline.None? ==> config.pipeline == DefaultPipelineConfig
    ensures onDisk.Some? && onDisk.value.snapshot.None? ==> config.snapshot == DefaultSnapshotConfig
    ensures onDisk.Some? && onDisk.value.environments.None? ==> config.environments == DefaultEnvironmentsConfig
  {
    match onDisk
    case None => DefaultProjectConfig
    case Some(raw) =>
      ProjectConfig(raw.project.GetOr(DefaultProjectInfo), raw.model.GetOr(DefaultModelConfig),
                    raw.pipeline.GetOr(DefaultPipelineConfig), raw.snapshot.GetOr(DefaultSnapshotConfig),
                    raw.environments.GetOr(DefaultEnvironmentsConfig))
  }

  /** A Python string argument that is neither `None` nor empty. */
  predicate Truthy(s: Option<string>)
  {
    s.Some? && s.value != ""
  }

  /** `getattr(environments, name, None)` for the three environment fields. */
  function EnvironmentByName(environments: EnvironmentsConfig, name: string): (r: Option<EnvironmentConfig>)
    ensures r.Some? <==> name == "local" || name == "staging" || name == "production"
    ensures name == "local" ==> r == Some(environments.local)
    ensures name == "staging" ==> r == Some(environments.staging)
    ensures name == "production" ==> r == Some(environments.production)
  {
    if name == "local" then Some(environments.local)
    else if name == "staging" then Some(environments.staging)
    else if name == "production" then Some(environments.production)
    else None
  }

  const DateTimePlaceholders := "_{date}_{time}"

  /** The run-name template: the prefix, the environment when given, then
      the literal placeholders `{date}` and `{time}`. */
  function RunNameTemplate(prefix: string, environment: Option<string>): (template: string)
    ensures |template| == |prefix| + (if Truthy(environment) then |environment.value| + 1 else 0) + 14
    ensures template[..|prefix|] == prefix
    ensures template[|template| - 14..] == "_{date}_{time}"
    ensures Truthy(environment) ==>
              template[|prefix|] == '_' && template[|prefix| + 1..|prefix| + 1 + |environment.value|] == environment.value
  {
    if Truthy(environment) then prefix + "_" + environment.value + DateTimePlaceholders
    else prefix + DateTimePlaceholders
  }

  /** The base pipeline tags, then the tags of the named environment when it is one of the three. */
  function PipelineTags(config: ProjectConfig, environment: Option<string>): (tags: seq<string>)
    ensures (!Truthy(environment) || EnvironmentByName(config.environments, environment.value).None?)
            ==> tags == config.pipeline.tags
    ensures environment == Some("local") ==> tags == config.pipeline.tags + config.environments.local.tags
    ensures environment == Some("staging") ==> tags == config.pipeline.tags + config.environments.staging.tags
    ensures environment == Some("production") ==> tags == config.pipeline.tags + config.environments.production.tags
  {
    if Truthy(environment) && EnvironmentByName(config.environments, environment.value).Some? then
      config.pipeline.tags + EnvironmentByName(config.environments, environment.value).value.tags
    else
      config.pipeline.tags
  }

  function UpperChar(c: char): char
  {
    if 'a' <= c <= 'z' then (c as int - 32) as char else c
  }

  /** `str.upper` on ASCII letters. */
  function Upper(s: string): (u: string)
    ensures |u| == |s|
    ensures forall i :: 0 <= i < |s| ==> u[i] == UpperChar(s[i])
  {
    if s == [] then [] else [UpperChar(s[0])] + Upper(s[1..])
  }

  const EnvironmentPrefixes: map<string, string> := map["local" := "LOCAL", "staging" := "STG", "production" := "PROD"]

  /** The short environment name used in snapshot names. */
  function EnvironmentPrefix(environment: string): (p: string)
    ensures environment == "local" ==> p == "LOCAL"
    ensures environment == "staging" ==> p == "STG"
    ensures environment == "production" ==> p == "PROD"
    ensures (environment != "local" && environment != "staging" && environment != "production")
            ==> p == Upper(environment)
  {
    if environment in EnvironmentPrefixes then EnvironmentPrefixes[environment] else Upper(environment)
  }

  /** The first seven characters of a SHA, or all of a shorter one. */
  function ShortSha(sha: string): (short: string)
    ensures |short| == if |sha| > 7 then 7 else |sha|
    ensures short <= sha
  {
    if |sha| > 7 then sha[..7] else sha
  }

  /** The snapshot name: environment prefix and snapshot prefix, then the short SHA when one is given. */
  function SnapshotName(config: ProjectConfig, environment: string, gitSha: Option<string>): (name: string)
    ensures var base := EnvironmentPrefix(environment) + "_" + config.snapshot.prefix;
      && |name| >= |base| && name[..|base|] == base
      && (!Truthy(gitSha) ==> name == base)
      && (Truthy(gitSha) ==>
            && |name| == |base| + 1 + (if |gitSha.value| > 7 then 7 else |gitSha.value|)
            && name[|base|] == '_'
            && name[|base| + 1..] <= gitSha.value)
  {
    var base := EnvironmentPrefix(environment) + "_" + config.snapshot.prefix;
    if Truthy(gitSha) then base + "_" + ShortSha(gitSha.value) else base
  }

  /** The process-wide configuration cache. `loads` counts the loader's calls. */
  class ConfigStore {
    var cache: Option<ProjectConfig>
    ghost var loads: nat

    ghost predicate Valid()
      reads this
    {
      loads == if cache.None? then 0 else 1
    }

    constructor ()
      ensures Valid() && cache == None && loads == 0
    {
      cache := None;
      loads := 0;
    }

    /** Loads the configuration on the first call and returns the cached one afterwards,
        whatever the file then holds. */
    method GetConfig(onDisk: Option<RawConfig>) returns (config: ProjectConfig)
      requires Valid()
      modifies this
      ensures Valid() && loads <= 1
      ensures cache == Some(config)
      ensures old(cache).Some? ==> config == old(cache).value && loads == old(loads)
      ensures old(cache).None? ==> config == LoadProjectConfig(onDisk) && loads == old(loads) + 1
    {
      if cache.None? {
        cache := Some(LoadProjectConfig(onDisk));
        loads := loads + 1;
      }
      config := cache.value;
    }

    method GetRunNameTemplate(onDisk: Option<RawConfig>, environment: Option<string>) returns (template: string)
      requires Valid()
      modifies this
      ensures Valid() && cache.Some? && (old(cache).Some? ==> cache == old(cache))
      ensures old(cache).None? ==> cache == Some(LoadProjectConfig(onDisk))
      ensures template == RunNameTemplate(cache.value.pipeline.runNamePrefix, environment)
    {
      var config := GetConfig(onDisk);
      template := RunNameTemplate(config.pipeline.runNamePrefix, environment);
    }

    /** Copies the base tags and extends the copy; the cached configuration is left as it was. */
    method GetPipelineTags(onDisk: Option<RawConfig>, environment: Option<string>) returns (tags: seq<string>)
      requires Valid()
      modifies this
      ensures Valid() && cache.Some? && (old(cache).Some? ==> cache == old(cache))
      ensures old(cache).None? ==> cache == Some(LoadProjectConfig(onDisk))
      ensures tags == PipelineTags(cache.value, environment)
    {
      var config := GetConfig(onDisk);
      tags := config.pipeline.tags;
      if Truthy(environment) {
        var environmentConfig := EnvironmentByName(config.environments, environment.value);
        if environmentConfig.Some? {
          tags := tags + environmentConfig.value.tags;
        }
      }
    }

    method GetSnapshotName(onDisk: Option<RawConfig>, environment: string, gitSha: Option<string>)
      returns (name: string)
      requires Valid()
      modifies this
      ensures Valid() && cache.Some? && (old(cache).Some? ==> cache == old(cache))
      ensures old(cache).None? ==> cache == Some(LoadProjectConfig(onDisk))
      ensures name == SnapshotName(cache.value, environment, gitSha)
    {
      var config := GetConfig(onDisk);
      name := SnapshotName(config, environment, gitSha);
    }
  }

  // ----- Properties -----

  /** Two calls load once and return the same configuration, even when the file changed in between. */
  method CachedConfigIsStable(store: ConfigStore, first: Option<RawConfig>, second: Option<RawConfig>)
    returns (a: ProjectConfig, b: ProjectConfig)
    requires store.Valid()
    modifies store
    ensures a == b && store.loads <= 1
    ensures old(store.cache).None? ==> a == LoadProjectConfig(first)
  {
    a := store.GetConfig(first);
    b := store.GetConfig(second);
  }

  /** The template names its environment: two environments give the same
      template only if they are equal, and no environment gives a template
      different from every environment's. */
  lemma RunNameTemplateInjective(prefix: string, e1: Option<string>, e2: Option<string>)
    requires Truthy(e1) && Truthy(e2)
    ensures RunNameTemplate(prefix, e1) == RunNameTemplate(prefix, e2) ==> e1 == e2
    ensures RunNameTemplate(prefix, e1) != RunNameTemplate(prefix, None)
    ensures RunNameTemplate(prefix, Some("")) == RunNameTemplate(prefix, None)
  {
    var t1, t2 := RunNameTemplate(prefix, e1), RunNameTemplate(prefix, e2);
    if t1 == t2 {
      assert |e1.value| == |e2.value|;
      assert e1.value == t1[|prefix| + 1..|prefix| + 1 + |e1.value|];
    }
  }

  /** With the default configuration the environment tags are the declared ones. */
  lemma DefaultEnvironmentTags()
    ensures PipelineTags(DefaultProjectConfig, Some("local")) == ["local", "development"]
    ensures PipelineTags(DefaultProjectConfig, Some("staging")) == ["staging", "pre-release"]
    ensures PipelineTags(DefaultProjectConfig, Some("production")) == ["production", "release"]
    ensures PipelineTags(DefaultProjectConfig, None) == []
  {
  }

  /** Unknown, missing and empty environments add no tags. */
  lemma UnknownEnvironmentAddsNoTags(config: ProjectConfig, environment: Option<string>)
    requires environment.Some? ==> environment.value != "local" && environment.value != "staging"
                                    && environment.value != "production"
    ensures PipelineTags(config, environment) == config.pipeline.tags
  {
  }

  /** A custom environment name keeps its length and loses its lower-case letters. */
  lemma CustomPrefixIsUpperCase(environment: string)
    requires environment != "local" && environment != "staging" && environment != "production"
    ensures var p := EnvironmentPrefix(environment);
      && |p| == |environment|
      && (forall i :: 0 <= i < |p| ==> !('a' <= p[i] <= 'z'))
      && (forall i :: 0 <= i < |p| && !('a' <= environment[i] <= 'z') ==> p[i] == environment[i])
  {
  }

  /** Snapshot names only see the first seven characters of the SHA. */
  lemma ShortShaCollision(config: ProjectConfig, environment: string, sha1: string, sha2: string)
    requires |sha1| >= 7 && |sha2| >= 7 && sha1[..7] == sha2[..7]
    ensures SnapshotName(config, environment, Some(sha1)) == SnapshotName(config, environment, Some(sha2))
  {
  }
}
