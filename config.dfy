/**
 * The settings record (`ConfigInfo`), the metric names derived from it,
 * and `loadConfig`, which reads the settings from a parsed YAML document
 * and applies the defaults.
 */
module Config {
  import opened Wrappers
  import opened Numerics

  /** A value of the parsed YAML mapping, as SnakeYAML's safe constructor builds it. */
  datatype Value =
    | Null                      // an explicit YAML null; also what `get` yields for an absent key
    | Text(s: string)           // a java.lang.String
    | Number(n: int)            // an Integer, or a Long/BigInteger when outside 32 bits
    | Items(xs: seq<string>)    // a list of strings
    | Other(rendering: string)  // any other node (boolean, float, nested mapping), with its toString()

  /** The result of `yaml.load`: a mapping, or anything else (a scalar, a list, an empty file). */
  datatype Document = Mapping(entries: map<string, Value>) | NotMapping

  /** The settings, one field per constructor argument of the source's data class. */
  datatype ConfigInfo = ConfigInfo(
    graphiteServer: string,
    prefix: string,
    teamcityServer: string,
    username: string,
    password: string,
    pollPeriodSecs: int,
    maxBuilds: int,
    excludeProjects: seq<string>)
  {
    function QueueLengthMetricName(): string {
      prefix + ".queuesize"
    }

    function BuildWaitTimeMetricName(buildConfigurationId: string): string {
      prefix + ".build." + buildConfigurationId + ".queuetime"
    }

    function BuildRunTimeMetricName(buildConfigurationId: string): string {
      prefix + ".build." + buildConfigurationId + ".buildtime"
    }
  }

  /** Each metric family names each build configuration apart, and the families never share a name. */
  lemma MetricNamesDistinct(c: ConfigInfo, a: string, b: string)
    ensures c.BuildRunTimeMetricName(a) == c.BuildRunTimeMetricName(b) ==> a == b
    ensures c.BuildWaitTimeMetricName(a) == c.BuildWaitTimeMetricName(b) ==> a == b
    ensures c.BuildRunTimeMetricName(a) != c.BuildWaitTimeMetricName(b)
    ensures c.QueueLengthMetricName() != c.BuildRunTimeMetricName(a)
    ensures c.QueueLengthMetricName() != c.BuildWaitTimeMetricName(a)
  {
    var head := c.prefix + ".build.";
    var run, wait := ".buildtime", ".queuetime";
    assert c.BuildRunTimeMetricName(a) == head + a + run;
    assert c.BuildRunTimeMetricName(b) == head + b + run;
    assert c.BuildWaitTimeMetricName(a) == head + a + wait;
    assert c.BuildWaitTimeMetricName(b) == head + b + wait;
    if c.BuildRunTimeMetricName(a) == c.BuildRunTimeMetricName(b) {
      assert |a| == |b|;
      assert a == (head + a + run)[|head|..|head| + |a|];
      assert b == (head + b + run)[|head|..|head| + |b|];
    }
    if c.BuildWaitTimeMetricName(a) == c.BuildWaitTimeMetricName(b) {
      assert |a| == |b|;
      assert a == (head + a + wait)[|head|..|head| + |a|];
      assert b == (head + b + wait)[|head|..|head| + |b|];
    }
    var r := c.BuildRunTimeMetricName(a);
    var w := c.BuildWaitTimeMetricName(b);
    if |r| == |w| {
      assert r[|r| - 9] == run[1] == 'b';
      assert w[|w| - 9] == wait[1] == 'q';
    }
  }

  lemma MetricNameExample()
    ensures ConfigInfo("g", "ci", "t", "u", "p", 10, 10, []).BuildWaitTimeMetricName("build1")
         == "ci.build.build1.queuetime"
    ensures ConfigInfo("g", "ci", "t", "u", "p", 10, 10, []).BuildRunTimeMetricName("build1")
         == "ci.build.build1.buildtime"
    ensures ConfigInfo("g", "ci", "t", "u", "p", 10, 10, []).QueueLengthMetricName() == "ci.queuesize"
  {
  }

  /** `configData.get(key)`: an absent key reads as null. */
  function Get(entries: map<string, Value>, key: string): Value {
    if key in entries then entries[key] else Null
  }

  /** Java's `AbstractCollection.toString()` body: the elements separated by ", ". */
  function JoinItems(xs: seq<string>): string {
    if xs == [] then ""
    else if |xs| == 1 then xs[0]
    else xs[0] + ", " + JoinItems(xs[1..])
  }

  /** `toString()` on the value `get` returned; Kotlin renders null as "null". */
  function ToText(v: Value): string {
    match v
    case Null => "null"
    case Text(s) => s
    case Number(n) => DecimalString(n)
    case Items(xs) => "[" + JoinItems(xs) + "]"
    case Other(rendering) => rendering
  }

  /** The outcome of a Kotlin `as T?` cast. */
  datatype Cast<+T> = IsNull | Cast(value: T) | Mismatch

  /** `as Int?`: SnakeYAML builds an Integer only for values that fit in 32 bits. */
  function AsInt(v: Value): (c: Cast<int>)
    ensures c.IsNull? <==> v.Null?
    ensures c.Cast? <==> v.Number? && IntMin <= v.n <= IntMax
    ensures c.Cast? ==> c.value == v.n
  {
    match v
    case Null => IsNull
    case Number(n) => if IntMin <= n <= IntMax then Cast(n) else Mismatch
    case _ => Mismatch
  }

  /** `as List<String>?`; the element type is erased and not checked. */
  function AsList(v: Value): (c: Cast<seq<string>>)
    ensures c.IsNull? <==> v.Null?
    ensures c.Cast? <==> v.Items?
    ensures c.Cast? ==> c.value == v.xs
  {
    match v
    case Null => IsNull
    case Items(xs) => Cast(xs)
    case _ => Mismatch
  }

  /** A message `loadConfig` prints. */
  datatype Diagnostic =
    | FileNotFound
    | GraphiteServerMissing
    | TeamcityServerMissing
    | PollPeriodDefaulted
    | MaxBuildsDefaulted(announced: int)  // the message announces 100; the value applied is 10

  datatype LoadResult =
    | Loaded(config: ConfigInfo, diagnostics: seq<Diagnostic>)
    | NoConfig(diagnostics: seq<Diagnostic>)                  // `loadConfig` returned null
    | CastFailed(key: string, diagnostics: seq<Diagnostic>)   // a ClassCastException escaped

  /** The message `d`, printed when `printed` holds. */
  function Note(printed: bool, d: Diagnostic): (notes: seq<Diagnostic>)
    ensures d in notes <==> printed
    ensures |notes| <= 1
  {
    if printed then [d] else []
  }

  /** The messages of the two server checks, in the order they print. */
  function ServerNotes(e: map<string, Value>): seq<Diagnostic> {
    Note(ToText(Get(e, "graphite")) == "", GraphiteServerMissing)
    + Note(ToText(Get(e, "teamcity")) == "", TeamcityServerMissing)
  }

  /** The message printed when `pollsecs` is absent. */
  function PollNote(e: map<string, Value>): seq<Diagnostic> {
    Note(AsInt(Get(e, "pollsecs")).IsNull?, PollPeriodDefaulted)
  }

  /** The message printed when `maxbuilds` is absent. */
  function MaxNote(e: map<string, Value>): seq<Diagnostic> {
    Note(AsInt(Get(e, "maxbuilds")).IsNull?, MaxBuildsDefaulted(AnnouncedMaxBuilds))
  }

  const DefaultPollPeriodSecs: int := 10
  const DefaultMaxBuilds: int := 10
  const AnnouncedMaxBuilds: int := 100

  /**
   * `loadConfig`. The file is `None` when it does not exist; otherwise it is
   * the document SnakeYAML parsed from it.
   */
  method LoadConfig(file: Option<Document>) returns (r: LoadResult)
    ensures file.None? ==> r == NoConfig([FileNotFound])
    ensures file == Some(NotMapping) ==> r == NoConfig([])
    ensures file.Some? && file.value.Mapping? ==>
      var e := file.value.entries;
      var poll, max, exclude := AsInt(Get(e, "pollsecs")), AsInt(Get(e, "maxbuilds")), AsList(Get(e, "exclude"));
      && !r.NoConfig?
      // a failed cast escapes at the first offending key, in the order the keys are read
      && (r.CastFailed? <==> poll.Mismatch? || max.Mismatch? || exclude.Mismatch?)
      && (r.CastFailed? ==> r.key == if poll.Mismatch? then "pollsecs"
                                     else if max.Mismatch? then "maxbuilds" else "exclude")
      // the server checks only print; an empty value still yields a config
      && (GraphiteServerMissing in r.diagnostics <==> ToText(Get(e, "graphite")) == "")
      && (TeamcityServerMissing in r.diagnostics <==> ToText(Get(e, "teamcity")) == "")
      && (r.Loaded? ==>
            && r.config.graphiteServer == ToText(Get(e, "graphite"))
            && r.config.prefix == ToText(Get(e, "prefix"))
            && r.config.teamcityServer == ToText(Get(e, "teamcity"))
            && r.config.username == ToText(Get(e, "username"))
            && r.config.password == ToText(Get(e, "password"))
            && r.config.pollPeriodSecs == (if poll.IsNull? then DefaultPollPeriodSecs else poll.value)
            && r.config.maxBuilds == (if max.IsNull? then DefaultMaxBuilds else max.value)
            && r.config.excludeProjects == (if exclude.IsNull? then [] else exclude.value)
            && (PollPeriodDefaulted in r.diagnostics <==> poll.IsNull?)
            && (MaxBuildsDefaulted(AnnouncedMaxBuilds) in r.diagnostics <==> max.IsNull?))
      // an absent server key is rendered "null", which is not empty, so nothing is reported
      && ("graphite" !in e ==> GraphiteServerMissing !in r.diagnostics)
      && (r.Loaded? && "graphite" !in e ==> r.config.graphiteServer == "null")
    // the messages printed, in order, up to the point where loading stopped
    ensures file.Some? && file.value.Mapping? && r.CastFailed? && r.key == "pollsecs" ==>
      r.diagnostics == ServerNotes(file.value.entries)
    ensures file.Some? && file.value.Mapping? && r.CastFailed? && r.key == "maxbuilds" ==>
      r.diagnostics == ServerNotes(file.value.entries) + PollNote(file.value.entries)
    ensures file.Some? && file.value.Mapping? && (r.Loaded? || (r.CastFailed? && r.key == "exclude")) ==>
      r.diagnostics == ServerNotes(file.value.entries) + PollNote(file.value.entries) + MaxNote(file.value.entries)
  {
    if file.None? {
      return NoConfig([FileNotFound]);
    }
    if file.value.NotMapping? {
      return NoConfig([]);
    }
    var configData := file.value.entries;
    var diagnostics: seq<Diagnostic> := [];

    var graphiteServer := ToText(Get(configData, "graphite"));
    if graphiteServer == "" {
      diagnostics := diagnostics + [GraphiteServerMissing];
    }
    var prefix := ToText(Get(configData, "prefix"));
    var teamcityServer := ToText(Get(configData, "teamcity"));
    if teamcityServer == "" {
      diagnostics := diagnostics + [TeamcityServerMissing];
    }
    assert diagnostics == ServerNotes(configData);
    var username := ToText(Get(configData, "username"));
    var password := ToText(Get(configData, "password"));

    var pollCast := AsInt(Get(configData, "pollsecs"));
    if pollCast.Mismatch? {
      return CastFailed("pollsecs", diagnostics);
    }
    var pollPeriodSecs: int;
    if pollCast.IsNull? {
      diagnostics := diagnostics + [PollPeriodDefaulted];
      pollPeriodSecs := DefaultPollPeriodSecs;
    } else {
      pollPeriodSecs := pollCast.value;
    }
    assert diagnostics == ServerNotes(configData) + PollNote(configData);

    var maxCast := AsInt(Get(configData, "maxbuilds"));
    if maxCast.Mismatch? {
      return CastFailed("maxbuilds", diagnostics);
    }
    var maxBuilds: int;
    if maxCast.IsNull? {
      diagnostics := diagnostics + [MaxBuildsDefaulted(AnnouncedMaxBuilds)];
      maxBuilds := DefaultMaxBuilds;
    } else {
      maxBuilds := maxCast.value;
    }
    assert diagnostics == ServerNotes(configData) + PollNote(configData) + MaxNote(configData);

    var excludeCast := AsList(Get(configData, "exclude"));
    if excludeCast.Mismatch? {
      return CastFailed("exclude", diagnostics);
    }
    var exclusions := if excludeCast.IsNull? then [] else excludeCast.value;

    r := Loaded(ConfigInfo(graphiteServer, prefix, teamcityServer, username, password,
                           pollPeriodSecs, maxBuilds, exclusions), diagnostics);
  }

  /** A file without `pollsecs` and `maxbuilds` loads with both set to 10. */
  method DefaultsExample() {
    var doc := Mapping(map["graphite" := Text("stats.local"), "teamcity" := Text("http://ci.local")]);
    var r := LoadConfig(Some(doc));
    assert AsInt(Get(doc.entries, "pollsecs")) == IsNull;
    assert AsInt(Get(doc.entries, "maxbuilds")) == IsNull;
    assert AsList(Get(doc.entries, "exclude")) == IsNull;
    assert r.Loaded?;
    assert r.config.pollPeriodSecs == 10 && r.config.maxBuilds == 10;
    assert r.config.excludeProjects == [] && r.config.prefix == "null";
  }
}
