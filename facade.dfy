/**
 * The image-metadata API facade: listing stored records grouped by source,
 * bulk saving with one result per record, folding the per-record results into
 * one error, converting published records, and refreshing the store from the
 * environment's published data sources.
 *
 * Everything outside the facade is an input: the store is a `Store` object
 * whose answers come from oracles fixed at construction, and the calls into
 * other packages (opening the environ, fetching a data source, translating a
 * version into a series) are the functions of a `World`.
 */
module Facade {
  import opened Wrappers
  import opened GoStrings
  import opened StringSort
  import opened Records

  /** params.Error as common.ServerError builds it from a Go error (its code is not modelled). */
  datatype ApiError = ApiError(message: string)

  /** params.ErrorResult: the outcome of one record of a bulk call. */
  datatype ErrorResult = ErrorResult(error: Option<ApiError>)

  /** common.ServerError: nil stays nil, an error keeps its message. */
  function ServerError(err: Option<string>): Option<ApiError>
  {
    match err
    case None => None
    case Some(msg) => Some(ApiError(msg))
  }

  /** errors.Annotatef: the message of an error annotated with a context. */
  function Annotate(context: string, cause: string): string
  {
    context + ": " + cause
  }

  /** common.ErrPerm. */
  const ErrPerm: string := "permission denied"

  /** The refresh's error when the environ cannot report its region. */
  const NoCloudSpec: string := "environment cloud specification cannot be determined"

  /** The head of the combined error of a bulk save. */
  const SavePrefix: string := "saving some image metadata:\n"

  /** params.ImageMetadataFilter: what a caller asks to list. */
  datatype ImageMetadataFilter = ImageMetadataFilter(
    region: string, series: seq<string>, arches: seq<string>,
    stream: string, virtType: string, rootStorageType: string)

  /** cloudimagemetadata.MetadataFilter: what the store is asked for. */
  datatype MetadataFilter = MetadataFilter(
    region: string, series: seq<string>, arches: seq<string>,
    stream: string, virtType: string, rootStorageType: string)

  /** The store's filter built from the caller's, field by field. */
  function StoreFilter(f: ImageMetadataFilter): MetadataFilter
  {
    MetadataFilter(f.region, f.series, f.arches, f.stream, f.virtType, f.rootStorageType)
  }

  /** common.Authorizer, reduced to the two questions the facade asks. */
  datatype Authorizer = Authorizer(authClient: bool, authEnvironManager: bool)

  /** config.Config of the environment; its contents matter only to the environ oracle. */
  datatype EnvironConfig = EnvironConfig(attrs: map<string, string>)

  /** simplestreams.CloudSpec. */
  datatype CloudSpec = CloudSpec(region: string, endpoint: string)

  /** simplestreams.DataSource, known by its description and where it reads from. */
  datatype DataSource = DataSource(description: string, baseURL: string)

  /** envmetadata.ImageConstraint as the refresh builds it: empty lookup parameters scoped to one cloud spec. */
  datatype ImageConstraint = ImageConstraint(cloudSpec: CloudSpec)

  /**
   * What the refresh asks of an environ: its image data sources
   * (environs.ImageMetadataSources) and, when it implements
   * simplestreams.HasRegion, the answer of Region(); `None` when it does not.
   */
  datatype Environ = Environ(
    imageSources: Result<seq<DataSource>, string>,
    region: Option<Result<CloudSpec, string>>)

  /** What envmetadata.Fetch returns for one data source. */
  datatype Fetched = Fetched(metadata: seq<ImageMetadata>, info: ResolveInfo)

  /** The calls into other packages: environs.New, envmetadata.Fetch, series.VersionSeries. */
  datatype World = World(
    newEnviron: EnvironConfig -> Result<Environ, string>,
    fetch: (DataSource, ImageConstraint) -> Result<Fetched, string>,
    versionSeries: string -> Result<string, string>)

  /**
   * The state the facade talks to (metadataAcess). Every record handed to
   * SaveMetadata is appended to `saved`; whether that call fails is decided by
   * `saveError`, which may look at every earlier call.
   */
  class Store {
    /** What EnvironConfig() returns: the configuration and an error beside it. */
    const environConfig: EnvironConfig
    const environConfigErr: Option<string>
    /** What FindMetadata returns for a filter: records grouped by source, or an error. */
    const findMetadata: MetadataFilter -> Result<map<string, seq<Metadata>>, string>
    /** The error SaveMetadata reports, given the records saved so far and the new one. */
    const saveError: (seq<Metadata>, Metadata) -> Option<string>
    /** Every record handed to SaveMetadata, in call order. */
    var saved: seq<Metadata>

    constructor (
      environConfig: EnvironConfig,
      environConfigErr: Option<string>,
      findMetadata: MetadataFilter -> Result<map<string, seq<Metadata>>, string>,
      saveError: (seq<Metadata>, Metadata) -> Option<string>)
      ensures this.environConfig == environConfig && this.environConfigErr == environConfigErr
      ensures this.findMetadata == findMetadata && this.saveError == saveError
      ensures saved == []
    {
      this.environConfig := environConfig;
      this.environConfigErr := environConfigErr;
      this.findMetadata := findMetadata;
      this.saveError := saveError;
      saved := [];
    }

    /** SaveMetadata: records the call and reports the store's answer. */
    method SaveMetadata(m: Metadata) returns (err: Option<string>)
      modifies this
      ensures saved == old(saved) + [m]
      ensures err == saveError(old(saved), m)
    {
      err := saveError(saved, m);
      saved := saved + [m];
    }
  }

  /** A per-record result that processErrors reports: an error with a non-empty message. */
  predicate Reportable(e: ErrorResult)
  {
    e.error.Some? && e.error.value.message != ""
  }

  /** The messages of the reportable results, in input order. */
  function FailureMessages(errs: seq<ErrorResult>): (msgs: seq<string>)
    ensures |msgs| == 0 <==> forall i :: 0 <= i < |errs| ==> !Reportable(errs[i])
    ensures |msgs| <= |errs|
    decreases |errs|
  {
    if |errs| == 0 then []
    else
      var last := errs[|errs| - 1];
      FailureMessages(errs[..|errs| - 1]) + (if Reportable(last) then [last.error.value.message] else [])
  }

  /** The messages of two batches are the messages of the first followed by those of the second. */
  lemma {:induction false} FailureMessagesAppend(a: seq<ErrorResult>, b: seq<ErrorResult>)
    ensures FailureMessages(a + b) == FailureMessages(a) + FailureMessages(b)
    decreases |b|
  {
    if |b| == 0 {
      assert a + b == a;
    } else {
      var b' := b[..|b| - 1];
      assert (a + b)[..|a + b| - 1] == a + b';
      assert (a + b)[|a + b| - 1] == b[|b| - 1];
      FailureMessagesAppend(a, b');
    }
  }

  /** A message is listed exactly when some result reports it. */
  lemma {:induction false} FailureMessagesMembers(errs: seq<ErrorResult>, m: string)
    ensures m in FailureMessages(errs) <==>
              exists i :: 0 <= i < |errs| && Reportable(errs[i]) && errs[i].error.value.message == m
    decreases |errs|
  {
    if |errs| > 0 {
      var init := errs[..|errs| - 1];
      FailureMessagesMembers(init, m);
      if m in FailureMessages(init) {
        var i :| 0 <= i < |init| && Reportable(init[i]) && init[i].error.value.message == m;
        assert errs[i] == init[i];
      }
      forall i | 0 <= i < |init|
        ensures errs[i] == init[i]
      {
      }
    }
  }

  /**
   * processErrors: nil when no result reports an error; otherwise one error
   * whose message is the prefix followed by every reported message, in input
   * order, one per line.
   */
  method ProcessErrors(errs: seq<ErrorResult>) returns (err: Option<string>)
    ensures err.None? <==> forall i :: 0 <= i < |errs| ==> !Reportable(errs[i])
    ensures err.Some? ==> err.value == SavePrefix + Join(FailureMessages(errs), "\n")
  {
    var msgs: seq<string> := [];
    for i := 0 to |errs|
      invariant msgs == FailureMessages(errs[..i])
    {
      var e := errs[i];
      assert errs[..i + 1][..i] == errs[..i];
      if e.error.Some? && e.error.value.message != "" {
        msgs := msgs + [e.error.value.message];
      }
    }
    assert errs[..|errs|] == errs;
    if |msgs| != 0 {
      err := Some(SavePrefix + Join(msgs, "\n"));
    } else {
      err := None;
    }
  }

  /**
   * When no reported message contains a line break, the combined message
   * gives back exactly the reported messages: its lines after the prefix.
   */
  lemma CombinedErrorLines(errs: seq<ErrorResult>)
    requires exists i :: 0 <= i < |errs| && Reportable(errs[i])
    requires forall i :: 0 <= i < |errs| && Reportable(errs[i]) ==> '\n' !in errs[i].error.value.message
    ensures Split(Join(FailureMessages(errs), "\n"), '\n') == FailureMessages(errs)
  {
    var msgs := FailureMessages(errs);
    forall k | 0 <= k < |msgs|
      ensures '\n' !in msgs[k]
    {
      FailureMessagesMembers(errs, msgs[k]);
    }
    SplitJoin(msgs, '\n');
  }

  /** One published record as a wire record, tagged with the source's name; the series is empty when the version has none. */
  function PublishedParams(source: string, p: ImageMetadata, versionSeries: string -> Result<string, string>): Params
  {
    Params(
      imageId := p.id,
      stream := p.stream,
      region := p.regionName,
      series := match versionSeries(p.version) case Success(s) => s case Failure(_) => "",
      arch := p.arch,
      virtType := p.virtType,
      rootStorageType := p.storage,
      rootStorageSize := None,
      source := source)
  }

  /** Every published record of one fetch as a wire record, in order. */
  function Converted(info: ResolveInfo, published: seq<ImageMetadata>, versionSeries: string -> Result<string, string>): seq<Params>
  {
    seq(|published|, i requires 0 <= i < |published| => PublishedParams(info.source, published[i], versionSeries))
  }

  /**
   * convertToParams: one wire record per published record, in order, each
   * tagged with the source's name. A record whose version has no series is
   * kept, with an empty series.
   */
  method ConvertToParams(info: ResolveInfo, published: seq<ImageMetadata>, versionSeries: string -> Result<string, string>)
    returns (r: seq<Params>)
    ensures r == Converted(info, published, versionSeries)
    ensures |r| == |published|
    ensures forall i :: 0 <= i < |r| ==>
              && r[i].source == info.source
              && r[i].imageId == published[i].id
              && r[i].stream == published[i].stream
              && r[i].region == published[i].regionName
              && r[i].arch == published[i].arch
              && r[i].virtType == published[i].virtType
              && r[i].rootStorageType == published[i].storage
              && r[i].rootStorageSize == None
              && r[i].series == (if versionSeries(published[i].version).Success?
                                 then versionSeries(published[i].version).value else "")
  {
    var metadata := new Params[|published|];
    for i := 0 to |published|
      invariant forall k :: 0 <= k < i ==> metadata[k] == PublishedParams(info.source, published[k], versionSeries)
    {
      var p := published[i];
      metadata[i] := Params(
        imageId := p.id, stream := p.stream, region := p.regionName, series := "",
        arch := p.arch, virtType := p.virtType, rootStorageType := p.storage,
        rootStorageSize := None, source := info.source);
      var s := versionSeries(p.version);
      if s.Failure? {
        continue;
      }
      metadata[i] := metadata[i].(series := s.value);
    }
    r := metadata[..];
  }

  /** Whether a store error counts as a failure once turned into a result. */
  predicate SaveFailed(err: Option<string>)
  {
    err.Some? && err.value != ""
  }

  /**
   * The results a bulk save reports when the store starts from the log
   * `before`: result `i` is the store's answer to the `i`-th record, given
   * every record handed to it before that one.
   */
  function SaveResults(saveError: (seq<Metadata>, Metadata) -> Option<string>, before: seq<Metadata>, ms: seq<Metadata>): seq<ErrorResult>
  {
    seq(|ms|, i requires 0 <= i < |ms| => ErrorResult(ServerError(saveError(before + ms[..i], ms[i]))))
  }

  /** The records the refresh saves for one data source: none when the fetch fails. */
  function Harvested(source: DataSource, cons: ImageConstraint, world: World): seq<Metadata>
  {
    match world.fetch(source, cons)
    case Failure(_) => []
    case Success(f) => FromParamsAll(Converted(f.info, f.metadata, world.versionSeries))
  }

  /** The records of each source, source after source. */
  function Concat(sources: seq<DataSource>, records: DataSource -> seq<Metadata>): seq<Metadata>
    decreases |sources|
  {
    if |sources| == 0 then []
    else Concat(sources[..|sources| - 1], records) + records(sources[|sources| - 1])
  }

  /** Harvested, for one constraint and one world, as a function of the source. */
  function HarvestedBy(cons: ImageConstraint, world: World): DataSource -> seq<Metadata>
  {
    s => Harvested(s, cons, world)
  }

  /** The records the refresh saves for the data sources, source after source. */
  function Harvest(sources: seq<DataSource>, cons: ImageConstraint, world: World): seq<Metadata>
  {
    Concat(sources, HarvestedBy(cons, world))
  }

  /** What one refresh did: its error and the records it saved, given the store's log before and after. */
  ghost predicate RefreshOutcome(store: Store, world: World, before: seq<Metadata>, after: seq<Metadata>, err: Option<string>)
  {
    // The error of EnvironConfig() plays no part: it is overwritten before it is checked.
    var envResult := world.newEnviron(store.environConfig);
    if envResult.Failure? then
      err == Some(Annotate("getting environ", envResult.error)) && after == before
    else if envResult.value.imageSources.Failure? then
      err == Some(Annotate("getting environment image metadata sources", envResult.value.imageSources.error)) && after == before
    else if envResult.value.region.None? then
      err == Some(NoCloudSpec) && after == before
    else if envResult.value.region.value.Failure? then
      err == Some(Annotate("getting provider region information (cloud spec)", envResult.value.region.value.error)) && after == before
    else
      err == None &&
      after == before + Harvest(envResult.value.imageSources.value, ImageConstraint(envResult.value.region.value.value), world)
  }

  /** The API facade over one store. */
  class Api {
    const metadata: Store
    const authorizer: Authorizer

    constructor (st: Store, authorizer: Authorizer)
      ensures metadata == st && this.authorizer == authorizer
    {
      metadata := st;
      this.authorizer := authorizer;
    }

    /**
     * List: the records the store finds, group by group in ascending order
     * of the source name, each group in the store's order; an error from
     * the store gives no records.
     */
    method List(filter: ImageMetadataFilter) returns (result: seq<Params>, err: Option<ApiError>)
      ensures metadata.findMetadata(StoreFilter(filter)).Failure? ==>
                result == [] && err == Some(ApiError(metadata.findMetadata(StoreFilter(filter)).error))
      ensures metadata.findMetadata(StoreFilter(filter)).Success? ==>
                err == None &&
                result == Flatten(SortedKeys(metadata.findMetadata(StoreFilter(filter)).value.Keys),
                                  metadata.findMetadata(StoreFilter(filter)).value)
    {
      var found := metadata.findMetadata(StoreFilter(filter));
      if found.Failure? {
        return [], ServerError(Some(found.error));
      }
      var groups := found.value;

      var sources := CollectKeys(groups);
      SortStrings(sources);
      var sorted := sources[..];
      SortedUnique(sorted, SortedKeys(groups.Keys));

      var all: seq<Params> := [];
      for k := 0 to |sorted|
        invariant all == Flatten(sorted[..k], groups)
      {
        all := AddAll(all, Group(groups, sorted[k]));
        assert sorted[..k + 1][..k] == sorted[..k];
      }
      assert sorted[..|sorted|] == sorted;
      return all, None;
    }

    /**
     * Save: hands every record, defaults filled, to the store, one call per
     * record in input order whatever the earlier calls answered; result `i`
     * is the answer to call `i`. The call itself never fails.
     */
    method Save(ms: seq<Params>) returns (results: seq<ErrorResult>, err: Option<string>)
      modifies metadata
      ensures |results| == |ms|
      ensures metadata.saved == old(metadata.saved) + FromParamsAll(ms)
      ensures forall i :: 0 <= i < |ms| ==>
                results[i] == ErrorResult(ServerError(
                  metadata.saveError(old(metadata.saved) + FromParamsAll(ms)[..i], FromParams(ms[i]))))
      ensures err == None
    {
      var all := new ErrorResult[|ms|];
      ghost var before := metadata.saved;
      for i := 0 to |ms|
        invariant metadata.saved == before + FromParamsAll(ms)[..i]
        invariant forall k :: 0 <= k < i ==>
                    all[k] == ErrorResult(ServerError(metadata.saveError(before + FromParamsAll(ms)[..k], FromParams(ms[k]))))
      {
        var e := metadata.SaveMetadata(FromParams(ms[i]));
        all[i] := ErrorResult(ServerError(e));
        assert FromParamsAll(ms)[..i + 1] == FromParamsAll(ms)[..i] + [FromParams(ms[i])];
      }
      assert FromParamsAll(ms)[..|ms|] == FromParamsAll(ms);
      return all[..], None;
    }

    /**
     * saveAll: saves the converted records of one fetch and reports an
     * error exactly when some save failed with a message.
     */
    method SaveAll(info: ResolveInfo, published: seq<ImageMetadata>, versionSeries: string -> Result<string, string>)
      returns (err: Option<string>)
      modifies metadata
      ensures metadata.saved == old(metadata.saved) + FromParamsAll(Converted(info, published, versionSeries))
      ensures var conv := FromParamsAll(Converted(info, published, versionSeries));
              err.None? <==> forall i :: 0 <= i < |conv| ==>
                               !SaveFailed(metadata.saveError(old(metadata.saved) + conv[..i], conv[i]))
      ensures var conv := FromParamsAll(Converted(info, published, versionSeries));
              err.Some? ==>
                err.value == SavePrefix + Join(FailureMessages(SaveResults(metadata.saveError, old(metadata.saved), conv)), "\n")
    {
      var ps := ConvertToParams(info, published, versionSeries);
      var results, _ := Save(ps);
      // Save never fails, so the annotated error of a failed Save cannot arise.
      err := ProcessErrors(results);
      ghost var conv := FromParamsAll(ps);
      forall i | 0 <= i < |conv|
        ensures results[i] == SaveResults(metadata.saveError, old(metadata.saved), conv)[i]
        ensures Reportable(results[i]) <==> SaveFailed(metadata.saveError(old(metadata.saved) + conv[..i], conv[i]))
      {
        assert conv[i] == FromParams(ps[i]);
      }
      assert results == SaveResults(metadata.saveError, old(metadata.saved), conv);
    }

    /** UpdateFromPublishedImages: the refresh from published data sources. */
    method UpdateFromPublishedImages(world: World) returns (err: Option<string>)
      modifies metadata
      ensures RefreshOutcome(metadata, world, old(metadata.saved), metadata.saved, err)
    {
      err := RetrievePublished(world);
    }

    /**
     * retrievePublished: opens the environ, asks for its data sources and
     * its region (a hard stop when it cannot report one), then fetches and
     * saves source by source; a source whose fetch or saves fail is passed
     * over, and the refresh itself then succeeds.
     */
    method RetrievePublished(world: World) returns (err: Option<string>)
      modifies metadata
      ensures RefreshOutcome(metadata, world, old(metadata.saved), metadata.saved, err)
    {
      // The configuration error is overwritten by that of environs.New before anything checks it.
      var envCfg, cfgErr := metadata.environConfig, metadata.environConfigErr;
      var envResult := world.newEnviron(envCfg);
      if envResult.Failure? {
        return Some(Annotate("getting environ", envResult.error));
      }
      var env := envResult.value;

      var listed := env.imageSources;
      if listed.Failure? {
        return Some(Annotate("getting environment image metadata sources", listed.error));
      }
      var sources := listed.value;

      var cons: ImageConstraint;
      if env.region.None? {
        return Some(NoCloudSpec);
      } else {
        var cloud := env.region.value;
        if cloud.Failure? {
          return Some(Annotate("getting provider region information (cloud spec)", cloud.error));
        }
        cons := ImageConstraint(cloud.value);
      }

      err := SaveSources(sources, cons, world);
    }

    /**
     * The loop of retrievePublished: fetches and saves the data sources one by
     * one; a source whose fetch fails is skipped and a failed save is only
     * logged, so every later source is still fetched and saved.
     */
    method SaveSources(sources: seq<DataSource>, cons: ImageConstraint, world: World) returns (err: Option<string>)
      modifies metadata
      ensures metadata.saved == old(metadata.saved) + Harvest(sources, cons, world)
      ensures err == None
    {
      ghost var before := metadata.saved;
      for k := 0 to |sources|
        invariant metadata.saved == before + Harvest(sources[..k], cons, world)
      {
        var source := sources[k];
        HarvestStep(sources, k, cons, world);
        var fetched := world.fetch(source, cons);
        if fetched.Failure? {
          // Other data sources are still looked at.
          continue;
        }
        // A save error is only logged; other data sources are still looked at.
        var saveErr := SaveAll(fetched.value.info, fetched.value.metadata, world.versionSeries);
      }
      assert sources[..|sources|] == sources;
      return None;
    }
  }

  /**
   * createAPI: a facade for a client or an environment manager; anyone else
   * is refused with ErrPerm.
   */
  method CreateApi(st: Store, authorizer: Authorizer) returns (api: Api?, err: Option<string>)
    ensures err.None? <==> authorizer.authClient || authorizer.authEnvironManager
    ensures err.Some? ==> api == null && err == Some(ErrPerm)
    ensures err.None? ==> api != null && fresh(api) && api.metadata == st && api.authorizer == authorizer
  {
    if !authorizer.authClient && !authorizer.authEnvironManager {
      return null, Some(ErrPerm);
    }
    api := new Api(st, authorizer);
    err := None;
  }

  /**
   * The source names of a map in the order the map yields them, which Go
   * leaves unspecified: one entry per key.
   */
  method CollectKeys(groups: map<string, seq<Metadata>>) returns (sources: array<string>)
    ensures fresh(sources)
    ensures multiset(sources[..]) == multiset(groups.Keys)
  {
    sources := new string[|groups.Keys|];
    var remaining := groups.Keys;
    var i := 0;
    while remaining != {}
      invariant remaining <= groups.Keys
      invariant i + |remaining| == sources.Length
      invariant multiset(sources[..i]) + multiset(remaining) == multiset(groups.Keys)
      decreases remaining
    {
      var source :| source in remaining;
      ghost var done := sources[..i];
      sources[i] := source;
      assert sources[..i + 1] == done + [source];
      TakeKey(remaining, source);
      i := i + 1;
      remaining := remaining - {source};
    }
    assert sources[..] == sources[..i];
  }

  /** Taking one key out of a set leaves one occurrence fewer. */
  lemma TakeKey(keys: set<string>, k: string)
    requires k in keys
    ensures multiset(keys) == multiset(keys - {k}) + multiset{k}
  {
    assert keys == (keys - {k}) + {k};
  }

  /** The addAll closure of List: appends each record of a group, as a wire record, in order. */
  method AddAll(all: seq<Params>, ms: seq<Metadata>) returns (r: seq<Params>)
    ensures r == all + ToParamsAll(ms)
  {
    r := all;
    for j := 0 to |ms|
      invariant r == all + ToParamsAll(ms[..j])
    {
      assert ToParamsAll(ms[..j + 1]) == ToParamsAll(ms[..j]) + [ToParams(ms[j])];
      r := r + [ToParams(ms[j])];
    }
    assert ms[..|ms|] == ms;
  }

  /** found[key] in Go: the group of a source, empty for a source the map does not hold. */
  function Group(found: map<string, seq<Metadata>>, key: string): seq<Metadata>
  {
    if key in found then found[key] else []
  }

  /** The groups of the given sources, one after another, each record as a wire record. */
  function Flatten(keys: seq<string>, found: map<string, seq<Metadata>>): seq<Params>
    decreases |keys|
  {
    if |keys| == 0 then []
    else Flatten(keys[..|keys| - 1], found) + ToParamsAll(Group(found, keys[|keys| - 1]))
  }

  /** The number of records in the groups of the given sources. */
  function GroupSizes(keys: seq<string>, found: map<string, seq<Metadata>>): nat
    decreases |keys|
  {
    if |keys| == 0 then 0
    else GroupSizes(keys[..|keys| - 1], found) + |Group(found, keys[|keys| - 1])|
  }

  /** The listing holds as many records as the groups it visits. */
  lemma {:induction false} FlattenLength(keys: seq<string>, found: map<string, seq<Metadata>>)
    ensures |Flatten(keys, found)| == GroupSizes(keys, found)
    decreases |keys|
  {
    if |keys| > 0 {
      FlattenLength(keys[..|keys| - 1], found);
    }
  }

  /**
   * Record `j` of the group of the `k`-th source sits in the listing right
   * after the records of the sources before it, converted to a wire record.
   */
  lemma {:induction false} FlattenAt(keys: seq<string>, found: map<string, seq<Metadata>>, k: nat, j: nat)
    requires k < |keys| && j < |Group(found, keys[k])|
    ensures GroupSizes(keys[..k], found) + j < |Flatten(keys, found)|
    ensures Flatten(keys, found)[GroupSizes(keys[..k], found) + j] == ToParams(Group(found, keys[k])[j])
    decreases |keys|
  {
    var init := keys[..|keys| - 1];
    FlattenLength(init, found);
    if k == |keys| - 1 {
      assert keys[..k] == init;
    } else {
      assert init[..k] == keys[..k] && init[k] == keys[k];
      FlattenAt(init, found, k, j);
    }
  }

  /** The records of a run of sources are those of its first part followed by those of the rest. */
  lemma {:induction false} ConcatAppend(a: seq<DataSource>, b: seq<DataSource>, records: DataSource -> seq<Metadata>)
    ensures Concat(a + b, records) == Concat(a, records) + Concat(b, records)
    decreases |b|
  {
    if |b| == 0 {
      assert a + b == a;
    } else {
      var b' := b[..|b| - 1];
      assert (a + b)[..|a + b| - 1] == a + b';
      assert (a + b)[|a + b| - 1] == b[|b| - 1];
      ConcatAppend(a, b', records);
    }
  }

  /** The refresh's records for a run of sources are those of its first part followed by those of the rest. */
  lemma HarvestAppend(a: seq<DataSource>, b: seq<DataSource>, cons: ImageConstraint, world: World)
    ensures Harvest(a + b, cons, world) == Harvest(a, cons, world) + Harvest(b, cons, world)
  {
    ConcatAppend(a, b, HarvestedBy(cons, world));
  }

  /** One more source adds its own records after those of the sources before it. */
  lemma HarvestStep(sources: seq<DataSource>, k: nat, cons: ImageConstraint, world: World)
    requires k < |sources|
    ensures Harvest(sources[..k + 1], cons, world) == Harvest(sources[..k], cons, world) + Harvested(sources[k], cons, world)
  {
    assert sources[..k + 1][..k] == sources[..k];
  }

  /** The refresh's records for a single source are that source's records. */
  lemma HarvestOne(s: DataSource, cons: ImageConstraint, world: World)
    ensures Harvest([s], cons, world) == Harvested(s, cons, world)
  {
    assert [s][..0] == [];
    assert Concat([s], HarvestedBy(cons, world)) == [] + HarvestedBy(cons, world)(s);
  }

  /** A source whose fetch fails adds nothing and removes nothing that the other sources add. */
  lemma HarvestSkipsFailedSource(a: seq<DataSource>, s: DataSource, b: seq<DataSource>, cons: ImageConstraint, world: World)
    requires world.fetch(s, cons).Failure?
    ensures Harvest(a + [s] + b, cons, world) == Harvest(a + b, cons, world)
  {
    HarvestAppend(a + [s], b, cons, world);
    HarvestAppend(a, [s], cons, world);
    HarvestAppend(a, b, cons, world);
    assert [s][..0] == [];
  }

  /**
   * The records of a fetched source keep their number and order and carry
   * the source's name, its published id, stream, region, architecture,
   * virtualisation and storage type, with the stream and source defaults
   * filled in.
   */
  lemma HarvestedRecords(s: DataSource, cons: ImageConstraint, world: World)
    requires world.fetch(s, cons).Success?
    ensures var f := world.fetch(s, cons).value;
            var h := Harvested(s, cons, world);
            && |h| == |f.metadata|
            && forall i :: 0 <= i < |h| ==>
                 && h[i].attrs.source == (if f.info.source == "" then DefaultSource else f.info.source)
                 && h[i].attrs.stream == (if f.metadata[i].stream == "" then DefaultStream else f.metadata[i].stream)
                 && h[i].imageId == f.metadata[i].id
                 && h[i].attrs.region == f.metadata[i].regionName
                 && h[i].attrs.arch == f.metadata[i].arch
                 && h[i].attrs.virtType == f.metadata[i].virtType
                 && h[i].attrs.rootStorageType == f.metadata[i].storage
                 && h[i].attrs.series == (if world.versionSeries(f.metadata[i].version).Success?
                                          then world.versionSeries(f.metadata[i].version).value else "")
                 && h[i].attrs.rootStorageSize == None
  {
  }

  /** Every record the refresh saves comes from a source whose fetch succeeded. */
  lemma {:induction false} HarvestProvenance(sources: seq<DataSource>, cons: ImageConstraint, world: World, j: nat)
    requires j < |Harvest(sources, cons, world)|
    ensures exists k :: 0 <= k < |sources| && world.fetch(sources[k], cons).Success? &&
                        Harvest(sources, cons, world)[j] in Harvested(sources[k], cons, world)
    decreases |sources|
  {
    var n := |sources| - 1;
    var init := sources[..n];
    var h := Harvest(init, cons, world);
    if j < |h| {
      HarvestProvenance(init, cons, world, j);
      var k :| 0 <= k < |init| && world.fetch(init[k], cons).Success? && h[j] in Harvested(init[k], cons, world);
      assert sources[k] == init[k];
    } else {
      assert Harvest(sources, cons, world)[j] == Harvested(sources[n], cons, world)[j - |h|];
    }
  }
}
