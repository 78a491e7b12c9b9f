/**
 * The refresh scenarios of the facade's tests, replayed against the model:
 * a provider without regions, a provider with one region, a second data
 * source, and a data source that cannot be read. Also the listing order of
 * two pairs of source names.
 */
module Scenarios {
  import opened Wrappers
  import opened GoStrings
  import opened StringSort
  import opened Records
  import opened Facade

  const DefaultImages: DataSource := DataSource("default cloud images", "test:")
  const SecondDs: DataSource := DataSource("second ds", "file:///second")
  const ErrorDs: DataSource := DataSource("error in ds", "file:///error")

  const DummyRegion: CloudSpec := CloudSpec("dummy_region", "https://anywhere")

  /** The published images of the default data source: two in the dummy region, two in another region. */
  const Trusty: ImageMetadata :=
    ImageMetadata("ami-36745463", "ebs", "pv", "amd64", "14.04", "dummy_region", "https://anywhere", "released")
  const TrustyElsewhere: ImageMetadata :=
    ImageMetadata("ami-1136745463", "ebs", "pv", "amd64", "14.04", "another_dummy_region", "", "released")
  const Precise: ImageMetadata :=
    ImageMetadata("ami-26745463", "ebs", "pv", "amd64", "12.04", "dummy_region", "https://anywhere", "released")
  const PreciseElsewhere: ImageMetadata :=
    ImageMetadata("ami-1126745463", "ebs", "pv", "amd64", "12.04", "another_dummy_region", "", "released")

  const DefaultPublished: seq<ImageMetadata> := [Trusty, TrustyElsewhere, Precise, PreciseElsewhere]

  /** The images published for one cloud: what the fetch keeps once it has scoped the data to a region and endpoint. */
  function InCloud(images: seq<ImageMetadata>, spec: CloudSpec): (r: seq<ImageMetadata>)
    ensures forall i :: 0 <= i < |r| ==> r[i] in images && r[i].regionName == spec.region && r[i].endpoint == spec.endpoint
  {
    if |images| == 0 then []
    else
      var head := if images[0].regionName == spec.region && images[0].endpoint == spec.endpoint then [images[0]] else [];
      head + InCloud(images[1..], spec)
  }

  /** Scoped to the dummy region, the default source shows only its two images there. */
  lemma DefaultInDummyRegion()
    ensures InCloud(DefaultPublished, DummyRegion) == [Trusty, Precise]
  {
    var d := DefaultPublished;
    assert d[1..] == [TrustyElsewhere, Precise, PreciseElsewhere];
    assert d[1..][1..] == [Precise, PreciseElsewhere];
    assert d[1..][1..][1..] == [PreciseElsewhere];
    assert d[1..][1..][1..][1..] == [];
    assert InCloud([PreciseElsewhere], DummyRegion) == [];
    assert InCloud([Precise, PreciseElsewhere], DummyRegion) == [Precise];
    assert InCloud([TrustyElsewhere, Precise, PreciseElsewhere], DummyRegion) == [Precise];
  }

  /** The second source publishes the trusty image for the dummy region only. */
  lemma SecondInDummyRegion()
    ensures InCloud([Trusty], DummyRegion) == [Trusty]
  {
    assert [Trusty][1..] == [];
  }

  /** The stored records the tests expect. */
  const TrustyRecord: Metadata :=
    Metadata(Attributes("released", "dummy_region", "trusty", "amd64", "pv", "ebs", None, "default cloud images"), "ami-36745463")
  const PreciseRecord: Metadata :=
    Metadata(Attributes("released", "dummy_region", "precise", "amd64", "pv", "ebs", None, "default cloud images"), "ami-26745463")

  /** series.VersionSeries for the two releases the published data mentions. */
  function Series(version: string): Result<string, string>
  {
    if version == "14.04" then Success("trusty")
    else if version == "12.04" then Success("precise")
    else Failure("unknown version " + version)
  }

  /**
   * The published data, scoped to the constraint's cloud: the default source
   * holds four images in two regions, the second source the trusty one,
   * anything else fails.
   */
  function PublishedFetch(source: DataSource, cons: ImageConstraint): Result<Fetched, string>
  {
    if source == DefaultImages then
      Success(Fetched(InCloud(DefaultPublished, cons.cloudSpec), ResolveInfo("default cloud images", false, "test:/streams/v1/index.json")))
    else if source == SecondDs then
      Success(Fetched(InCloud([Trusty], cons.cloudSpec), ResolveInfo("second ds", false, "file:///second/streams/v1/index.json")))
    else
      Failure("index file not found")
  }

  function RegionEnviron(sources: seq<DataSource>): EnvironConfig -> Result<Environ, string>
  {
    _ => Success(Environ(Success(sources), Some(Success(DummyRegion))))
  }

  function NoFind(f: MetadataFilter): Result<map<string, seq<Metadata>>, string>
  {
    Success(map[])
  }

  function NeverFails(before: seq<Metadata>, m: Metadata): Option<string>
  {
    None
  }

  function NoRegionEnviron(cfg: EnvironConfig): Result<Environ, string>
  {
    Success(Environ(Success([DefaultImages]), None))
  }

  /** A provider that cannot report a region: the refresh fails and nothing is saved. */
  method ProviderWithNoRegions() returns (err: Option<string>, saved: seq<Metadata>)
    ensures err == Some(NoCloudSpec)
    ensures saved == []
  {
    var st := new Store(EnvironConfig(map[]), None, NoFind, NeverFails);
    var api, _ := CreateApi(st, Authorizer(true, false));
    err := api.UpdateFromPublishedImages(World(NoRegionEnviron, PublishedFetch, Series));
    saved := st.saved;
  }

  /** The converted records of the default data source. */
  lemma DefaultImagesHarvest(world: World)
    requires world.fetch == PublishedFetch && world.versionSeries == Series
    ensures Harvested(DefaultImages, ImageConstraint(DummyRegion), world) == [TrustyRecord, PreciseRecord]
  {
    var info := ResolveInfo("default cloud images", false, "test:/streams/v1/index.json");
    DefaultInDummyRegion();
    var conv := Converted(info, [Trusty, Precise], Series);
    assert FromParams(conv[0]) == TrustyRecord;
    assert FromParams(conv[1]) == PreciseRecord;
  }

  /**
   * A provider with a region: the refresh scopes the fetch to the region the
   * environ reports, so of the default source's four images only the two in
   * that region are saved.
   */
  method ProviderWithRegions() returns (err: Option<string>, saved: seq<Metadata>)
    ensures err == None
    ensures saved == [TrustyRecord, PreciseRecord]
  {
    var st := new Store(EnvironConfig(map[]), None, NoFind, NeverFails);
    var api, _ := CreateApi(st, Authorizer(false, true));
    var world := World(RegionEnviron([DefaultImages]), PublishedFetch, Series);
    err := api.UpdateFromPublishedImages(world);
    saved := st.saved;
    assert world.newEnviron(EnvironConfig(map[])) == Success(Environ(Success([DefaultImages]), Some(Success(DummyRegion))));
    assert [DefaultImages][..0] == [];
    HarvestOne(DefaultImages, ImageConstraint(DummyRegion), world);
    DefaultImagesHarvest(world);
  }

  /** The trusty image as the second data source's record. */
  const SecondDsRecord: Metadata := TrustyRecord.(attrs := TrustyRecord.attrs.(source := "second ds"))

  lemma SecondDsHarvest(world: World)
    requires world.fetch == PublishedFetch && world.versionSeries == Series
    ensures Harvested(SecondDs, ImageConstraint(DummyRegion), world) == [SecondDsRecord]
  {
    var info := ResolveInfo("second ds", false, "file:///second/streams/v1/index.json");
    SecondInDummyRegion();
    var conv := Converted(info, [Trusty], Series);
    assert FromParams(conv[0]) == SecondDsRecord;
  }

  /** A second data source adds its record, tagged with its own name. */
  method MultipleDataSources() returns (err: Option<string>, saved: seq<Metadata>)
    ensures err == None
    ensures saved == [TrustyRecord, PreciseRecord, SecondDsRecord]
  {
    var st := new Store(EnvironConfig(map[]), None, NoFind, NeverFails);
    var api, _ := CreateApi(st, Authorizer(true, true));
    var world := World(RegionEnviron([DefaultImages, SecondDs]), PublishedFetch, Series);
    err := api.UpdateFromPublishedImages(world);
    saved := st.saved;
    var cons := ImageConstraint(DummyRegion);
    HarvestAppend([DefaultImages], [SecondDs], cons, world);
    assert [DefaultImages] + [SecondDs] == [DefaultImages, SecondDs];
    HarvestOne(DefaultImages, cons, world);
    HarvestOne(SecondDs, cons, world);
    DefaultImagesHarvest(world);
    SecondDsHarvest(world);
  }

  /** A data source that cannot be read is passed over; the refresh succeeds. */
  method ErroringDataSource() returns (err: Option<string>, saved: seq<Metadata>)
    ensures err == None
    ensures saved == [TrustyRecord, PreciseRecord]
  {
    var st := new Store(EnvironConfig(map[]), None, NoFind, NeverFails);
    var api, _ := CreateApi(st, Authorizer(true, false));
    var world := World(RegionEnviron([DefaultImages, ErrorDs]), PublishedFetch, Series);
    err := api.UpdateFromPublishedImages(world);
    saved := st.saved;
    var cons := ImageConstraint(DummyRegion);
    HarvestSkipsFailedSource([DefaultImages], ErrorDs, [], cons, world);
    assert [DefaultImages] + [ErrorDs] + [] == [DefaultImages, ErrorDs];
    assert [DefaultImages] + [] == [DefaultImages];
    HarvestOne(DefaultImages, cons, world);
    DefaultImagesHarvest(world);
  }

  /**
   * Three data sources, the middle one unreadable, and saves that fail for
   * every record of the default source: the refresh still succeeds and
   * every record of the first and third sources is handed to the store.
   */
  method MiddleSourceFails() returns (err: Option<string>, saved: seq<Metadata>)
    ensures err == None
    ensures saved == [TrustyRecord, PreciseRecord, SecondDsRecord]
  {
    var st := new Store(EnvironConfig(map[]), None, NoFind, FailDefaultSource);
    var api, _ := CreateApi(st, Authorizer(true, false));
    var world := World(RegionEnviron([DefaultImages, ErrorDs, SecondDs]), PublishedFetch, Series);
    err := api.UpdateFromPublishedImages(world);
    saved := st.saved;
    var cons := ImageConstraint(DummyRegion);
    HarvestSkipsFailedSource([DefaultImages], ErrorDs, [SecondDs], cons, world);
    assert [DefaultImages] + [ErrorDs] + [SecondDs] == [DefaultImages, ErrorDs, SecondDs];
    HarvestAppend([DefaultImages], [SecondDs], cons, world);
    HarvestOne(DefaultImages, cons, world);
    HarvestOne(SecondDs, cons, world);
    DefaultImagesHarvest(world);
    SecondDsHarvest(world);
  }

  function FailDefaultSource(before: seq<Metadata>, m: Metadata): Option<string>
  {
    if m.attrs.source == "default cloud images" then Some("cannot save " + m.imageId) else None
  }

  /** The environment configuration cannot be read, yet the environ opens: the error is not reported. */
  method ConfigErrorIgnored() returns (err: Option<string>, saved: seq<Metadata>)
    ensures err == None
    ensures saved == [TrustyRecord, PreciseRecord]
  {
    var st := new Store(EnvironConfig(map[]), Some("cannot read environment config"), NoFind, NeverFails);
    var api, _ := CreateApi(st, Authorizer(true, false));
    var world := World(RegionEnviron([DefaultImages]), PublishedFetch, Series);
    err := api.UpdateFromPublishedImages(world);
    saved := st.saved;
    assert [DefaultImages][..0] == [];
    HarvestOne(DefaultImages, ImageConstraint(DummyRegion), world);
    DefaultImagesHarvest(world);
  }

  /** With the source names of the tests, the alphabetic order happens to list custom images first. */
  lemma CustomListedFirst()
    ensures SortedKeys({"custom", "default cloud images"}) == ["custom", "default cloud images"]
  {
    var s: seq<string> := ["custom", "default cloud images"];
    assert LessEq(s[0], s[1]);
    assert multiset(s) == multiset({"custom", "default cloud images"});
    SortedUnique(s, SortedKeys({"custom", "default cloud images"}));
  }

  /** A data source named before "custom" in the alphabet is listed before the custom images. */
  lemma PublicMayComeFirst()
    ensures SortedKeys({"custom", "cloud-images"}) == ["cloud-images", "custom"]
  {
    var s: seq<string> := ["cloud-images", "custom"];
    assert LessEq(s[0][1..], s[1][1..]);
    assert LessEq(s[0], s[1]);
    assert multiset(s) == multiset({"custom", "cloud-images"});
    SortedUnique(s, SortedKeys({"custom", "cloud-images"}));
  }

  const CustomRecord: Metadata :=
    Metadata(Attributes("released", "dummy_region", "trusty", "amd64", "hvm", "ebs", None, "custom"), "ami-custom")

  function TwoSources(f: MetadataFilter): Result<map<string, seq<Metadata>>, string>
  {
    Success(map["default cloud images" := [TrustyRecord, PreciseRecord], "custom" := [CustomRecord]])
  }

  function FindFails(f: MetadataFilter): Result<map<string, seq<Metadata>>, string>
  {
    Failure("cannot query image metadata")
  }

  /** Listing two groups: the custom group first, then the default source's two records in store order. */
  method ListTwoSources() returns (result: seq<Params>, err: Option<ApiError>)
    ensures err == None
    ensures result == [ToParams(CustomRecord), ToParams(TrustyRecord), ToParams(PreciseRecord)]
  {
    var st := new Store(EnvironConfig(map[]), None, TwoSources, NeverFails);
    var api, _ := CreateApi(st, Authorizer(true, false));
    var filter := ImageMetadataFilter("dummy_region", [], [], "", "", "");
    result, err := api.List(filter);
    var found := TwoSources(StoreFilter(filter)).value;
    assert found.Keys == {"custom", "default cloud images"};
    TwoSourcesListing(found);
  }

  /** Two groups are listed one after the other. */
  lemma FlattenTwo(a: string, b: string, found: map<string, seq<Metadata>>)
    ensures Flatten([a, b], found) == ToParamsAll(Group(found, a)) + ToParamsAll(Group(found, b))
  {
    var ga, gb := ToParamsAll(Group(found, a)), ToParamsAll(Group(found, b));
    assert [a, b][..1] == [a] && [a][..0] == [];
    assert Flatten([a], found) == Flatten([], found) + ga;
    assert Flatten([a], found) == ga;
    assert Flatten([a, b], found) == Flatten([a], found) + gb;
  }

  /** A group of one record and a group of two, listed in that order. */
  lemma ListedRecords(x: Metadata, y: Metadata, z: Metadata)
    ensures ToParamsAll([x]) + ToParamsAll([y, z]) == [ToParams(x), ToParams(y), ToParams(z)]
  {
    assert ToParamsAll([x]) == [ToParams(x)];
    assert ToParamsAll([y, z]) == [ToParams(y), ToParams(z)];
  }

  lemma TwoSourcesListing(found: map<string, seq<Metadata>>)
    requires found.Keys == {"custom", "default cloud images"}
    requires found["custom"] == [CustomRecord]
    requires found["default cloud images"] == [TrustyRecord, PreciseRecord]
    ensures Flatten(SortedKeys(found.Keys), found) == [ToParams(CustomRecord), ToParams(TrustyRecord), ToParams(PreciseRecord)]
  {
    CustomListedFirst();
    FlattenTwo("custom", "default cloud images", found);
    ListedRecords(CustomRecord, TrustyRecord, PreciseRecord);
  }

  /** A store error leaves the listing empty and is reported. */
  method ListStoreError() returns (result: seq<Params>, err: Option<ApiError>)
    ensures result == []
    ensures err == Some(ApiError("cannot query image metadata"))
  {
    var st := new Store(EnvironConfig(map[]), None, FindFails, NeverFails);
    var api, _ := CreateApi(st, Authorizer(true, false));
    result, err := api.List(ImageMetadataFilter("", [], [], "", "", ""));
  }
}
