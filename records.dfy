/**
 * The three kinds of image-metadata record the facade moves between: the
 * API's wire record (params.CloudImageMetadata), the stored record
 * (cloudimagemetadata.Metadata: attributes plus an image id), and the record
 * fetched from a published data source (envmetadata.ImageMetadata, with the
 * resolve information of its source).
 */
module Records {
  import opened Wrappers

  /** params.CloudImageMetadata. The root storage size is an optional uint64 that is only ever copied. */
  datatype Params = Params(
    imageId: string,
    stream: string,
    region: string,
    series: string,
    arch: string,
    virtType: string,
    rootStorageType: string,
    rootStorageSize: Option<nat>,
    source: string)

  /** cloudimagemetadata.MetadataAttributes. */
  datatype Attributes = Attributes(
    stream: string,
    region: string,
    series: string,
    arch: string,
    virtType: string,
    rootStorageType: string,
    rootStorageSize: Option<nat>,
    source: string)

  /** cloudimagemetadata.Metadata: the stored record. */
  datatype Metadata = Metadata(attrs: Attributes, imageId: string)

  /** envmetadata.ImageMetadata: one image record as a published data source describes it. */
  datatype ImageMetadata = ImageMetadata(
    id: string,
    storage: string,
    virtType: string,
    arch: string,
    version: string,
    regionName: string,
    endpoint: string,
    stream: string)

  /** simplestreams.ResolveInfo: what a fetch reports about the source it read. */
  datatype ResolveInfo = ResolveInfo(source: string, signed: bool, indexURL: string)

  /** The stream a stored record gets when none is given. */
  const DefaultStream: string := "released"

  /** The source a stored record gets when none is given. */
  const DefaultSource: string := "custom"

  /** parseMetadataToParams: the stored record as a wire record. */
  function ToParams(m: Metadata): Params
  {
    Params(
      imageId := m.imageId,
      stream := m.attrs.stream,
      region := m.attrs.region,
      series := m.attrs.series,
      arch := m.attrs.arch,
      virtType := m.attrs.virtType,
      rootStorageType := m.attrs.rootStorageType,
      rootStorageSize := m.attrs.rootStorageSize,
      source := m.attrs.source)
  }

  /** parseMetadataFromParams: the wire record as a stored record, an empty stream or source replaced by its default. */
  function FromParams(p: Params): Metadata
  {
    var attrs := Attributes(
      stream := p.stream,
      region := p.region,
      series := p.series,
      arch := p.arch,
      virtType := p.virtType,
      rootStorageType := p.rootStorageType,
      rootStorageSize := p.rootStorageSize,
      source := p.source);
    var attrs := if p.stream == "" then attrs.(stream := DefaultStream) else attrs;
    var attrs := if p.source == "" then attrs.(source := DefaultSource) else attrs;
    Metadata(attrs, p.imageId)
  }

  /** Every wire record as a stored record, in order. */
  function FromParamsAll(ps: seq<Params>): seq<Metadata>
  {
    seq(|ps|, i requires 0 <= i < |ps| => FromParams(ps[i]))
  }

  /** Every stored record as a wire record, in order. */
  function ToParamsAll(ms: seq<Metadata>): seq<Params>
  {
    seq(|ms|, i requires 0 <= i < |ms| => ToParams(ms[i]))
  }

  /**
   * Conversion into a stored record fills the stream exactly when it is
   * empty and the source exactly when it is empty, so the stored record
   * never has an empty stream or source; every other field is copied.
   */
  lemma FromParamsFields(p: Params)
    ensures FromParams(p).attrs.stream == (if p.stream == "" then DefaultStream else p.stream)
    ensures FromParams(p).attrs.source == (if p.source == "" then DefaultSource else p.source)
    ensures FromParams(p).attrs.stream != "" && FromParams(p).attrs.source != ""
    ensures FromParams(p).imageId == p.imageId
    ensures FromParams(p).attrs.region == p.region && FromParams(p).attrs.series == p.series
    ensures FromParams(p).attrs.arch == p.arch && FromParams(p).attrs.virtType == p.virtType
    ensures FromParams(p).attrs.rootStorageType == p.rootStorageType
    ensures FromParams(p).attrs.rootStorageSize == p.rootStorageSize
  {
  }

  /** A wire record survives the trip through the store unchanged exactly when its stream and source are both set. */
  lemma ParamsRoundTrip(p: Params)
    ensures ToParams(FromParams(p)) == p <==> p.stream != "" && p.source != ""
  {
  }

  /** A stored record with a stream and a source survives the trip through the wire format unchanged. */
  lemma MetadataRoundTrip(m: Metadata)
    requires m.attrs.stream != "" && m.attrs.source != ""
    ensures FromParams(ToParams(m)) == m
  {
  }

  /** Filling the defaults a second time changes nothing. */
  lemma DefaultsIdempotent(p: Params)
    ensures FromParams(ToParams(FromParams(p))) == FromParams(p)
  {
  }

  /** Two wire records with the same stored form differ at most in an empty-versus-default stream or source. */
  lemma FromParamsMerges(p: Params, q: Params)
    requires FromParams(p) == FromParams(q)
    ensures p.stream == q.stream || {p.stream, q.stream} == {"", DefaultStream}
    ensures p.source == q.source || {p.source, q.source} == {"", DefaultSource}
    ensures p.(stream := "", source := "") == q.(stream := "", source := "")
  {
  }
}
