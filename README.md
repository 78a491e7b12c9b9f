# Image-metadata facade, modelled in Dafny

This project models the API facade that manages cloud image metadata in a
cloud-environment orchestrator (`apiserver/imagemetadata/metadata.go`). The
facade does five things:

- it converts between the API's wire record (`params.CloudImageMetadata`) and
  the stored record (`cloudimagemetadata.Metadata`), filling in the stream
  `"released"` and the source `"custom"` when they are empty;
- it saves a batch of records one at a time (`Save`), with one result per
  record in input order; a failed record never stops the records after it;
- it folds the per-record results into one combined error (`processErrors`);
- it converts the image records fetched from a published data source into
  wire records (`convertToParams`);
- it refreshes the store from the environment's published data sources
  (`UpdateFromPublishedImages` / `retrievePublished`), and lists stored records
  group by group (`List`).

Files:

- `wrappers.dfy`: `Option` and `Result`.
- `go_strings.dfy`: `strings.Join`, a one-character `strings.Split` used to
  read the combined error back, and Go's string order (`LessEq`) with its
  order laws.
- `string_sort.dfy`: `sort.Strings` as an in-place insertion sort on an
  `array<string>`, proved to sort and to keep the same elements. Sorting is
  proved to have only one answer. `SortedKeys` is the sorted key list of a set.
- `records.dfy`: the three record types and the two conversions.
- `facade.dfy`: the `Store` the facade talks to, the `Api` class with `List`,
  `Save`, `saveAll`, `UpdateFromPublishedImages` and `retrievePublished`, plus
  `createAPI`, `processErrors` and `convertToParams`.
- `scenarios.dfy`: the refresh scenarios of
  `apiserver/imagemetadata/updatefrompublished_test.go`, replayed against the
  model, and some listing examples.

Everything the facade calls outside this file is an input to the model:

- The `Store` object answers `FindMetadata` from a function fixed at
  construction. `SaveMetadata` appends every record it receives to the log
  `saved`. Whether a save fails is decided by a function of the earlier log
  and the new record.
- `environs.New`, `envmetadata.Fetch` and `series.VersionSeries` are the three
  functions of a `World` value. An environ (`Environ`) carries its image data
  sources, and also its `Region()` answer when it implements
  `simplestreams.HasRegion`; when it does not, that field is `None`.

Two places where the code differs from what its surroundings say. The model
follows the code in both:

- **Listing order.** The doc comment of `List` (metadata.go:63) says custom
  images come first, then public ones. The code just sorts the source names
  in ascending order (metadata.go:84-95). `Scenarios.CustomListedFirst` shows
  that "custom" does come before "default cloud images". `Scenarios.PublicMayComeFirst`
  shows that a public source named "cloud-images" is listed before "custom".
- **Ignored configuration error.** In `retrievePublished` (metadata.go:156-157)
  the error of `EnvironConfig()` is overwritten by the error of
  `environs.New` before anything checks it. So only a failure to open the
  environ is reported. `Facade.RefreshOutcome` never looks at the
  configuration error, and `Scenarios.ConfigErrorIgnored` shows a refresh that
  succeeds despite a configuration error.

## Model

| member | source | states |
|---|---|---|
| `Records.FromParamsFields` | apiserver/imagemetadata/metadata.go:126-147 | The stored stream is replaced by "released" when the wire stream is empty, and copied otherwise. The source is likewise replaced by "custom" when empty, and copied otherwise. A stored record therefore never has an empty stream or source. Image id, region, series, arch, virt type, root storage type and size are copied unchanged. |
| `Records.ParamsRoundTrip` | apiserver/imagemetadata/metadata.go:111-147 | A wire record comes back unchanged from store-and-back exactly when its stream and source are both non-empty (both directions). |
| `Records.MetadataRoundTrip` | apiserver/imagemetadata/metadata.go:111-147 | A stored record with a stream and a source comes back unchanged from wire-and-back. |
| `Records.DefaultsIdempotent` | apiserver/imagemetadata/metadata.go:111-147 | Filling the defaults a second time changes nothing. |
| `Records.FromParamsMerges` | apiserver/imagemetadata/metadata.go:126-147 | Two wire records with the same stored form differ at most in an empty stream versus "released" and an empty source versus "custom". |
| `Facade.Store.SaveMetadata` | apiserver/imagemetadata/metadata.go:105 | Each call appends the record to the store's log and returns the store's answer for that log and record. |
| `Facade.CreateApi` | apiserver/imagemetadata/metadata.go:37-50 | A facade is created exactly when the caller is a client or an environment manager. It holds the given store and authorizer. Anyone else gets the permission error and no facade. |
| `Facade.Api.List` | apiserver/imagemetadata/metadata.go:64-98 | A store error gives an empty listing plus that error. Otherwise there is no error, and the listing is every group, each record converted to a wire record, in ascending order of source name with store order kept inside each group. |
| `Facade.CollectKeys` | apiserver/imagemetadata/metadata.go:85-90 | The array holds every source name of the map exactly once, in an order Go leaves open. |
| `Facade.AddAll` | apiserver/imagemetadata/metadata.go:78-82 | Appends every record of a group, converted to a wire record, in order, after what was already listed. |
| `Facade.FlattenLength` | apiserver/imagemetadata/metadata.go:77-95 | The listing holds as many records as the groups it visits, summed. |
| `Facade.FlattenAt` | apiserver/imagemetadata/metadata.go:77-95 | Record j of the k-th group sits in the listing right after all records of the groups before it, as that record's wire form. |
| `StringSort.SortStrings` | apiserver/imagemetadata/metadata.go:91 | `sort.Strings` leaves the array in ascending Go string order and holding the same elements (a permutation). |
| `StringSort.SortedUnique` | apiserver/imagemetadata/metadata.go:84-91 | Two sorted sequences with the same elements are equal. So the listing order does not depend on the map's iteration order. |
| `StringSort.SortedKeys` | apiserver/imagemetadata/metadata.go:84-91 | The sorted key list is in ascending order and holds the same elements as the key set. |
| `StringSort.SortedKeysMembers` | apiserver/imagemetadata/metadata.go:84-95 | The sorted key list holds one entry per key and nothing else. |
| `StringSort.SortedKeysStrict` | apiserver/imagemetadata/metadata.go:84-95 | No source name appears twice in the sorted key list. |
| `Facade.Api.Save` | apiserver/imagemetadata/metadata.go:102-109 | Makes one store call per input, in input order, whatever earlier calls answered. The log grows by exactly the defaulted inputs. There is one result per input, and result i is the store's answer to call i. The second return value is always nil. |
| `Facade.FailureMessages` | apiserver/imagemetadata/metadata.go:235-240 | The collected messages are empty exactly when no result has an error with a non-empty message. There are never more messages than results. |
| `Facade.FailureMessagesAppend` | apiserver/imagemetadata/metadata.go:235-240 | The messages of two batches are those of the first batch followed by those of the second, so input order is kept. |
| `Facade.FailureMessagesMembers` | apiserver/imagemetadata/metadata.go:236-240 | A message is collected exactly when some result carries it as a non-empty error message. |
| `Facade.ProcessErrors` | apiserver/imagemetadata/metadata.go:234-245 | Returns nil exactly when no result has an error with a non-empty message. Otherwise the error is "saving some image metadata:\n" followed by those messages in input order, joined by newlines. |
| `Facade.CombinedErrorLines` | apiserver/imagemetadata/metadata.go:241-242 | When no message contains a newline, splitting the joined part of the combined error at newlines gives back exactly the collected messages. |
| `GoStrings.SplitJoin` | apiserver/imagemetadata/metadata.go:242 | Splitting the output of `strings.Join` at the separator inverts it for pieces that do not contain the separator. |
| `Facade.ConvertToParams` | apiserver/imagemetadata/metadata.go:210-232 | There is one wire record per published record, in order. Each takes the data source's name as its source, and its image id, stream, region, arch, virt type and root storage type from the published id, stream, region name, arch, virt type and storage. Its series is the translated version, or empty when the version cannot be translated (the record is kept, not dropped). |
| `Facade.Api.SaveAll` | apiserver/imagemetadata/metadata.go:198-207 | Saves the converted records of one fetch, in order. It reports an error exactly when one of those saves failed with a non-empty message. That error's text is "saving some image metadata:\n" followed by the failed saves' messages, in order, joined by newlines (`SaveResults` gives the per-record results). |
| `Facade.Api.UpdateFromPublishedImages` | apiserver/imagemetadata/metadata.go:149-153 | Has the same outcome as `retrievePublished`. |
| `Facade.Api.RetrievePublished` | apiserver/imagemetadata/metadata.go:155-196 | If the environ cannot be opened, its sources cannot be listed, it cannot report a region ("environment cloud specification cannot be determined"), or `Region()` fails, it returns the matching error and saves nothing. Otherwise it returns nil, and the log grows by the records harvested from the sources in order. |
| `Facade.Api.SaveSources` | apiserver/imagemetadata/metadata.go:180-195 | Visits every source in order, whatever the earlier fetches and saves did. The log grows by the converted records of each successfully fetched source, source after source. The loop itself never reports an error. |
| `Facade.ConcatAppend` | apiserver/imagemetadata/metadata.go:180-195 | Records collected source by source over two runs of sources are those of the first run followed by those of the second. |
| `Facade.HarvestAppend` | apiserver/imagemetadata/metadata.go:180-195 | The refresh's records for a run of sources are those of its first part followed by those of the rest. |
| `Facade.HarvestStep` | apiserver/imagemetadata/metadata.go:181-194 | One more source adds its own records after those of the sources before it. |
| `Facade.HarvestOne` | apiserver/imagemetadata/metadata.go:181-194 | For a single source, the refresh saves exactly that source's converted records. |
| `Facade.HarvestSkipsFailedSource` | apiserver/imagemetadata/metadata.go:183-188 | A source whose fetch fails adds nothing, and removes nothing that other sources add. |
| `Facade.HarvestedRecords` | apiserver/imagemetadata/metadata.go:183-189 | A fetched source's saved records keep the number and order of the published records. Each carries the source's name (or "custom" if that is empty), the stream (or "released"), and the published id, region, arch, virt type and storage. Its series is the translated version, or empty when the version cannot be translated. Its root storage size is absent. |
| `Facade.HarvestProvenance` | apiserver/imagemetadata/metadata.go:180-195 | Every record the refresh saves comes from a source whose fetch succeeded. |
| `Scenarios.ProviderWithNoRegions` | apiserver/imagemetadata/updatefrompublished_test.go:172-198 | An environ without a region fails the refresh with "environment cloud specification cannot be determined" and saves nothing. |
| `Scenarios.ProviderWithRegions` | apiserver/imagemetadata/updatefrompublished_test.go:276-334 | The default source publishes four images, two in "dummy_region" and two in "another_dummy_region". The fetch is scoped to the region the environ reports, so only the trusty and precise images of "dummy_region" are saved, with series, region and source filled in. |
| `Scenarios.DefaultInDummyRegion` | apiserver/imagemetadata/updatefrompublished_test.go:94-145 | Of the default source's four published images, scoping to "dummy_region" at "https://anywhere" keeps exactly the trusty and precise images of that region. |
| `Scenarios.MultipleDataSources` | apiserver/imagemetadata/updatefrompublished_test.go:421-435 | A second data source adds its trusty record, tagged with its own name. The scenario lists that source after the default source, so its record comes after the default records; the test itself compares contents only, not order. |
| `Scenarios.ErroringDataSource` | apiserver/imagemetadata/updatefrompublished_test.go:437-448 | A data source that cannot be read is skipped, and the refresh succeeds with the default source's records. |
| `Scenarios.MiddleSourceFails` | apiserver/imagemetadata/metadata.go:180-195 | With three sources, the middle one unreadable and every save of the first source failing, the refresh succeeds. The first and third sources' records are still all handed to the store. |
| `Scenarios.ConfigErrorIgnored` | apiserver/imagemetadata/metadata.go:156-160 | A configuration error next to a working environ is not reported, and the refresh proceeds. |
| `Scenarios.CustomListedFirst` | apiserver/imagemetadata/metadata.go:63-91 | "custom" sorts before "default cloud images". |
| `Scenarios.PublicMayComeFirst` | apiserver/imagemetadata/metadata.go:63-91 | "cloud-images" sorts before "custom", so alphabetic order does not always list custom images first. |
| `Scenarios.ListTwoSources` | apiserver/imagemetadata/metadata.go:64-98 | Listing a custom group and a default-source group gives the custom record, then the default source's two records in store order. |
| `Scenarios.ListStoreError` | apiserver/imagemetadata/metadata.go:73-75 | A store error gives an empty listing and reports the store's message. |

## Left out

- The store's identity-key upsert semantics (latest write wins per region, series, arch, virt type, root storage type, source and stream) belong to the state package, which is not part of this model. `SaveMetadata` is a call log plus an error oracle.
- `FindMetadata` is a fixed function of the filter. It does not read the save log, so a listing after a refresh is not tied to what the refresh saved.
- `envmetadata.Fetch` (simplestreams index and product decoding, region and endpoint filtering), `environs.New`, `environs.ImageMetadataSources`, `Region()` and `series.VersionSeries` are inputs, not modelled code.
- `common.ServerError` keeps only the error's message. The error code it derives is not modelled.
- `errors.Annotatef` is modelled as "context: cause". Error tracing, stack information and `errors.Errorf` formatting beyond the message text are not modelled.
- Logging (`logger.Debugf`, `Errorf`, `Warningf`) and facade registration (`init`, `NewAPI` over `state.State`) are left out: they are I/O and wiring.
- The lookup constraint is modelled as only the resolved cloud spec. The refresh builds the rest of it with `envmetadata.NewImageConstraint`, which is not part of this model; that rest is the same for every source and only `Fetch` reads it.
- Source names are compared as sequences of Unicode scalar values. Go compares the bytes of a string, which may be invalid UTF-8; the two orders agree only for valid UTF-8 names, so the listing order is not modelled for names that are not valid UTF-8.
- The root storage size (a Go `*uint64`) is modelled as `Option<nat>`. It is only ever copied, so its 64-bit width plays no part.
- `apiserver/client/instanceconfig.go` and `environs/bootstrap/bootstrap_test.go` are not part of this model: they hold plumbing and test fixtures, not the facade's logic.
