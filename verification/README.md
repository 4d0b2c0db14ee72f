# Verified model of prometheus-podman-exporter

The exporter keeps a few caches about a Podman host (images, container sizes,
disk usage), refreshes them from events and tickers, and turns them into
Prometheus metrics on every scrape. This project models the parts of it that
carry state, loops or arithmetic, and proves what they keep:

* `Streamer.dfy`: the event streamer as a transition system. The supervisor loop
  makes a channel per generation, overwrites one shared options variable field by
  field, starts an engine goroutine and a reader goroutine and waits for a restart.
  Every interleaving of all generations is covered; the engine's `Events` call is
  any goroutine that sends events and read errors on, and closes, only the channel
  it was given.
* `Images.dfy`: flattening, deduplication and publication of the image list.
* `Ports.dfy`: the port printer with 16-bit wrap-around, and a parser that inverts it.
* `Containers.dfy`: the container size cache over any history of refreshes, the
  rows that read it, and the 64-bit network counters.
* `DiskUsage.dfy`: the disk usage summary in 64-bit signed arithmetic and its cache.
* `Labels.dfy`, `LabelSlices.dfy`: which labels a row gets, and the label builders
  on slices with a backing array, a length and a capacity.
* `Metrics.dfy`, `ContainerCollector.dfy`, `ImageCollector.dfy`: one scrape of each
  collector, with the constructor that panics on a wrong number of values, on
  duplicate names and on names that are empty or reserved.
* `ConcurrentScrapes.dfy`: any number of concurrent scrapes of the one memoised
  container collector, whose descriptor fields are shared without a lock.
* `Collect.dfy`: the goroutines, wait group and channel of `Collect`.
* `Registry.dfy`: registration, enabling and memoised construction of collectors.
* `Common.dfy`: truncated identifiers, text splitting and sums over sets.

Goroutines are modelled by a step function and an arbitrary sequence of steps;
a step is one access to shared state. Listings, reports, events, ticks, clocks
and the iteration order of Go maps are parameters or arbitrary choices.

What the proofs bring out about the code as it is:

* A read error reaches the reader as a result with a nil event. With images on the
  reader reads its type and the process dies, although no `Events` call failed
  (`Streamer.ReadErrorRun`); a closed channel leads to a restart exactly when no
  such result is left on it, or images are off (`Streamer.RestartIff`).
* `updateContainerSize` never clears the stored error, so one failed refresh makes
  every later `Containers` call answer without rows and without an error
  (`Containers.ContainerSizeCache.RefreshThenRead`).
* `Containers` copies a map reference under its lock, not a snapshot: a refresh
  that follows shows in the rows (`Containers.ContainerSizeCache.RefreshAfterLock`);
  `Images` hands out a list that no later update writes to.
* A label such as `image-id` is no default name before sanitizing and is one
  after it; its container makes a scrape panic (`Labels.DashedDefaultCollides`). So
  does a kept label that sanitizes to a name with two leading underscores, such as
  `__meta` (`Labels.ReservedLabelRejected`), and a kept empty key, which the empty
  whitelist keeps (`Labels.EmptyKeyRejected`).
* Image identifiers are cut to twelve characters; two different untagged images
  that agree on these publish one series twice (`Images.SharedPrefixCollides`).
* Concurrent scrapes disturb each other unless all containers of different scrapes
  have the same label names in the same order (`ConcurrentScrapes.FaithfulIff`),
  and can panic when the lengths differ (`ConcurrentScrapes.SafeIff`).
* The disk usage total depends on the order of image rows exactly when rows of one
  image disagree (`DiskUsage.OrderIndependentIffConsistent`).
* The port display parses back exactly for addresses without ',' and '-'
  (`Ports.ParseIffPrinted`). The parser needs some such hypothesis: for texts with an
  arrow in the place of the address two lists print alike
  (`Ports.ArrowInAddressIsAmbiguous`). Podman validates host addresses, so this is a
  remark on the printer alone, not on what the exporter receives.

## Model

| member | source | states |
|---|---|---|
| `Streamer.InvNext` | pdcs/events.go:13-69 | every step of the supervisor, of any engine (events and read errors), of any reader and of the store keeps the whole invariant: counts per program point, options, channels, readers, listings, freshness, and how the process ended |
| `Streamer.InvRun` | pdcs/events.go:13-69 | the invariant holds after every run |
| `Streamer.OptionsNeverRace` | pdcs/events.go:27-39 | although the options variable is shared by all generations, an engine that has not called Events sees its own generation's options in it and main cannot write next; what an engine subscribed with is its own channel, streaming, without a filter |
| `Streamer.OnlyOwnEngineUsesChannel` | pdcs/events.go:27-39 | only the engine goroutine of a generation ever sends on or closes the channel of that generation |
| `Streamer.AdvancesOnlyAfterClose` | pdcs/events.go:46-53 | the supervisor leaves a generation only by meeting that generation's reader, after its own engine closed the channel and everything sent was consumed |
| `Streamer.SingleUpdater` | pdcs/events.go:18-67 | at most one reader can ever call updateImages; all others have ended |
| `Streamer.RetiredForever` | pdcs/events.go:46-53 | a reader that saw its channel closed never updates images again |
| `Streamer.PublishedInOrder` | pdcs/image.go:46-60 | listings are stored in the order they were begun and do not overlap, across restarts, so the visible list never goes back to an older store |
| `Streamer.FreshAtSelect` | pdcs/events.go:44-64 | whenever a reader is back at its select, exactly one listing per image event consumed over all generations and one for the start have been stored, and the visible list or error comes from a listing begun after the last image event consumed |
| `Streamer.ConsumeEffect` | pdcs/events.go:46-58 | from every reachable state: consuming an image event with images on begins exactly one listing; any other result, or images off, begins and stores none and leaves the readers and the visible list as they were |
| `Streamer.SendEffect` | pdcs/events.go:27 | the channel holds one event: a send goes through exactly when that place is free, stamped with the store's current version |
| `Streamer.ImagesOff` | pdcs/events.go:18-58 | with images off nothing is ever listed or stored |
| `Streamer.NoEventLost` | pdcs/events.go:27-67 | no event put on a channel is lost when the supervisor moves on; at most one waits |
| `Streamer.DeadIff` | pdcs/events.go:35-62 | the process was ended by log.Fatal exactly when some generation passed an error of its Events call on, and by a nil event exactly when images are on and some reader consumed one |
| `Streamer.FailedEventsKills` | pdcs/events.go:35-62 | from any reachable state a failing Events call ends the process as soon as a waiting reader takes its error, and one that returns without an error does not |
| `Streamer.NilSentIsLast` | pdcs/events.go:46-58 | with images on, a generation on whose channel a nil event was put is the last one |
| `Streamer.ReadErrorKills` | pdcs/events.go:55 | from any reachable state with a waiting reader, a read error followed by a close ends the process with images on, though no Events call failed, and does not with images off |
| `Streamer.ReadErrorRun` | pdcs/events.go:13-58 | a whole run from the start that dies this way in the first generation |
| `Streamer.ClosedChannelRestarts` | pdcs/events.go:44-67 | once the current channel is closed with no nil event left on it (or images off), its reader alone brings the supervisor to the next generation, in a bounded number of steps |
| `Streamer.RestartIff` | pdcs/events.go:44-67 | once the current channel is closed, some continuation reaches the next generation exactly when images are off or no nil event is left on it |
| `Images.RowComesFromReport` | pdcs/image.go:62-90 | every row of the flattened list carries the truncated identifiers and the other fields of one report |
| `Images.RowAt` | pdcs/image.go:62-90 | rows come report by report and tag by tag, each with its report's fields and the name of its own tag, or `<none>` for an untagged report |
| `Images.RepoTagCases` | pdcs/image.go:117-149 | how a tag is taken apart, case by case: the none tag, a parse error, a reference without a name, and a name with or without a tag |
| `Images.ImageReport.constructor` | pdcs/image.go:12-18 | the cache starts without rows and without an error |
| `Images.ImageReport.AppendRows` | pdcs/image.go:62-90 | one row for each tag of a report, or one unnamed row |
| `Images.ImageReport.UpdateImages` | pdcs/image.go:46-93 | an error replaces the list; a success clears the error and publishes the deduplicated rows in a new slice; nothing handed out before is written to |
| `Images.ImageReport.Images` | pdcs/image.go:33-44 | hands out the stored error, or the stored slice itself |
| `Images.ImageReport.ReadThenUpdate` | pdcs/image.go:33-93 | a list handed out reads the same after any later updates, and the last update decides what is visible next |
| `Images.DedupImages` | pdcs/image.go:99-115 | the loop with its set of seen keys computes the deduplicated list |
| `Images.DedupKeepsFirsts` | pdcs/image.go:99-115 | the result is exactly the first row of each key, in input order |
| `Images.DedupKeysDistinct` | pdcs/image.go:99-115 | no key occurs twice in the result |
| `Images.DedupPreservesKeys` | pdcs/image.go:99-115 | rows are dropped, never keys, and no row is invented |
| `Images.DedupIdempotent` | pdcs/image.go:99-115 | deduplicating twice changes nothing |
| `Images.KeyInjective` | pdcs/image.go:104 | the joined key is equal exactly when all five fields are, if the first four hold no separator |
| `Images.KeyText` | pdcs/image.go:104 | the key is the five fields in order, joined by a NUL character |
| `Images.NulInFieldCollides` | pdcs/image.go:104 | a separator in a field makes two different label sets share a key |
| `Images.DistinctSeriesIff` | pdcs/image.go:95-115 | the result is pairwise distinct on identifier, repository and tag exactly when these three determine the other two key fields |
| `Images.PublishedSeriesDistinct` | pdcs/image.go:62-115 | with distinct truncated identifiers no two published rows share a series, and every dropped row equals a kept one in all fields |
| `Images.SharedPrefixCollides` | pdcs/image.go:69 | two untagged images whose identifiers agree on twelve characters are both published with one series |
| `Common.GetID` | pdcs/utils.go:193-201 | the first twelve characters of an identifier that has that many, and all of a shorter one |
| `Common.SameIDIff` | pdcs/utils.go:193-201 | two identifiers are confused exactly when they are equal, or both have twelve characters and agree in the first twelve |
| `Ports.PortsToString` | pdcs/utils.go:161-191 | the nested loops print exactly the normal form, and for addresses without ',' and '-' the text reads back, mapping by mapping and protocol by protocol, as the mapping's own address (or 0.0.0.0), host port, container port, range and protocol |
| `Ports.NormalDescribes` | pdcs/utils.go:168-185 | the normal form in the fields of the mappings: order, number and content of the entries |
| `Ports.OneMappingReadsBack` | pdcs/utils.go:168-185 | one mapping with one protocol reads back as one entry with its own fields |
| `Ports.RangeDisplay` | pdcs/utils.go:175-178 | the text of a range, with both ends modulo 2^16 |
| `Ports.SingleDisplay` | pdcs/utils.go:179-183 | the text of a mapping that is not a range |
| `Ports.LastPort` | pdcs/utils.go:177-178 | the printed end is first plus length minus one modulo 2^16 |
| `Ports.DisplayOfMore` | pdcs/utils.go:176-190 | entries are separated by a comma and a blank, with none at the end |
| `Ports.WriteEntries` | pdcs/utils.go:174-184 | one entry for each comma-separated protocol is appended to the builder |
| `Ports.FormatRange` | pdcs/utils.go:175-178 | the range format, with the two ends computed in 16 bits that may wrap between addition and subtraction |
| `Ports.FormatSingle` | pdcs/utils.go:179-183 | the format without a range, for ranges 0 and 1 alike |
| `Ports.SpanFromEnds` | pdcs/utils.go:177-178 | the length of a range can be recovered from its two printed ends, wrapped or not |
| `Ports.EndFromSpan` | pdcs/utils.go:177-178 | and the last port from the first and the length |
| `Ports.ParseDisplay` | pdcs/utils.go:158-191 | parsing the printed form of clean bindings gives them back |
| `Ports.ParseIffPrinted` | pdcs/utils.go:158-191 | a text parses to a list exactly when it is the printed form of that list and the list is clean |
| `Ports.RoundTrip` | pdcs/utils.go:158-191 | parsing the display of a list of mappings gives its normal form: default address filled in, one binding per protocol, ranges 0 and 1 identified |
| `Ports.PrintedAlikeIffSameNormalForm` | pdcs/utils.go:158-191 | two lists print alike exactly when their normal forms are equal |
| `Ports.ArrowInAddressIsAmbiguous` | pdcs/utils.go:169-183 | with the text of an arrow in an address, two different lists print alike |
| `Containers.ContainerSizeCache.constructor` | pdcs/registry.go:29 | the cache starts with an empty map and no error |
| `Containers.ContainerSizeCache.UpdateContainerSize` | pdcs/container.go:250-276 | a failure stores its error and keeps the map; a success merges the listing, later entries winning, and does not clear the error |
| `Containers.ContainerSizeCache.Containers` | pdcs/container.go:76-144 | an error of the listing is returned; a stored refresh error gives no rows and no error; otherwise one row per container in order, in the fields of its entry, with its cached read-write and root filesystem sizes or zeros; a container without a name is an index out of range |
| `Containers.RowsFields` | pdcs/container.go:98-140 | every field of every row: three truncated identifiers, the first name, times with -1 for negative ones, ports, state, health, labels and both sizes |
| `Containers.ContainerSizeCache.FillRows` | pdcs/container.go:94-143 | the rows read the map as it is when they are filled |
| `Containers.ContainerSizeCache.RefreshAfterLock` | pdcs/container.go:87-110 | a refresh between the lock and the loop shows in the rows, and its failure does not |
| `Containers.ContainerSizeCache.RowFor` | pdcs/container.go:98-140 | one row, with its size looked up by truncated identifier and negative times set to -1 |
| `Containers.ContainerSizeCache.PortsOf` | pdcs/utils.go:82-88 | the printed ports of a container |
| `Containers.ContainerSizeCache.RefreshThenRead` | pdcs/container.go:87-140 | over any history of refreshes: after any failure no rows; without one, each row has the fields of its entry and the read-write and root filesystem sizes of the last entry of the last listing with its truncated identifier, or zeros |
| `Containers.ReplayKeepsLast` | pdcs/container.go:264-275 | the cached size is that of the last sighting |
| `Containers.ReplayIsUnion` | pdcs/container.go:264-275 | the key set of the cache is the union over all listings |
| `Containers.LastSighting` | pdcs/container.go:264-275 | every container ever listed has a last sighting |
| `Containers.ErrorSticks` | pdcs/container.go:258-262 | an error is stored at the end exactly when any refresh of the history failed |
| `Containers.NetworkTotals` | pdcs/container.go:178-199 | each of the eight counters is the sum over all interfaces modulo 2^64, in whatever order the map is iterated |
| `Containers.ContainersStats` | pdcs/container.go:147-223 | the engine's error, the deadline, or one entry for each report in order with truncated identifier and summed counters |
| `Containers.StatFields` | pdcs/container.go:201-219 | every field of a statistics entry, CPU seconds and all eight counters included |
| `DiskUsage.ImageReclaimable` | pdcs/disk_usage.go:85-104 | images size minus the sum over distinct identifiers in use, in 64 bits |
| `DiskUsage.ImagesUsed` | pdcs/disk_usage.go:91-101 | its loop with the set of visited images |
| `DiskUsage.UsedSoFarIsUsedSize` | pdcs/disk_usage.go:91-101 | skipping visited rows computes the sum over the set of identifiers |
| `DiskUsage.SummarizeDiskUsage` | pdcs/disk_usage.go:63-83 | every component is the exact total reduced once to 64 bits, so no intermediate overflow shows |
| `DiskUsage.ContainerTotals` | pdcs/disk_usage.go:69-75 | its first loop: the total of all containers and of those not running |
| `DiskUsage.NothingReported` | pdcs/disk_usage.go:63-83 | the summary of an empty report |
| `DiskUsage.OneMoreContainer` | pdcs/disk_usage.go:69-75 | one more container adds its size, and adds it to what is reclaimable unless its status is running |
| `DiskUsage.AllRunning` | pdcs/disk_usage.go:69-75 | running containers alone leave nothing to reclaim |
| `DiskUsage.NoneRunning` | pdcs/disk_usage.go:69-75 | without a running container the whole size is reclaimable |
| `DiskUsage.OneMoreVolume` | pdcs/disk_usage.go:77-80 | one more volume adds its two sizes |
| `DiskUsage.UsedSizeOfOneMore` | pdcs/disk_usage.go:91-101 | one more image row adds its unique size exactly when containers use it and no row before was of that image |
| `DiskUsage.VolumeTotals` | pdcs/disk_usage.go:77-80 | its second loop: the two totals over volumes |
| `DiskUsage.UsedSizeDependsOnFacts` | pdcs/disk_usage.go:88-101 | when rows of an image agree, the size in use depends only on the set of identifiers and contributions |
| `DiskUsage.UsedSizeOfPermutation` | pdcs/disk_usage.go:88-101 | permuting the rows does not change it |
| `DiskUsage.UsedSizeOfAnotherTag` | pdcs/disk_usage.go:88-101 | another tag row of a known image, anywhere, does not change it |
| `DiskUsage.OrderIndependentIffConsistent` | pdcs/disk_usage.go:85-104 | the reclaimable size is independent of row order exactly when rows of one image agree |
| `DiskUsage.RunningShare` | pdcs/disk_usage.go:69-75 | size minus reclaimable is the running containers' total, modulo 2^64 whatever wraps |
| `DiskUsage.NoStepOverflows` | pdcs/disk_usage.go:63-104 | for sizes that are not negative and whose totals fit, every partial sum of all five accumulators fits |
| `DiskUsage.ImagesExact` | pdcs/disk_usage.go:85-104 | when unique sizes are not negative and their total fits, images reclaimable is exactly the images size minus the size in use |
| `DiskUsage.ContainersExact` | pdcs/disk_usage.go:69-75 | when container sizes are not negative and their total fits, both totals are exact and their difference is the running share |
| `DiskUsage.VolumesExact` | pdcs/disk_usage.go:77-80 | when volume sizes fit and each reclaimable part is at most its size, both totals are exact and reclaimable is at most size |
| `DiskUsage.ExactWhenTotalsFit` | pdcs/disk_usage.go:63-83 | for sizes that are not negative and whose totals fit, every computed component of the summary is exact, the running share is exact, and reclaimable is at most size for containers and volumes |
| `DiskUsage.DiskUsageReport.constructor` | pdcs/disk_usage.go:14-20 | the cache starts with a zero summary and no error |
| `DiskUsage.DiskUsageReport.DiskUsageSummary` | pdcs/disk_usage.go:33-42 | the stored error or the stored summary |
| `DiskUsage.DiskUsageReport.UpdateDiskUsage` | pdcs/disk_usage.go:44-59 | an error beside a zero summary, or the summary of the whole report with the error cleared |
| `DiskUsage.DiskUsageReport.Refreshes` | pdcs/disk_usage.go:33-59 | after any history the reader gets the last refresh and nothing of those before it |
| `Labels.VariableLabels.constructor` | collector/utils.go:30-34 | nothing is stored or whitelisted before registration |
| `Labels.VariableLabels.RegisterVariableLabels` | collector/utils.go:47-53 | the first registration sets the variables and later ones change nothing |
| `Labels.WhitelistIsSplit` | collector/utils.go:50 | whitelisted are exactly the pieces between the commas of the text |
| `Labels.KeptIff` | collector/container.go:476-487 | a key whose lowercase form is a default is never kept; of the others all are when labels are stored, else the whitelisted ones |
| `Labels.SanitizeAt` | collector/utils.go:55-57 | sanitizing keeps letters, digits and the underscore and turns every other character into an underscore |
| `Labels.LegalNameIff` | vendor/github.com/prometheus/client_golang/prometheus/labels.go:186-187 | exactly the empty text and texts with two leading underscores are no label names |
| `Labels.ExtraComesFromKey` | collector/container.go:475-488 | every extra label is the sanitized name and value of a kept key: not a default after lowercasing, and stored or whitelisted |
| `Labels.KeyGivesExtra` | collector/container.go:475-488 | and every kept key gives one |
| `Labels.NamesDistinctIff` | collector/container.go:451-491 | the label names are free of duplicates exactly when sanitizing is injective on kept keys and maps none onto a default name |
| `Labels.NamesAcceptedIff` | collector/container.go:451-491 | the library accepts the label names exactly when moreover no kept key is empty or sanitizes to a reserved name |
| `Labels.DefaultsAccepted` | collector/utils.go:36-41 | the default lists themselves are accepted |
| `Labels.ReservedLabelRejected` | vendor/github.com/prometheus/client_golang/prometheus/labels.go:186-187 | a kept key that starts with two characters that are no letters or digits is rejected, though no names collide |
| `Labels.MetaLabelRejected` | vendor/github.com/prometheus/client_golang/prometheus/labels.go:186-187 | in particular a stored `__meta` |
| `Labels.EmptyKeyRejected` | collector/utils.go:50-61 | the empty whitelist keeps the empty key, and that is rejected |
| `Labels.DashedDefaultCollides` | collector/container.go:476-483 | a stored label that only sanitizing turns into a default name collides |
| `Labels.ExtrasOfOrders` | collector/container.go:475-490 | any two iteration orders give a permutation of the same extra pairs |
| `Labels.OrderDoesNotMatter` | collector/container.go:451-490 | for the whole label set, defaults included: any two iteration orders are both accepted or both rejected, and if accepted give the same value under every name |
| `Labels.NothingKeptNoExtras` | collector/container.go:475-488 | without a kept key there are no extra labels |
| `LabelSlices.Append` | collector/container.go:457-458 | the built-in append: in place exactly when the capacity suffices, else into a new array, all other elements unchanged |
| `LabelSlices.ExtraLabelsAndValues` | collector/container.go:468-491 | the loop over the label map computes the extra names and values of its iteration order |
| `LabelSlices.BuiltAlike` | collector/container.go:451-466 | any two results of the builder for one row are the same map from names to values, so the emitted metric does not depend on the iteration order |
| `LabelSlices.ContainerInfoValues` | collector/container.go:451-458 | under each of the seven default names stands the container's field of that name |
| `LabelSlices.ImageInfoValues` | collector/image.go:98-105 | the same for the five names of an image |
| `LabelSlices.ExtraValue` | collector/container.go:475-488 | under each extra name stands the value of the label whose key was sanitized to it |
| `LabelSlices.DefaultLabels.constructor` | collector/utils.go:36-41 | the default lists start with capacity equal to length |
| `LabelSlices.DefaultLabels.GetContainerDescLabel` | collector/container.go:451-466 | default names and extra names, values in the same order, writing to no array that existed before |
| `LabelSlices.DefaultLabels.GetImageDescLabels` | collector/image.go:98-135 | the same for images |
| `LabelSlices.DefaultLabels.BuildMany` | collector/container.go:451-466 | over any sequence of builder calls the defaults and every list returned before stay as they were |
| `LabelSlices.SpareCapacityWouldClobber` | collector/utils.go:36-41 | with one spare element in a default list, a second append would overwrite the first list returned |
| `Metrics.Emit` | collector/collector.go:154-156 | a metric is sent exactly when the descriptor exists, its names are distinct, not empty and not reserved, and there is one value for each; otherwise the scrape panics |
| `Labels.NamedValue` | collector/collector.go:154-156 | the value under a name is the one at the name's place |
| `ContainerCollector.GetContainerStat` | collector/container.go:493-501 | the first statistics entry with the truncated identifier, or none if there is none |
| `ContainerCollector.Collector.UpdateInfo` | collector/container.go:166-266 | the eight descriptors get the names, and the eight metrics are sent in order, or the scrape panics exactly when the names are not accepted or their number is wrong |
| `ContainerCollector.Collector.UpdateStats` | collector/container.go:268-449 | the fifteen descriptors get the names, and the fifteen metrics are sent if there is a statistics entry, or the scrape panics exactly when it has to send under names that are not accepted or of another number |
| `ContainerCollector.Collector.EmitContainer` | collector/container.go:140-161 | one container's metrics are all sent, or none exactly when its label names are not accepted, in both modes |
| `ContainerCollector.Collector.Update` | collector/container.go:127-164 | an error of either listing comes before any output; the scrape panics exactly at the first container whose label names are not accepted, after all before it; otherwise it sends every metric of every container |
| `ContainerCollector.BuiltRow` | collector/container.go:451-466 | a built row has one value for each name, and accepted names exactly under the condition on its kept keys |
| `ContainerCollector.MetricCount` | collector/container.go:140-161 | nine metrics for each container and fifteen more for each with a statistics entry |
| `ContainerCollector.ValuesAreRight` | collector/container.go:231-265 | every metric of a container has the value of its family, all 24 of them, and none of the statistics is sent without an entry |
| `ContainerCollector.LabelsAreRight` | collector/container.go:231-265 | the labels of every metric in both modes: those of info, or identifier, pod identifier and pod name |
| `ContainerCollector.EveryMetricIdentifiesItsContainer` | collector/container.go:231-265 | every metric sent has accepted names, one value for each, and its container's identifier and pod under their names, in both modes |
| `ContainerCollector.RowRanked` | collector/container.go:157-160 | the metrics of one container are of pairwise different families, in the order of the code |
| `ContainerCollector.Locate` | collector/container.go:140-161 | every metric of the output has its place in one container's block |
| `ContainerCollector.SeriesNeverCollide` | collector/container.go:140-161 | with distinct truncated identifiers no two metrics of one family in a scrape have the same label values, in both modes |
| `ImageCollector.Collector.EmitImage` | collector/image.go:51-93 | one image's three metrics are sent, or none exactly when its label names are not accepted, with the label list carried from row to row |
| `ImageCollector.Collector.Update` | collector/image.go:43-96 | the cached error before any output; a panic exactly at the first image whose label names are not accepted; otherwise three metrics for each image |
| `ImageCollector.MetricAt` | collector/image.go:80-92 | the place of each metric in the output |
| `ImageCollector.MetricFields` | collector/image.go:80-92 | family, value and labels of the three metrics of an image in both modes |
| `ImageCollector.RowsDiffer` | collector/image.go:80-92 | rows of different series differ in the values of every family, in both modes |
| `ImageCollector.SeriesNeverCollide` | collector/image.go:80-92 | in a scrape of a published list no two metrics of one family have the same values, and each has one value for each of its accepted names |
| `ConcurrentScrapes.MeantOfProgram` | collector/container.go:140-161 | the program of a scrape sends what the sequential scrape emits, in its order |
| `ConcurrentScrapes.GoodRun` | collector/container.go:140-161 | when writes to a field have equal lengths and accepted names, no interleaving panics |
| `ConcurrentScrapes.EachSendsItsOwn` | collector/container.go:140-161 | when all scrapes write the same accepted names, each sends exactly its own metrics in its own order |
| `ConcurrentScrapes.SafeIff` | collector/container.go:153-160 | no interleaving of concurrent scrapes panics exactly when all label names are accepted and no two containers of different scrapes have lists of different lengths |
| `ConcurrentScrapes.FaithfulIff` | collector/container.go:153-160 | concurrent scrapes do not disturb each other exactly when all containers of different scrapes have the same names in the same order and all names are accepted |
| `ConcurrentScrapes.OverwritePanics` | collector/container.go:153-157 | for any two containers of different scrapes with lists of different lengths there is an interleaving that panics |
| `ConcurrentScrapes.RejectionPanics` | collector/container.go:153-157 | a container whose names are not accepted makes its scrape panic alone |
| `ConcurrentScrapes.NoExtraLabelsNoInterference` | collector/container.go:222-229 | with only default names no interleaving panics, and a finished scrape sent what it would have sent alone |
| `ConcurrentScrapes.NoKeptLabelsNoInterference` | collector/container.go:366-380 | the same from the settings: rows as the builder makes them when no label is kept |
| `Collect.InvNext` | collector/collector.go:98-147 | every step of main and of any goroutine keeps the invariant of wait group, goroutines and channel |
| `Collect.InvRun` | collector/collector.go:98-147 | it holds after every run |
| `Collect.RunRecords` | collector/collector.go:112-117 | what a goroutine has recorded is what its Update sent and returned in the run |
| `Collect.EachReportsOnce` | collector/collector.go:98-147 | when Collect has returned, the channel got from each collector what its Update sent in the run, then one duration, then one success that is 1 exactly when that Update returned no error, all under its own name, and nothing else |
| `Collect.ReportInOrder` | collector/collector.go:112-147 | place by place: what Update sent, then the duration it took, then success 1 without an error and 0 with one |
| `Collect.NothingAfterReturn` | collector/collector.go:109 | nothing happens after Collect has returned |
| `Collect.NeverStuck` | collector/collector.go:98-110 | no interleaving gets stuck: from wherever it has got to, Collect can still return |
| `Registry.LastSwitchDecides` | collector/collector.go:164-170 | the registered names never change, a name's last switch decides its state, and unknown names are ignored |
| `Registry.EnabledIff` | collector/collector.go:69-72 | enabled are exactly the registered names whose state is true |
| `Registry.CollectorTable.constructor` | collector/collector.go:38-43 | nothing is registered, enabled or made at the start |
| `Registry.CollectorTable.RegisterCollector` | collector/collector.go:158-161 | state and factory are stored under one name, so both maps keep the same keys |
| `Registry.CollectorTable.SetPodmanCollectorState` | collector/collector.go:164-170 | the loop sets exactly the named entry, if it exists |
| `Registry.CollectorTable.NewPodmanCollector` | collector/collector.go:63-88 | it succeeds exactly when no factory that has to be called fails, then returns exactly the enabled collectors; kept instances stay, and instances made before a failure are kept |
| `Registry.CollectorTable.CallFactory` | collector/collector.go:77-83 | a successful factory call adds one instance, kept under its name |
| `Registry.CollectorTable.Perform` | collector/collector.go:63-88 | over any sequence of switches and constructions, no factory succeeds twice for a name, and every successful construction returned the collectors enabled by then, each the one instance of its name |

## Left out

- Podman engine calls, the context and registry setup, command line flags, HTTP serving, logging and the tickers' real time: listings, reports, events and refreshes are inputs.
- The `collect[]` filter of exporter/handler.go, and the pod, volume, network, system and disk usage collectors, which repeat the label pattern or forward fields.
- The tables of states, status and health in pdcs/utils.go and the removal of scientific notation: single branches; states and health are numbers in the model.
- Images.RepoTagDecompose: `reference.Parse` is a parameter, an arbitrary function from a text to an optional name and tag; the branches around it are modelled.
- Labels.Kept: `strings.ToLower` is a parameter, an arbitrary function on texts.
- Metrics.Emit: texts are sequences of Unicode characters, so label values are always valid UTF-8, which the library also checks; the conversion of values to float64 is left out, and CPU seconds are real numbers.
- Common.GetID: cuts a sequence of characters where Go cuts a sequence of bytes; the two agree on identifiers of ASCII characters, such as the hexadecimal ones of Podman, and a cut inside a longer character, which would give a label value that is no text, cannot be expressed.
- Streamer.ClosedChannelRestarts: assumes the channel gets closed; an engine that never closes its channel leaves its reader waiting, as in the code. An engine that sends on or closes its channel after closing it is outside the model.
- Streamer.FreshAtSelect: speaks of events consumed; a change of the store while no subscription is open brings no event and no listing, as in the code.
- Containers.ContainerSizeCache.RefreshAfterLock: one whole refresh between lock and loop; a refresh in the middle of the loop, and the Go memory model's verdict on unsynchronised map access, are left out. Every access to shared state is one atomic step throughout.
- ConcurrentScrapes.SafeIff: a metric is made and sent in one step; the listings of a scrape are fixed before it starts, and the order in which labels were iterated is part of its rows.
- Collect.EachReportsOnce: Update may send anything, fail and take any time, but a panic of it ends the process and is covered by the two collectors' models; that it returns at all is needed for Collect to return.
- LabelSlices.ExtraLabelsAndValues: the lists local to one call are plain sequences; only the shared defaults and the lists built from them are slices with a backing array.
- Images.DedupImages: its growing local slices are plain sequences; the published slice is an array of its own.
- ContainerCollector.Collector.Update: loop bodies and groups of sends are methods of their own, which only shortens the proofs.
