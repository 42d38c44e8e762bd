# pure-exporter metric assembly, in Dafny

pure-exporter is a Prometheus exporter for Pure Storage FlashArray and FlashBlade. On every
scrape it opens a session to one array, reads that array's listings (the array record,
hardware, alerts, volumes, hosts, pods, filesystems, buckets, replica links, usage, clients
and performance), and turns them into metric families: named gauges with label keys and
labelled samples. This project models how those families are assembled and proves what they
contain: which samples appear, with which labels and values, in which order, and which input
makes a scrape raise instead.

The model follows the program's layout:

- `Records` models the values an array returns. A dictionary subscript raises `KeyError`. An
  SDK attribute that is absent reads as `None`. `Result`, `Option`, `Outcome` and `Reply`
  carry errors and upstream exceptions. `Strings` holds the integer rendering and the
  colon split used for labels.
- `Families` models `GaugeMetricFamily` as a class whose `samples` grow through
  `AddMetric`. It also holds one row engine: a prefix, key labels, one column per
  `add_metric` call and a None policy. The hand-written builders are proved to match it.
  Finally it has the generator plumbing. `Joined` chains the families that consecutive
  builders yield, and the first exception ends the scrape.
- `FaSource`, `FaMappings`, `FaArray`, `FaEntities`, `FaHardware`, `FaEvents`, `FaPodStatus`
  and `FaCollector` model the current FlashArray collector. This covers the data source
  with its caches and its merge of subset listings, every metric builder, and `collect`
  with its request plan.
- `FbSource`, `FbMappings`, `FbArray`, `FbEntities` and `FbCollector` do the same for the
  FlashBlade collector.
- `Exporters` models the three HTTP entry points. These are the bearer-token patterns, the
  normalisation of the requested scope, the combined exporter's routing and the middleware
  that copies `apitoken` into the `Authorization` header.
- `LegacyFa`, `LegacyFb` and `PureFb` model the older collectors in `collectors/` and
  `pure_fb_collector.py`. `PureHelper` models the two connection listings of the helper
  service in `contrib/`.

Each builder that fills families with a loop is a method. It is proved equal to a function
over the listing, and lemmas state what that function yields: sample counts, labels and
values per position, success exactly when every read succeeds, and the first failure
deciding the error. The collectors' `collect` methods are proved equal to `Joined` over the
plan. The data-source classes keep their caches consistent with the upstream replies
across calls.

## Model

| member | source | states |
|---|---|---|
| Records.Subscript | flasharray_collector/flasharray_metrics/flasharray.py:69 | a dict subscript yields the stored value when the key is present and raises KeyError naming the key otherwise |
| Records.OrZero | flasharray_collector/flasharray_metrics/array_space_metrics.py:24 | `x if x is not None else 0` is never None and keeps every value that is not None |
| Records.ToFloat | flasharray_collector/flasharray_metrics/array_hardware_metrics.py:86 | `float(...)` succeeds exactly on numbers and keeps them |
| Records.Listing | flasharray_collector/flasharray_metrics/flasharray.py:57-61 | a listing call yields its data exactly when the array answered |
| Records.First | flasharray_collector/flasharray_metrics/flasharray.py:35 | `[0]` on a listing yields its first element when the listing answered and is not empty, and fails otherwise |
| Strings.NatToStringRoundTrip | flashblade_collector/flashblade_metrics/usage_groups_metrics.py:22 | `str` of a non-negative id reads back as the same number |
| Strings.SignOfRendering | flashblade_collector/flashblade_metrics/usage_groups_metrics.py:22 | `str` of an integer starts with a minus sign exactly when it is negative, followed by the rendering of its magnitude |
| Strings.IntToStringInjective | flashblade_collector/flashblade_metrics/usage_groups_metrics.py:22 | two different ids never render to the same label |
| Strings.SplitCount | flashblade_collector/flashblade_metrics/clients_performance_metrics.py:25 | `split(':')` yields one more part than there are colons |
| Strings.SplitWithoutSeparator | flashblade_collector/flashblade_metrics/clients_performance_metrics.py:25 | a name without a colon splits into itself alone |
| Strings.SplitJoin | flashblade_collector/flashblade_metrics/clients_performance_metrics.py:25 | `client:port`, with no colon in either part, splits back into client and port |
| FaMappings.Lookup | flasharray_collector/flasharray_metrics/mappings.py:1-38 | a table lookup finds a dimension exactly when the field is in the table, and that dimension is the one the table pairs with the field |
| FaMappings.ColumnsOf | flasharray_collector/flasharray_metrics/mappings.py:1-38 | a table read as columns gives one column per entry, in table order, labelled by its dimension |
| FaMappings.LatencyTableWellFormed | flasharray_collector/flasharray_metrics/mappings.py:1-13 | the latency table has thirteen entries with distinct fields and distinct dimensions |
| FaMappings.SmallTablesWellFormed | flasharray_collector/flasharray_metrics/mappings.py:15-32 | the bandwidth, IOPS, block-size and used-space tables have distinct fields and distinct dimensions, the last five entries |
| Families.MetricFamily.constructor | flasharray_collector/flasharray_metrics/volume_performance_metrics.py:22-25 | a new gauge family has its name and label names and no samples |
| Families.MetricFamily.AddMetric | flasharray_collector/flasharray_metrics/volume_performance_metrics.py:27 | `add_metric` appends exactly one sample, with the given labels and value, and keeps the earlier ones |
| Families.Read | flasharray_collector/flasharray_metrics/volume_performance_metrics.py:27 | reading a field fails only for a dict record without the key (KeyError); an SDK object's missing attribute reads None |
| Families.EmitEntity | flasharray_collector/flasharray_metrics/volume_performance_metrics.py:27-38 | the `add_metric` calls for one entity append its rows, or stop at the first failing read with its error, keeping what was added before |
| Families.EmitRows | flasharray_collector/flasharray_metrics/volume_performance_metrics.py:26-38 | the loop over the entities appends `Rows`; on a failure the error is the first one and the samples added so far stay |
| Families.BuildFamily | flasharray_collector/flasharray_metrics/volume_performance_metrics.py:22-38 | a builder method creates a fresh family holding exactly the rows of the entities, or fails with the first error |
| Families.Served | flasharray_collector/flasharray_metrics/array_hardware_metrics.py:52-56 | the label pairs `add_metric` keeps pair each declared name with its value, in order, and stop at the shorter of the two lists |
| Families.WellLabelledKeepsAll | flasharray_collector/flasharray_metrics/array_hardware_metrics.py:52-56 | in a well-labelled family no sample loses a label value |
| Families.CellsShape | flasharray_collector/flasharray_metrics/volume_performance_metrics.py:27-38 | an entity gives one sample per column, in column order, labelled by the entity's labels and the column's dimension, valued by the column's field |
| Families.CellsSucceed | flasharray_collector/flasharray_metrics/volume_performance_metrics.py:27-38 | an entity's samples can be built exactly when the record is an SDK object or every column's field is present |
| Families.RowsShape | flasharray_collector/flasharray_metrics/volume_performance_metrics.py:26-38 | the samples come entity by entity, one block of one sample per column for each entity |
| Families.RowAt | flasharray_collector/flasharray_metrics/volume_performance_metrics.py:26-38 | sample `i * columns + j` is entity i's labels with column j's dimension, valued by column j's field |
| Families.RowsLength | flasharray_collector/flasharray_metrics/volume_performance_metrics.py:26-38 | a family holds entities times columns samples |
| Families.RowsSucceed | flasharray_collector/flasharray_metrics/volume_performance_metrics.py:26-38 | the loop succeeds exactly when every entity's samples can be built |
| Families.AttributeRowsFailOnlyOnKeys | flashblade_collector/flashblade_metrics/filesystems_space_metrics.py:31-36 | over SDK objects a family can fail only while building labels: reading a value never fails |
| Families.PlainKeysReadable | flashblade_collector/flashblade_metrics/filesystems_space_metrics.py:24 | labels taken from SDK attributes without splitting always build, one value per key |
| Families.KeyLabelsWidth | flashblade_collector/flashblade_metrics/clients_performance_metrics.py:25-27 | a record's key labels have the width the keys declare, two for a split `client:port` name |
| Families.ConsistentFamilyWellLabelled | flasharray_collector/flasharray_metrics/volume_performance_metrics.py:22-38 | when the declared label names match the layout, every sample carries exactly one value per label name |
| Families.FamiliesOfShape | flasharray_collector/flasharray_metrics/volume_performance_metrics.py:68-74 | a builder's families come out in declaration order, each with all of its rows |
| Families.FamiliesOfSucceed | flasharray_collector/flasharray_metrics/volume_performance_metrics.py:68-74 | a builder succeeds exactly when each of its families does |
| Families.ThreeFamiliesSucceed | flasharray_collector/flasharray_metrics/volume_performance_metrics.py:68-74 | a three-family builder succeeds exactly when every entity has the fields of all three families |
| Families.FamiliesOfAll | flasharray_collector/flasharray_metrics/volume_performance_metrics.py:68-74 | families that each succeed are yielded together, in order |
| Families.FamiliesOfFirstFailure | flasharray_collector/flasharray_metrics/volume_performance_metrics.py:68-74 | a builder fails with the error of its first failing family |
| Families.JoinedOk | flasharray_collector/flasharray_collector.py:38-58 | a scrape made of `yield from` parts succeeds exactly when every part does |
| Families.JoinedFails | flasharray_collector/flasharray_collector.py:38-58 | any failing part makes the scrape fail |
| Families.JoinedPrefixFailure | flasharray_collector/flasharray_collector.py:38-58 | the scrape fails with the error of the first failing part |
| FaSource.Put | flasharray_collector/flasharray_metrics/flasharray.py:66-78 | storing a record under its name replaces any earlier record of that name and appends the name to the key order only when it is new, as a Python dict does |
| FaSource.Update | flasharray_collector/flasharray_metrics/flasharray.py:79-92 | `vdict[v['name']].update(v)` never adds or reorders names; it fails with a KeyError when the name is unknown |
| FaSource.UpdateOverwritesOnlyItsKeys | flasharray_collector/flasharray_metrics/flasharray.py:80 | the update fails exactly when the row has no name or an unknown one; otherwise the named record gains the row's keys, the row's values win, the other keys keep their values and every other record is untouched |
| FaSource.Values | flasharray_collector/flasharray_metrics/flasharray.py:93 | `list(vdict.values())` lists one record per name, in insertion order |
| FaSource.ValuesNames | flasharray_collector/flasharray_metrics/flasharray.py:93 | the names of the listed records are exactly the dictionary's key order |
| FaSource.WithNaa | flasharray_collector/flasharray_metrics/flasharray.py:68 | the NAA id is `naa.624a9370` followed by the serial; a volume without a string serial fails |
| FaSource.PrepareKeepsName | flasharray_collector/flasharray_metrics/flasharray.py:68-77 | adding the NAA id and the protocol-endpoint zeros never changes the volume's name |
| FaSource.EndpointReplacesWholesale | flasharray_collector/flasharray_metrics/flasharray.py:70-78 | a protocol endpoint is stored whole, replacing a volume of the same name, with size, volumes, snapshots, total and data_reduction set to 0, the NAA id added and every other field as listed |
| FaSource.Seed | flasharray_collector/flasharray_metrics/flasharray.py:66-78 | a seed loop over a whole listing keeps the name index well formed: the key order lists each stored name once |
| FaSource.MergeListing | flasharray_collector/flasharray_metrics/flasharray.py:79-80 | a merge loop over one subset listing never adds, drops or reorders names, and keeps the index well formed |
| FaSource.SeedFrom | flasharray_collector/flasharray_metrics/flasharray.py:66-78 | the seeding loops compute `Seed` of the listing |
| FaSource.SeedOrder | flasharray_collector/flasharray_metrics/flasharray.py:66-78 | after seeding, the key order is the earlier order followed by the new names in first-seen order |
| FaSource.SeedKeys | flasharray_collector/flasharray_metrics/flasharray.py:66-78 | after seeding, the names known are the earlier ones and those of the listing, and no others |
| FaSource.SeedKeepsNaa | flasharray_collector/flasharray_metrics/flasharray.py:66-78 | seeding volumes or endpoints keeps every stored volume's NAA id equal to the prefix plus its serial |
| FaSource.SeedOneKeepsNaa | flasharray_collector/flasharray_metrics/flasharray.py:68-69 | storing one volume or endpoint keeps the NAA invariant |
| FaSource.MergeFromListing | flasharray_collector/flasharray_metrics/flasharray.py:79-80 | one merge loop computes `MergeListing` of the listing |
| FaSource.MergeFrom | flasharray_collector/flasharray_metrics/flasharray.py:79-92 | the seven merge loops, in order, compute `MergeReplies`; the first raising listing stops them |
| FaSource.MergeListingSucceeds | flasharray_collector/flasharray_metrics/flasharray.py:79-80 | a merge loop succeeds exactly when every row names an entity already seeded |
| FaSource.MergeListingPerEntity | flasharray_collector/flasharray_metrics/flasharray.py:79-92 | after a successful merge each entity is its seeded record overlaid with all of its rows, later rows winning, and the order is unchanged |
| FaSource.MergeListingAgain | flasharray_collector/flasharray_metrics/flasharray.py:79-80 | a listing that merged once merges again |
| FaSource.MergeListingIdempotent | flasharray_collector/flasharray_metrics/flasharray.py:79-80 | merging the same listing twice gives the same records as merging it once |
| FaSource.UnknownNameFailsListing | flasharray_collector/flasharray_metrics/flasharray.py:80 | a row naming an entity that was never seeded makes the merge fail |
| FaSource.UnknownNameFailsReplies | flasharray_collector/flasharray_metrics/flasharray.py:79-92 | an unknown name in any of the subset listings makes the whole merge fail |
| FaSource.RaisedReplyFails | flasharray_collector/flasharray_metrics/flasharray.py:79-92 | a subset listing that raises makes the whole merge fail |
| FaSource.UpdateKeepsNaa | flasharray_collector/flasharray_metrics/flasharray.py:80 | a row carrying neither naaid nor serial keeps the NAA invariant |
| FaSource.MergeListingKeepsNaa | flasharray_collector/flasharray_metrics/flasharray.py:79-80 | a merge loop whose rows carry neither naaid nor serial keeps the NAA invariant |
| FaSource.MergeRepliesKeepsNaa | flasharray_collector/flasharray_metrics/flasharray.py:79-92 | the seven merge loops keep the NAA invariant when no subset reports naaid or serial |
| FaSource.MergedVolumesNaa | flasharray_collector/flasharray_metrics/flasharray.py:63-94 | every volume returned carries a NAA id equal to the prefix followed by its serial, provided no subset listing reports naaid or serial |
| FaSource.MergedVolumesOrder | flasharray_collector/flasharray_metrics/flasharray.py:63-94 | the volumes come back in first-seen order of the names of the volume listing followed by the endpoint listing |
| FaSource.UnknownSubsetNameFails | flasharray_collector/flasharray_metrics/flasharray.py:79-92 | a subset row naming neither a listed volume nor a listed endpoint makes `get_volumes` fail |
| FaSource.RaisedSubsetFails | flasharray_collector/flasharray_metrics/flasharray.py:79-92 | a raising volume subset listing makes `get_volumes` fail |
| FaSource.ArrayMergeStops | flasharray_collector/flasharray_metrics/flasharray.py:35-48 | the first subset call that raises or returns an empty list stops the array merge, and later calls change nothing |
| FaSource.ArrayMergeLaterWins | flasharray_collector/flasharray_metrics/flasharray.py:34-48 | after a complete merge every subset answered with a record; a key the final subset record has takes its value, and a key no subset has keeps its identity value |
| FaSource.ArrayMergeLastHolder | flasharray_collector/flasharray_metrics/flasharray.py:34-48 | after a complete merge a key takes the value of the last subset record that has it, whatever the later records hold for other keys |
| FaSource.FlashArray.constructor | flasharray_collector/flasharray_metrics/flasharray.py:16-25 | a new data source has all four caches empty |
| FaSource.FlashArray.GetArray | flasharray_collector/flasharray_metrics/flasharray.py:31-49 | a cached record is returned without any call; otherwise the identity record is stored first and then updated by each subset, so a failure leaves the partial record cached |
| FaSource.FlashArray.MergeSubsets | flasharray_collector/flasharray_metrics/flasharray.py:35-48 | the seven subset updates leave the cache holding the merge as far as it got, and return the failure that stopped it |
| FaSource.FlashArray.GetArrayElem | flasharray_collector/flasharray_metrics/flasharray.py:51-55 | the element is the cached record's value for the key, or None when the key is absent; a failure of `get_array` is passed on |
| FaSource.FlashArray.GetOpenAlerts | flasharray_collector/flasharray_metrics/flasharray.py:57-58 | the open-alerts listing is passed through, including its failure |
| FaSource.FlashArray.GetHardwareStatus | flasharray_collector/flasharray_metrics/flasharray.py:60-61 | the hardware listing is passed through, including its failure |
| FaSource.FlashArray.GetVolumes | flasharray_collector/flasharray_metrics/flasharray.py:63-94 | the result is `MergedVolumes`; it is cached on success, a failure leaves the cache as it was, and a cached result costs no call |
| FaSource.FlashArray.GetHosts | flasharray_collector/flasharray_metrics/flasharray.py:96-117 | the result is the merged host listing, cached on success only |
| FaSource.FlashArray.GetPods | flasharray_collector/flasharray_metrics/flasharray.py:119-140 | the result is the merged pod listing, cached on success only |
| FaSource.MergeEntities | flasharray_collector/flasharray_metrics/flasharray.py:99-116 | the host and pod loops compute `MergedEntities`: seed by name, then merge the seven subsets |
| FaArray.ArraySpaceMetrics.constructor | flasharray_collector/flasharray_metrics/array_space_metrics.py:8-13 | a new space builder holds the data source and no families yet |
| FaArray.ArraySpaceMetrics.ElemOrZero | flasharray_collector/flasharray_metrics/array_space_metrics.py:24 | the value is the array element, or 0 when it is None or absent; a failure of `get_array` is passed on and a success leaves the record cached |
| FaArray.ArraySpaceMetrics.DataReduction | flasharray_collector/flasharray_metrics/array_space_metrics.py:15-24 | the data-reduction family holds one unlabelled sample with the array's data_reduction, 0 when None |
| FaArray.ArraySpaceMetrics.Capacity | flasharray_collector/flasharray_metrics/array_space_metrics.py:26-33 | the capacity family holds one unlabelled sample with the array's capacity, 0 when None |
| FaArray.ArraySpaceMetrics.Provisioned | flasharray_collector/flasharray_metrics/array_space_metrics.py:35-43 | the provisioned family holds one unlabelled sample with the array's provisioned space, 0 when None |
| FaArray.ArraySpaceMetrics.Used | flasharray_collector/flasharray_metrics/array_space_metrics.py:45-57 | the used family holds the five dimensions shared, system, volumes, snapshots and replication, in that order, each 0 when None |
| FaArray.ArraySpaceMetrics.GetMetrics | flasharray_collector/flasharray_metrics/array_space_metrics.py:59-67 | the builder yields the four space families computed from the array record, or the failure of `get_array` |
| FaArray.ArraySpaceValues | flasharray_collector/flasharray_metrics/array_space_metrics.py:15-67 | over any array record the four families are named as in the source, in yield order, with the None-to-0 values of the fields each reads |
| FaArray.SingleSpaceValue | flasharray_collector/flasharray_metrics/array_space_metrics.py:24 | a one-value space family is one unlabelled sample holding the field, 0 when None |
| FaArray.UsedValues | flasharray_collector/flasharray_metrics/array_space_metrics.py:52-57 | the used family has one sample per entry of the used table, labelled by its dimension, 0 when None |
| FaArray.UsedColumnsFollowTable | flasharray_collector/flasharray_metrics/array_space_metrics.py:52-57 | the five used-space `add_metric` calls are exactly the used-space table of the mappings module, in order |
| FaArray.ArrayPerformanceMetrics.constructor | flasharray_collector/flasharray_metrics/array_performance_metrics.py:9-15 | a new performance builder holds the data source and no families yet |
| FaArray.ArrayPerformanceMetrics.FromArray | flasharray_collector/flasharray_metrics/array_performance_metrics.py:23-27 | each family method calls `get_array` and builds its family from the record, failing on a missing key |
| FaArray.ArrayPerformanceMetrics.GetMetrics | flasharray_collector/flasharray_metrics/array_performance_metrics.py:92-102 | the builder yields latency, bandwidth, IOPS, block size and queue depth from the array record, or the first failure |
| FaArray.ArrayPerformanceValues | flasharray_collector/flasharray_metrics/array_performance_metrics.py:17-89 | the five families follow the latency, bandwidth, IOPS and block-size tables entry by entry, and queue depth is one sample, 0 when None |
| FaArray.LatencyFollowsTable | flasharray_collector/flasharray_metrics/array_performance_metrics.py:27-39 | the latency family has one sample per latency-table entry, in table order, labelled by its dimension and holding the field's raw value |
| FaArray.BandwidthFollowsTable | flasharray_collector/flasharray_metrics/array_performance_metrics.py:50-52 | the bandwidth family follows the bandwidth table: read is output_per_sec, write is input_per_sec |
| FaArray.IopsFollowsTable | flasharray_collector/flasharray_metrics/array_performance_metrics.py:63-65 | the IOPS family follows the IOPS table |
| FaArray.BsizeFollowsTable | flasharray_collector/flasharray_metrics/array_performance_metrics.py:76-78 | the block-size family follows the block-size table |
| FaArray.QdepthValue | flasharray_collector/flasharray_metrics/array_performance_metrics.py:89 | the queue-depth family is one unlabelled sample holding queue_depth, 0 when None, and needs the key to be present |
| FaArray.TableValues | flasharray_collector/flasharray_metrics/array_performance_metrics.py:27-78 | a family written from a mapping table holds, for each entry, the dimension label and the raw field value |
| FaArray.PerformanceColumnsFollowTables | flasharray_collector/flasharray_metrics/array_performance_metrics.py:27-78 | the hand-written `add_metric` runs are exactly the latency, bandwidth, IOPS and block-size tables of the mappings module, in order |
| FaArray.MissingPerformanceFieldFails | flasharray_collector/flasharray_metrics/array_performance_metrics.py:27 | an array record without usec_per_read_op makes the builder fail with KeyError on that key |
| FaArray.NetworkInterfacePerformanceMetrics.constructor | flasharray_collector/flasharray_metrics/network_interface_metrics.py:10-14 | a new network builder holds one empty family named purefa_network_interface_performance with labels interface and dimension |
| FaArray.NetworkInterfacePerformanceMetrics.MkMetric | flasharray_collector/flasharray_metrics/network_interface_metrics.py:16-25 | `_mk_metric` appends `Mapped` samples: entity order, then mapping order, one sample for each key present |
| FaArray.NetworkInterfacePerformanceMetrics.Performance | flasharray_collector/flasharray_metrics/network_interface_metrics.py:27-33 | the performance family gains the mapped samples of the interfaces |
| FaArray.NetworkInterfacePerformanceMetrics.GetMetrics | flasharray_collector/flasharray_metrics/network_interface_metrics.py:35-37 | the builder yields the one family holding the mapped samples, or fails with the first KeyError |
| FaArray.EntityMappedShape | flasharray_collector/flasharray_metrics/network_interface_metrics.py:22-25 | an interface gives one sample per mapping key present in it, labelled by its name and the key's dimension with the raw value, and nothing for absent keys |
| FaArray.MappedCount | flasharray_collector/flasharray_metrics/network_interface_metrics.py:22-25 | the sample count is the number of mapping keys present, summed over the interfaces |
| FaArray.UnmappedEntitySilent | flasharray_collector/flasharray_metrics/network_interface_metrics.py:24 | an interface with none of the mapping's keys adds nothing and cannot fail, even without a name |
| FaArray.MappedPrefixFailure | flasharray_collector/flasharray_metrics/network_interface_metrics.py:22-25 | the first interface that fails fixes the error of the whole loop |
| FaEntities.Entities | flasharray_collector/flasharray_metrics/volume_space_metrics.py:27 | a builder's entity listing is `get_volumes`, `get_hosts` or `get_pods` of the data source, with its caching |
| FaEntities.EntitySpaceMetrics.constructor | flasharray_collector/flasharray_metrics/volume_space_metrics.py:9-20 | a new space builder declares three empty families; volume families are labelled pod and naaid, host families host, pod families pod, the allocated family adding dimension |
| FaEntities.EntitySpaceMetrics.Fill | flasharray_collector/flasharray_metrics/volume_space_metrics.py:27-39 | one `_data_reduction`, `_size` or `_allocated` loop appends that family's rows over a fresh listing of the entities, or fails with the first error |
| FaEntities.EntitySpaceMetrics.GetMetrics | flasharray_collector/flasharray_metrics/volume_space_metrics.py:41-47 | the builder yields data reduction, size and allocated, each holding the samples it already had followed by the rows of the entities |
| FaEntities.SpaceRunsAccumulate | flasharray_collector/flasharray_metrics/volume_space_metrics.py:9-47 | the families are declared in `__init__`, so running `get_metrics` twice on one builder yields each family with both runs' samples |
| FaEntities.EntityPerformanceMetrics.constructor | flasharray_collector/flasharray_metrics/volume_performance_metrics.py:9-13 | a new performance builder has no families yet |
| FaEntities.EntityPerformanceMetrics.FromList | flasharray_collector/flasharray_metrics/volume_performance_metrics.py:22-38 | each family method creates a fresh family and fills it from a fresh listing of the entities |
| FaEntities.EntityPerformanceMetrics.GetMetrics | flasharray_collector/flasharray_metrics/volume_performance_metrics.py:68-74 | the builder yields latency, bandwidth and IOPS over the entities, or the first failure |
| FaEntities.EntityLatencyFollowsTable | flasharray_collector/flasharray_metrics/volume_performance_metrics.py:27-38 | the volume, host and pod latency runs are the latency table without its fourth entry, local_queue |
| FaEntities.EntityKeyLabels | flasharray_collector/flasharray_metrics/volume_space_metrics.py:28 | an entity's labels are its name, and for a volume its NAA id too; a missing name, or a volume's missing naaid, is a KeyError on that key |
| FaEntities.EntitySucceeds | flasharray_collector/flasharray_metrics/volume_performance_metrics.py:27-38 | one entity's rows build exactly when it has its label keys and every field the family reads |
| FaEntities.EntityRowsSucceed | flasharray_collector/flasharray_metrics/volume_performance_metrics.py:26-38 | a family builds exactly when every entity has its label keys and every field the family reads |
| FaEntities.EntityCell | flasharray_collector/flasharray_metrics/volume_performance_metrics.py:26-38 | row `i * columns + j` is entity i's labels with column j's dimension, holding column j's field after its None policy |
| FaEntities.LinePolicies | flasharray_collector/flasharray_metrics/volume_space_metrics.py:28-39 | performance values are passed through as read, while allocated values are 0 when None and labelled by their own field name |
| FaEntities.SpaceEntitySucceeds | flasharray_collector/flasharray_metrics/volume_space_metrics.py:27-39 | an entity passes all three space families exactly when it has its label keys and the fields data_reduction, size, volumes, snapshots and total |
| FaEntities.EntitySpaceSucceeds | flasharray_collector/flasharray_metrics/volume_space_metrics.py:41-47 | the space builder succeeds exactly when every entity has its label keys and the five space fields |
| FaEntities.SpaceFamiliesAreRows | flasharray_collector/flasharray_metrics/volume_space_metrics.py:41-47 | the three space families hold the rows of data reduction, size and allocated, in that order |
| FaEntities.SpaceSampleCounts | flasharray_collector/flasharray_metrics/volume_space_metrics.py:27-39 | data reduction and size hold one sample per entity and allocated three |
| FaEntities.PerfEntitySucceeds | flasharray_collector/flasharray_metrics/volume_performance_metrics.py:26-66 | an entity passes all three performance families exactly when it has its label keys and every performance field |
| FaEntities.EntityPerformanceSucceeds | flasharray_collector/flasharray_metrics/volume_performance_metrics.py:68-74 | the performance builder succeeds exactly when every entity has its label keys and every performance field |
| FaEntities.PerfFamiliesAreRows | flasharray_collector/flasharray_metrics/volume_performance_metrics.py:68-74 | the three performance families hold the rows of latency, bandwidth and IOPS, in that order |
| FaEntities.PerfSampleCounts | flasharray_collector/flasharray_metrics/volume_performance_metrics.py:26-66 | latency holds twelve samples per entity, bandwidth and IOPS three each |
| FaHardware.DollarBody | flasharray_collector/flasharray_metrics/array_hardware_metrics.py:41-43 | the text a pattern ending in `$` must match is the name itself or the name without one trailing newline, as Python's `$` allows |
| FaHardware.DigitRun | flasharray_collector/flasharray_metrics/array_hardware_metrics.py:41-43 | `\d+` consumes the longest run of leading digits and stops at the first non-digit |
| FaHardware.UpperRun | flasharray_collector/flasharray_metrics/array_hardware_metrics.py:43 | `[A-Z]+` consumes the longest run of leading capitals and stops at the first other character |
| FaHardware.ParseRender | flasharray_collector/flasharray_metrics/array_hardware_metrics.py:41-69 | rendering a well-formed chassis, controller or component name and matching it against the three patterns gives back the same parts |
| FaHardware.ParsedRenders | flasharray_collector/flasharray_metrics/array_hardware_metrics.py:41-69 | a name that one of the patterns matches is the rendering of the parts it yields, up to the trailing newline `$` allows |
| FaHardware.RenderBody | flasharray_collector/flasharray_metrics/array_hardware_metrics.py:41-43 | a rendered name starts with CH or CT according to its slot and has no trailing newline |
| FaHardware.ParseKindRender | flasharray_collector/flasharray_metrics/array_hardware_metrics.py:43 | the tail `<TYPE><m>` splits at the end of its capital run into the type and the index |
| FaHardware.ParseRestRender | flasharray_collector/flasharray_metrics/array_hardware_metrics.py:43 | `<n>.<TYPE><m>` after the slot prefix parses into its base index, type and index |
| FaHardware.ParseDigitsRender | flasharray_collector/flasharray_metrics/array_hardware_metrics.py:41-42 | digits alone after CH or CT parse as a chassis or a controller name |
| FaHardware.ArrayHardwareMetrics.constructor | flasharray_collector/flasharray_metrics/array_hardware_metrics.py:7-13 | a new hardware builder has no families yet |
| FaHardware.ArrayHardwareMetrics.AddComponent | flasharray_collector/flasharray_metrics/array_hardware_metrics.py:45-94 | one pass of the loop appends to each family exactly that component's contribution, or fails with its error |
| FaHardware.ArrayHardwareMetrics.Walk | flasharray_collector/flasharray_metrics/array_hardware_metrics.py:45-94 | the loop over the components fills the five families with `HwAll`, stopping at the first failure |
| FaHardware.ArrayHardwareMetrics.ArrayHardwareStatus | flasharray_collector/flasharray_metrics/array_hardware_metrics.py:15-94 | the five fresh families are named as declared and end up holding `HardwareFamilies`, or the listing's or a conversion's failure |
| FaHardware.ArrayHardwareMetrics.GetMetrics | flasharray_collector/flasharray_metrics/array_hardware_metrics.py:96-102 | the builder yields chassis, controller, component health, temperature and power, in that order, as `HardwareFamilies` says |
| FaHardware.HwPrefixFailure | flasharray_collector/flasharray_metrics/array_hardware_metrics.py:45-94 | the first component that fails fixes the failure of the whole pass |
| FaHardware.NotInstalledSilent | flasharray_collector/flasharray_metrics/array_hardware_metrics.py:46-47 | a not_installed component contributes nothing |
| FaHardware.UnrecognisedSilent | flasharray_collector/flasharray_metrics/array_hardware_metrics.py:52-64 | a component whose name none of the three patterns matches contributes nothing |
| FaHardware.ContributionHealth | flasharray_collector/flasharray_metrics/array_hardware_metrics.py:49-80 | a component contributes at most one health sample, 1 when its status is ok and 0 otherwise |
| FaHardware.NamedHealth | flasharray_collector/flasharray_metrics/array_hardware_metrics.py:52-80 | a matched name gives at most one health sample, holding the component's state |
| FaHardware.ChassisAndControllerSamples | flasharray_collector/flasharray_metrics/array_hardware_metrics.py:52-62 | `CH<n>` adds one chassis sample and `CT<n>` one controller sample, labelled by n, holding the health state |
| FaHardware.ComponentSamples | flasharray_collector/flasharray_metrics/array_hardware_metrics.py:64-94 | a component adds one health sample labelled chassis, controller, type and index with the empty label on the other slot; a TMP component also adds its temperature, a PWR component its voltage only when it is not None |
| FaHardware.ReadingSamples | flasharray_collector/flasharray_metrics/array_hardware_metrics.py:71-94 | the slot placement of the labels and the extra temperature and power samples, for a given state |
| FaHardware.NullTemperatureAborts | flasharray_collector/flasharray_metrics/array_hardware_metrics.py:82-89 | a TMP component whose temperature is None aborts the pass with a TypeError, since the value is converted without a None check |
| FaHardware.HwAllWidths | flasharray_collector/flasharray_metrics/array_hardware_metrics.py:45-94 | every sample of the pass carries one label value, four, three or two for controller, component, temperature and power |
| FaHardware.ChassisFamilyMislabelled | flasharray_collector/flasharray_metrics/array_hardware_metrics.py:19-21 | the chassis family declares no label names while its samples carry one, so it is well labelled only when empty; the four other families always are |
| FaHardware.ChassisIndexDropped | flasharray_collector/flasharray_metrics/array_hardware_metrics.py:19-21 | every chassis sample is given one label value, and `add_metric` keeps none of it: the chassis index is dropped and every chassis sample is served without labels |
| FaEvents.CountAppend | flasharray_collector/flasharray_metrics/array_events_metrics.py:23-30 | the count of a severity over two listings is the sum of the counts |
| FaEvents.CountsBounded | flasharray_collector/flasharray_metrics/array_events_metrics.py:23-30 | the three counters together never exceed the number of open alerts |
| FaEvents.CountIsPositions | flasharray_collector/flasharray_metrics/array_events_metrics.py:23-30 | each counter is the number of alerts whose severity equals it |
| FaEvents.ArrayEventsMetrics.constructor | flasharray_collector/flasharray_metrics/array_events_metrics.py:8-10 | a new events builder has no family yet |
| FaEvents.ArrayEventsMetrics.OpenEvents | flasharray_collector/flasharray_metrics/array_events_metrics.py:12-34 | the fresh purefa_alerts_total family, labelled severity, holds the three counts, or the listing's failure or a KeyError on current_severity |
| FaEvents.ArrayEventsMetrics.GetMetrics | flasharray_collector/flasharray_metrics/array_events_metrics.py:36-38 | the builder yields the one family holding `OpenEventSamples` |
| FaEvents.OpenEventsCounts | flasharray_collector/flasharray_metrics/array_events_metrics.py:23-34 | the samples are critical, warning and info, in that order, each the number of open alerts of that severity, and together at most the number of alerts |
| FaEvents.MissingSeverityFails | flasharray_collector/flasharray_metrics/array_events_metrics.py:25 | an alert without current_severity makes the builder fail with KeyError on that key |
| FaHardware.CorrectedHardwareWellLabelled | flasharray_collector/flasharray_metrics/array_hardware_metrics.py:19-21 | with the chassis family declared with the `chassis` label its samples carry, all five families are well labelled, hold the same samples as before, and every chassis sample is served with its `chassis` index |
| FaPodStatus.Online | flasharray_collector/flasharray_metrics/pod_status_metrics.py:31-32 | a status reads 1 exactly when it is the string online and 0 otherwise |
| FaPodStatus.Progress | flasharray_collector/flasharray_metrics/pod_status_metrics.py:34 | a None progress reads 101; any other value is kept |
| FaPodStatus.MemberLines | flasharray_collector/flasharray_metrics/pod_status_metrics.py:31-34 | one array member gives a status and a mediator sample labelled pod, array id and array name, and a progress sample only when the key is present; a missing key fails with KeyError on the first one read |
| FaPodStatus.Members | flasharray_collector/flasharray_metrics/pod_status_metrics.py:30-31 | the member list must be a list; indexing an empty string raises IndexError |
| FaPodStatus.PodEntry | flasharray_collector/flasharray_metrics/pod_status_metrics.py:29-40 | a pod without arrays or name fails with KeyError on that key, and an empty member list with IndexError |
| FaPodStatus.PodStatusLines | flasharray_collector/flasharray_metrics/pod_status_metrics.py:29-40 | status and mediator get the same number of samples, one or two per pod, and progress never more than status |
| FaPodStatus.PodStatusMetrics.constructor | flasharray_collector/flasharray_metrics/pod_status_metrics.py:9-11 | a new pod-status builder has no families yet |
| FaPodStatus.PodStatusMetrics.AddMember | flasharray_collector/flasharray_metrics/pod_status_metrics.py:31-34 | the three families grow by exactly one member's samples, or the pass fails with its error |
| FaPodStatus.PodStatusMetrics.AddPod | flasharray_collector/flasharray_metrics/pod_status_metrics.py:30-40 | the three families grow by exactly one pod's samples, or the pass fails with its error |
| FaPodStatus.PodStatusMetrics.Walk | flasharray_collector/flasharray_metrics/pod_status_metrics.py:29-40 | the loop over the pods fills the families with `PodStatusLines`, stopping at the first failure |
| FaPodStatus.PodStatusMetrics.GetMetrics | flasharray_collector/flasharray_metrics/pod_status_metrics.py:42-46 | the builder yields status, mediator status and progress over `get_pods`, as `PodStatusFamilies` says |
| FaPodStatus.PodPrefixFailure | flasharray_collector/flasharray_metrics/pod_status_metrics.py:29-40 | the first pod that fails fixes the failure of the whole pass |
| FaPodStatus.PodEntryCount | flasharray_collector/flasharray_metrics/pod_status_metrics.py:31-40 | a pod gives one status and one mediator sample per member shown, one or two, and at most as many progress samples |
| FaPodStatus.PodStatusCount | flasharray_collector/flasharray_metrics/pod_status_metrics.py:29-40 | the status and mediator families hold one sample per member shown, summed over the pods |
| FaPodStatus.MembersBeyondSecondIgnored | flasharray_collector/flasharray_metrics/pod_status_metrics.py:35-40 | members after the second never show |
| FaPodStatus.SingleMemberPod | flasharray_collector/flasharray_metrics/pod_status_metrics.py:35-36 | a pod with one member shows that member alone |
| FaCollector.GroupOfScope | flasharray_collector/flasharray_collector.py:40-58 | each builder belongs to exactly one request scope: array, volumes, hosts, pods, or all for the host-volume map |
| FaCollector.PlanSelects | flasharray_collector/flasharray_collector.py:38-58 | a builder runs exactly when the request is all or its own scope |
| FaCollector.PlanByRequest | flasharray_collector/flasharray_collector.py:38-58 | each request runs its builders in source order, all runs every group then the host-volume map, and an unknown request runs nothing |
| FaCollector.InfoFamily | flasharray_collector/flasharray_metrics/array_info_metrics.py:12-21 | the info family holds one sample whose labels are array_name, id (as system_id), version and hostname; a missing key fails with KeyError on the first one read |
| FaCollector.HostVolumeRows | flasharray_collector/flasharray_metrics/host_volume_metrics.py:15-17 | one sample per host-volume connection labelled host and naaid, valued 1; the loop succeeds exactly when every connection has both keys |
| FaCollector.Outputs | flasharray_collector/flasharray_collector.py:38-58 | one output per builder run, in plan order |
| FaCollector.ScrapeAppend | flasharray_collector/flasharray_collector.py:38-58 | running two groups of builders one after the other yields the first group's families followed by the second's |
| FaCollector.AllIsEveryScope | flasharray_collector/flasharray_collector.py:38-58 | the all request yields array, volumes, hosts and pods families, then the host-volume map, as the scoped requests would in turn |
| FaCollector.UnknownRequestYieldsNothing | flasharray_collector/flasharray_collector.py:38-58 | a request outside all, array, volumes, hosts and pods yields no family and cannot fail |
| FaCollector.UndefinedInterfacesFail | flasharray_collector/flasharray_collector.py:46 | the network builder calls an accessor the data source lacks, so array and all requests fail whenever that call fails |
| FaCollector.ArrayResultPinned | flasharray_collector/flasharray_metrics/flasharray.py:31-49 | once the array record is cached, every later `get_array` returns that same merged record |
| FaCollector.ConnectionMessageNamesEndpoint | flasharray_collector/flasharray_collector.py:32-35 | the connection error message names the endpoint it could not reach |
| FaCollector.ArrayInfoMetrics.constructor | flasharray_collector/flasharray_metrics/array_info_metrics.py:8-10 | a new info builder has no family yet |
| FaCollector.ArrayInfoMetrics.GetMetrics | flasharray_collector/flasharray_metrics/array_info_metrics.py:12-25 | the builder yields the info family of the array record, or the failure of `get_array` or of a missing key |
| FaCollector.HostVolumeMetrics.constructor | flasharray_collector/flasharray_metrics/host_volume_metrics.py:9-13 | a new host-volume builder holds one empty family purefa_host_volumes_info labelled host and naaid |
| FaCollector.HostVolumeMetrics.MapHostVol | flasharray_collector/flasharray_metrics/host_volume_metrics.py:15-17 | the loop appends `HostVolumeRows`, or fails with the first missing key |
| FaCollector.HostVolumeMetrics.GetMetrics | flasharray_collector/flasharray_metrics/host_volume_metrics.py:15-22 | the builder yields the one family over the host-volume connections, or the failure of fetching them |
| FaCollector.HostVolumePrefixFailure | flasharray_collector/flasharray_metrics/host_volume_metrics.py:16-17 | the first connection without host or naaid fails the loop with KeyError on the first of the two it lacks |
| FaCollector.FlasharrayCollector.constructor | flasharray_collector/flasharray_collector.py:30-36 | the collector keeps its data source and its request |
| FaCollector.FlasharrayCollector.RunSection | flasharray_collector/flasharray_collector.py:40-58 | each `yield from` runs one builder, whose output is `SectionOutput`, and a success never changes what `get_array` returns |
| FaCollector.FlasharrayCollector.RunRecordSection | flasharray_collector/flasharray_collector.py:41-45 | the info, space and performance builders work from the cached array record |
| FaCollector.FlasharrayCollector.RunSourceSection | flasharray_collector/flasharray_collector.py:42-58 | the hardware, events, network and host-volume builders work from their own listings |
| FaCollector.FlasharrayCollector.RunListingSection | flasharray_collector/flasharray_collector.py:48-56 | the volume, host and pod builders work from the cached entity listings |
| FaCollector.FlasharrayCollector.RunNetworkInterface | flasharray_collector/flasharray_collector.py:46 | the network builder's output over the interface listing and mapping |
| FaCollector.FlasharrayCollector.RunEntitySpace | flasharray_collector/flasharray_collector.py:48-55 | a space builder yields its three families over the entity listing |
| FaCollector.FlasharrayCollector.Collect | flasharray_collector/flasharray_collector.py:38-58 | `collect` yields `Scrape` of the request's plan: every builder's families in order, or the first failure; with the network interface accessor undefined, as in the program, every array and all request fails |
| FaCollector.FreshSpaceRun | flasharray_collector/flasharray_metrics/volume_space_metrics.py:9-47 | a space builder created afresh for each scrape yields exactly one run's samples |
| FaCollector.Connect | flasharray_collector/flasharray_collector.py:30-36 | creating the collector fails exactly when the connection fails, with a message naming the endpoint; otherwise the new collector has an empty array cache |
| FbSource.NfsRecords | flashblade_collector/flashblade_metrics/flashblade.py:91-96 | the per-filesystem NFS performance list never has more entries than there are filesystems |
| FbSource.FlashBlade.constructor | flashblade_collector/flashblade_metrics/flashblade.py:13-39 | a new data source has every cache empty, array performance slots for nfs, http, s3 and smb and specific-performance slots for nfs, http and s3 |
| FbSource.FlashBlade.GetArrayInfo | flashblade_collector/flashblade_metrics/flashblade.py:45-46 | the first array of the listing, or a failure when the call raises or the list is empty |
| FbSource.FlashBlade.GetOpenAlerts | flashblade_collector/flashblade_metrics/flashblade.py:48-49 | the open-alerts listing is passed through, including its failure |
| FbSource.FlashBlade.GetHardwareStatus | flashblade_collector/flashblade_metrics/flashblade.py:51-52 | the hardware listing is passed through, including its failure |
| FbSource.FlashBlade.GetArrayPerformance | flashblade_collector/flashblade_metrics/flashblade.py:54-57 | a cached protocol answer costs no call; otherwise the first performance record of that protocol is fetched and cached; a protocol without a slot is a KeyError |
| FbSource.FlashBlade.GetArraySpecificPerformance | flashblade_collector/flashblade_metrics/flashblade.py:59-71 | http, nfs and s3 fetch and cache their own specific record; any other protocol returns None without a call |
| FbSource.FlashBlade.GetFilesystems | flashblade_collector/flashblade_metrics/flashblade.py:73-76 | the filesystem listing, cached on success, a cached one costing no call |
| FbSource.FlashBlade.GetArraySpace | flashblade_collector/flashblade_metrics/flashblade.py:78-81 | the first array-space record, cached on success |
| FbSource.FlashBlade.GetBuckets | flashblade_collector/flashblade_metrics/flashblade.py:83-86 | the bucket listing, cached on success |
| FbSource.FlashBlade.GetNfsFilesystemsPerformance | flashblade_collector/flashblade_metrics/flashblade.py:88-97 | the cache is set to a list before the loop, so a later call returns what the first gathered; filesystems whose call fails are skipped, and a fresh gather equals `NfsResult` |
| FbSource.FlashBlade.GatherNfs | flashblade_collector/flashblade_metrics/flashblade.py:91-96 | the loop keeps one record per filesystem whose call answers, in filesystem order |
| FbSource.FlashBlade.GetBucketsPerformance | flashblade_collector/flashblade_metrics/flashblade.py:99-105 | a fresh gather appends one record per bucket and stops at the first failing call, leaving the partial list cached for the next call |
| FbSource.FlashBlade.GatherBuckets | flashblade_collector/flashblade_metrics/flashblade.py:102-104 | the loop computes `BucketRecords`: records up to the first failure, and that failure |
| FbSource.FlashBlade.GetBucketReplicaLinks | flashblade_collector/flashblade_metrics/flashblade.py:107-110 | the bucket replica-link listing, cached on success |
| FbSource.FlashBlade.GetFilesystemReplicaLinks | flashblade_collector/flashblade_metrics/flashblade.py:112-115 | the filesystem replica-link listing, cached on success |
| FbSource.FlashBlade.GetUsersUsage | flashblade_collector/flashblade_metrics/flashblade.py:117-125 | the users' usage of every filesystem concatenated in filesystem order; a failure leaves the partial list cached |
| FbSource.FlashBlade.GetGroupsUsage | flashblade_collector/flashblade_metrics/flashblade.py:127-135 | the groups' usage of every filesystem concatenated in filesystem order; a failure leaves the partial list cached |
| FbSource.FlashBlade.GatherUsage | flashblade_collector/flashblade_metrics/flashblade.py:120-124 | the usage loop computes `UsageRecords` |
| FbSource.FlashBlade.GetClientsPerformance | flashblade_collector/flashblade_metrics/flashblade.py:137-140 | the clients-performance listing, cached on success |
| FbSource.NfsRecordsAppend | flashblade_collector/flashblade_metrics/flashblade.py:91-96 | gathering over two filesystem lists is gathering over each in turn |
| FbSource.NfsRecordsSkipFailure | flashblade_collector/flashblade_metrics/flashblade.py:95-96 | a filesystem whose call fails is skipped and the loop goes on |
| FbSource.NfsRecordsAllAnswered | flashblade_collector/flashblade_metrics/flashblade.py:91-94 | when every call answers, record i is the first answer for filesystem i |
| FbSource.BucketRecordsStop | flashblade_collector/flashblade_metrics/flashblade.py:102-104 | after the first failing bucket call, later buckets change nothing |
| FbSource.BucketRecordsComplete | flashblade_collector/flashblade_metrics/flashblade.py:102-104 | the bucket gather completes exactly when every call answers, and then record i belongs to bucket i |
| FbSource.UsageRecordsStop | flashblade_collector/flashblade_metrics/flashblade.py:120-124 | after the first failing usage call, later filesystems change nothing |
| FbSource.UsageRecordsAppend | flashblade_collector/flashblade_metrics/flashblade.py:120-124 | the usage gather over two filesystem lists is the gather over each in turn, stopping at a failure |
| FbSource.UsageSkipsEmpty | flashblade_collector/flashblade_metrics/flashblade.py:122-123 | a filesystem with no usage entries adds nothing |
| FbMappings.SpecificTableSizes | flashblade_collector/flashblade_metrics/array_specific_performance_mapping.py:1-80 | the NFS tables have 23 entries, the HTTP and S3 tables 5 |
| FbMappings.AccessLatencyMisnamed | flashblade_collector/flashblade_metrics/array_specific_performance_mapping.py:6 | the NFS access latency is labelled `acces`, so its dimension is not the one its field name suggests |
| FbMappings.OtherLatencyShared | flashblade_collector/flashblade_metrics/array_specific_performance_mapping.py:26-34 | HTTP and S3 both report usec_per_other_op as other |
| FbMappings.HttpS3LatencyWellFormed | flashblade_collector/flashblade_metrics/array_specific_performance_mapping.py:26-41 | the HTTP and S3 latency tables have distinct fields and distinct dimensions |
| FbMappings.HttpS3IopsWellFormed | flashblade_collector/flashblade_metrics/array_specific_performance_mapping.py:67-80 | the HTTP and S3 IOPS tables have distinct fields and distinct dimensions |
| FbArray.Reported | flashblade_collector/flashblade_metrics/array_hardware_metrics.py:20-24 | the components reported are a sub-list of the hardware listing |
| FbArray.ReportedMembers | flashblade_collector/flashblade_metrics/array_hardware_metrics.py:20-24 | a component is reported exactly when it is listed and its status is neither unused nor not_installed |
| FbArray.HardwareSamplesFollowReported | flashblade_collector/flashblade_metrics/array_hardware_metrics.py:20-26 | one sample per reported component, in listing order |
| FbArray.StatusValue | flashblade_collector/flashblade_metrics/array_hardware_metrics.py:21-26 | a reported component's sample is labelled by its name and reads 1 exactly when its status is healthy, 0 otherwise |
| FbArray.ArrayHardwareMetrics.constructor | flashblade_collector/flashblade_metrics/array_hardware_metrics.py:8-13 | a new hardware builder declares the empty purefb_hw_status family labelled hw_id and fetches the hardware listing once |
| FbArray.ArrayHardwareMetrics.HardwareStatus | flashblade_collector/flashblade_metrics/array_hardware_metrics.py:15-26 | the loop appends exactly `HardwareSamples` of the listing |
| FbArray.ArrayHardwareMetrics.GetMetrics | flashblade_collector/flashblade_metrics/array_hardware_metrics.py:28-30 | the builder yields the one hardware family with those samples added |
| FbArray.SeverityCount | flashblade_collector/flashblade_metrics/array_events_metrics.py:22-28 | a severity counter never exceeds the number of open alerts |
| FbArray.SeverityCountsBounded | flashblade_collector/flashblade_metrics/array_events_metrics.py:21-28 | the three counters together are at most the number of alerts, and exactly that number when every alert is critical, warning or info |
| FbArray.ArrayEventsMetrics.constructor | flashblade_collector/flashblade_metrics/array_events_metrics.py:8-13 | a new events builder declares the empty purefb_open_events_total family labelled severity and fetches the open alerts once |
| FbArray.ArrayEventsMetrics.OpenEvents | flashblade_collector/flashblade_metrics/array_events_metrics.py:15-31 | the three independent ifs count each severity; the family gains critical, warning and info, in that order, with those counts |
| FbArray.ArrayEventsMetrics.GetMetrics | flashblade_collector/flashblade_metrics/array_events_metrics.py:33-35 | the builder yields the one events family with those samples added |
| FbArray.ArraySpaceGuards | flashblade_collector/flashblade_metrics/array_space_metrics.py:22-47 | capacity gives one sample unless it is None; space gives unique, virtual, total_physical and snapshots and reduction gives data_reduction, both nothing when the space object is None; every family is well labelled |
| FbArray.ArraySpaceMetrics.constructor | flashblade_collector/flashblade_metrics/array_space_metrics.py:8-20 | a new space builder declares its three empty families and reads the array-space record through the data source's cache |
| FbArray.ArraySpaceMetrics.Capacity | flashblade_collector/flashblade_metrics/array_space_metrics.py:33-39 | the capacity family gains `CapacitySamples` |
| FbArray.ArraySpaceMetrics.Space | flashblade_collector/flashblade_metrics/array_space_metrics.py:22-31 | the space family gains `SpaceSamples` |
| FbArray.ArraySpaceMetrics.Reduction | flashblade_collector/flashblade_metrics/array_space_metrics.py:41-47 | the reduction family gains `ReductionSamples` |
| FbArray.ArraySpaceMetrics.GetMetrics | flashblade_collector/flashblade_metrics/array_space_metrics.py:49-55 | the builder yields capacity, space and reduction, each holding its earlier samples followed by this run's |
| FbArray.ProtocolRowsStop | flashblade_collector/flashblade_metrics/array_performance_metrics.py:29-35 | the first protocol whose performance call fails stops the loop |
| FbArray.ProtocolCellsSucceed | flashblade_collector/flashblade_metrics/array_performance_metrics.py:30-35 | one protocol's samples build exactly when its performance call succeeds, and there are none when it has no record |
| FbArray.ProtocolRowsSucceed | flashblade_collector/flashblade_metrics/array_performance_metrics.py:29-35 | a family's loop succeeds exactly when every protocol's performance call does |
| FbArray.ProtocolRowsCount | flashblade_collector/flashblade_metrics/array_performance_metrics.py:29-35 | a family holds one block of samples per protocol that has a record |
| FbArray.PerformanceOrderCached | flashblade_collector/flashblade_metrics/array_performance_metrics.py:11 | every protocol the builder walks, http, nfs, s3 and smb, has a cache slot in the data source |
| FbArray.ArrayPerformanceMetrics.constructor | flashblade_collector/flashblade_metrics/array_performance_metrics.py:9-23 | a new performance builder declares its four empty families |
| FbArray.ArrayPerformanceMetrics.FillProtocol | flashblade_collector/flashblade_metrics/array_performance_metrics.py:30-35 | one protocol's pass appends that protocol's samples, or nothing when it has no record, or fails |
| FbArray.ArrayPerformanceMetrics.Fill | flashblade_collector/flashblade_metrics/array_performance_metrics.py:25-72 | one family method appends `PerformanceRows` over the four protocols |
| FbArray.ArrayPerformanceMetrics.GetMetrics | flashblade_collector/flashblade_metrics/array_performance_metrics.py:74-82 | the builder yields latency, IOPS, op size and throughput, each holding its earlier samples and this run's, or the first failure |
| FbArray.FourFamiliesFail | flashblade_collector/flashblade_metrics/array_performance_metrics.py:74-78 | the builder fails with the error of its first failing family method |
| FbArray.FamilyOfRows | flashblade_collector/flashblade_metrics/array_performance_metrics.py:25-72 | each family holds exactly its method's rows |
| FbArray.PerformanceGrown | flashblade_collector/flashblade_metrics/array_performance_metrics.py:74-82 | when every method succeeds the builder yields the four families grown by their rows |
| FbArray.PerformanceSucceeds | flashblade_collector/flashblade_metrics/array_performance_metrics.py:74-82 | the builder succeeds exactly when every protocol's performance call succeeds |
| FbArray.NfsLatencyFollowsTable | flashblade_collector/flashblade_metrics/array_specific_performance_metrics.py:23-51 | the NFS latency run is the NFS latency table of the mapping module, in order |
| FbArray.NfsIopsFollowsTable | flashblade_collector/flashblade_metrics/array_specific_performance_metrics.py:80-107 | the NFS IOPS run is the NFS IOPS table, in order |
| FbArray.HttpS3FollowTables | flashblade_collector/flashblade_metrics/array_specific_performance_metrics.py:53-121 | the HTTP and S3 runs are the HTTP and S3 tables, in order |
| FbArray.SpecificShape | flashblade_collector/flashblade_metrics/array_specific_performance_metrics.py:14-121 | a specific family builds exactly when the nfs, http and s3 records are all available; it holds the NFS, then the HTTP, then the S3 samples, 33 in all |
| FbArray.ArraySpecificPerformanceMetrics.constructor | flashblade_collector/flashblade_metrics/array_specific_performance_metrics.py:9-12 | a new specific-performance builder has no families and the NFS, HTTP and S3 runs in source order |
| FbArray.ArraySpecificPerformanceMetrics.EmitRun | flashblade_collector/flashblade_metrics/array_specific_performance_metrics.py:23-51 | one protocol's run appends its samples, labelled by the protocol and the dimension, or fails |
| FbArray.ArraySpecificPerformanceMetrics.FreshFamily | flashblade_collector/flashblade_metrics/array_specific_performance_metrics.py:14-70 | a family method creates a fresh family holding the three runs' samples |
| FbArray.ArraySpecificPerformanceMetrics.GetMetrics | flashblade_collector/flashblade_metrics/array_specific_performance_metrics.py:123-127 | the builder yields the latency and IOPS families, as `SpecificPair` says |
| FbEntities.PlainRows | flashblade_collector/flashblade_metrics/filesystems_space_metrics.py:23-36 | rows whose labels are attribute reads never fail |
| FbEntities.PlainFamilies | flashblade_collector/flashblade_metrics/buckets_space_metrics.py:49-55 | a builder over plain families always succeeds, with one family per declared family, each holding exactly its rows |
| FbEntities.Extend | flashblade_collector/flashblade_metrics/filesystems_space_metrics.py:18-36 | one add_metric loop appends exactly the rows of its family to the family's samples |
| FbEntities.OneFieldRowAt | flashblade_collector/flashblade_metrics/filesystems_performance_metrics.py:31-34 | the sample for entity i and column j sits at position i times the column count plus j and carries the entity's name, the column's label and the column's field |
| FbEntities.FilesystemsSpaceMetrics.constructor | flashblade_collector/flashblade_metrics/filesystems_space_metrics.py:8-16 | a new builder declares its two empty families and reads the filesystem listing through the data source's cache |
| FbEntities.FilesystemsSpaceMetrics.GetMetrics | flashblade_collector/flashblade_metrics/filesystems_space_metrics.py:38-42 | the builder yields data reduction and space, each holding its earlier samples followed by this run's |
| FbEntities.FilesystemsSpaceSamples | flashblade_collector/flashblade_metrics/filesystems_space_metrics.py:18-36 | filesystem i gives one data-reduction sample, None read as 0, and five space samples, provisioned, snapshots, total_physical, virtual and unique, in that order |
| FbEntities.FilesystemsSpaceCounts | flashblade_collector/flashblade_metrics/filesystems_space_metrics.py:18-36 | the two families hold one and five samples per filesystem |
| FbEntities.BucketsSpaceMetrics.constructor | flashblade_collector/flashblade_metrics/buckets_space_metrics.py:8-19 | a new builder declares its three empty families and reads the bucket listing through the data source's cache |
| FbEntities.BucketsSpaceMetrics.GetMetrics | flashblade_collector/flashblade_metrics/buckets_space_metrics.py:49-55 | the builder yields data reduction, object count and space, each holding its earlier samples followed by this run's |
| FbEntities.BucketLabels | flashblade_collector/flashblade_metrics/buckets_space_metrics.py:27 | a bucket is labelled by its account name and then its own name |
| FbEntities.BucketsCountSamples | flashblade_collector/flashblade_metrics/buckets_space_metrics.py:21-36 | bucket i gives one data-reduction sample, None read as 0, and one object-count sample |
| FbEntities.BucketsSpaceSamples | flashblade_collector/flashblade_metrics/buckets_space_metrics.py:38-47 | bucket i gives four space samples, snapshots, total_physical, virtual and unique, in that order |
| FbEntities.BucketsSpaceCounts | flashblade_collector/flashblade_metrics/buckets_space_metrics.py:21-47 | the three families hold one, one and four samples per bucket |
| FbEntities.FilesystemsPerformanceMetrics.constructor | flashblade_collector/flashblade_metrics/filesystems_performance_metrics.py:8-24 | a new builder declares its four empty families and reads the NFS filesystem performance through the data source's cache |
| FbEntities.FilesystemsPerformanceMetrics.GetMetrics | flashblade_collector/flashblade_metrics/filesystems_performance_metrics.py:66-74 | the builder yields latency, IOPS, op size and throughput, each grown by this run's samples, or the gather's failure |
| FbEntities.FilesystemsPerformanceSamples | flashblade_collector/flashblade_metrics/filesystems_performance_metrics.py:26-64 | every sample is labelled nfs, the filesystem name and the dimension, and carries the field its column names |
| FbEntities.FilesystemsPerformanceCounts | flashblade_collector/flashblade_metrics/filesystems_performance_metrics.py:26-64 | latency, IOPS and op size hold three samples per filesystem, throughput two |
| FbEntities.BucketsPerformanceMetrics.constructor | flashblade_collector/flashblade_metrics/buckets_performance_metrics.py:8-16 | a new builder declares its two empty families and reads the bucket performance through the data source's cache |
| FbEntities.BucketsPerformanceMetrics.GetMetrics | flashblade_collector/flashblade_metrics/buckets_performance_metrics.py:42-46 | the builder yields latency and throughput, each grown by this run's samples, or the gather's failure |
| FbEntities.BucketsPerformanceSamples | flashblade_collector/flashblade_metrics/buckets_performance_metrics.py:18-40 | bucket i gives five latency and five throughput samples with the same five dimensions in the same order |
| FbEntities.BucketsPerformanceCounts | flashblade_collector/flashblade_metrics/buckets_performance_metrics.py:18-40 | both families hold five samples per bucket |
| FbEntities.BucketsReplicaMetrics.constructor | flashblade_collector/flashblade_metrics/buckets_replica_metrics.py:8-19 | a new builder declares the empty replica-lag family and reads the bucket replica links once |
| FbEntities.BucketsReplicaMetrics.GetMetrics | flashblade_collector/flashblade_metrics/buckets_replica_metrics.py:21-36 | the builder yields the replica-lag family grown by one sample per link |
| FbEntities.FilesystemsReplicaMetrics.constructor | flashblade_collector/flashblade_metrics/filesystems_replica_metrics.py:8-10 | a new builder holds no family yet |
| FbEntities.FilesystemsReplicaMetrics.GetMetrics | flashblade_collector/flashblade_metrics/filesystems_replica_metrics.py:12-32 | each run creates a fresh lag family holding one sample per filesystem replica link |
| FbEntities.LinkLabels | flashblade_collector/flashblade_metrics/filesystems_replica_metrics.py:24-28 | a link has one label per declared label key |
| FbEntities.LinkLabelsRead | flashblade_collector/flashblade_metrics/buckets_replica_metrics.py:27-32 | reading a link's label attributes never fails and gives exactly those labels |
| FbEntities.ReplicaSamples | flashblade_collector/flashblade_metrics/buckets_replica_metrics.py:26-32 | link i gives sample i, labelled by its link attributes, one label per declared key, with its lag as value |
| FbEntities.UsageMetrics.constructor | flashblade_collector/flashblade_metrics/usage_users_metrics.py:8-10 | a new builder holds no family yet |
| FbEntities.UsageMetrics.Fetch | flashblade_collector/flashblade_metrics/usage_users_metrics.py:20 | the usage listing read is the users or groups usage gathered over the filesystems |
| FbEntities.UsageMetrics.GetMetrics | flashblade_collector/flashblade_metrics/usage_users_metrics.py:12-30 | each run creates a fresh usage family from the gathered usage, or fails with the gather's error |
| FbEntities.UsageMetrics.Build | flashblade_collector/flashblade_metrics/usage_groups_metrics.py:16-26 | the family built holds exactly the usage rows of the listing |
| FbEntities.UsageLabels | flashblade_collector/flashblade_metrics/usage_groups_metrics.py:21-22 | the labels are the filesystem name, the user or group name with None read as empty, and the id rendered as text |
| FbEntities.UsageSamples | flashblade_collector/flashblade_metrics/usage_users_metrics.py:20-26 | entry i gives a quota sample, None read as 0, and then a usage sample |
| FbEntities.ClientsPerformanceMetrics.constructor | flashblade_collector/flashblade_metrics/clients_performance_metrics.py:8-13 | a new builder holds no families yet |
| FbEntities.ClientsPerformanceMetrics.FromList | flashblade_collector/flashblade_metrics/clients_performance_metrics.py:15-31 | each family method fetches the client list again and builds a fresh family from it, or fails |
| FbEntities.ClientsPerformanceMetrics.GetMetrics | flashblade_collector/flashblade_metrics/clients_performance_metrics.py:83-91 | the builder yields latency, IOPS, op size and throughput built from the client list, or the first failure |
| FbEntities.ClientLabels | flashblade_collector/flashblade_metrics/clients_performance_metrics.py:25 | a client name splits into client and port when it holds exactly one colon; otherwise the unpacking fails |
| FbEntities.ClientPortRoundTrip | flashblade_collector/flashblade_metrics/clients_performance_metrics.py:25 | a name built as client colon port splits back into that client and that port |
| FbEntities.ClientsSucceed | flashblade_collector/flashblade_metrics/clients_performance_metrics.py:24-31 | the builder succeeds exactly when every client name holds one colon |
| FbEntities.ClientsSamples | flashblade_collector/flashblade_metrics/clients_performance_metrics.py:24-81 | every sample is labelled client, port and dimension and carries the field its column names |
| FbEntities.ClientsCounts | flashblade_collector/flashblade_metrics/clients_performance_metrics.py:24-81 | latency, IOPS and op size hold three samples per client, throughput two |
| FbCollector.GroupOfScope | flashblade_collector/flashblade_collector.py:39-56 | a builder belongs to the array group, the usage group or the clients group exactly when its scope is that name |
| FbCollector.PlanSelects | flashblade_collector/flashblade_collector.py:39-56 | a builder runs exactly when the request is all or equals its scope |
| FbCollector.PlanByRequest | flashblade_collector/flashblade_collector.py:39-56 | all runs the array, usage and clients builders in that order; each named scope runs its own group; any other request runs nothing |
| FbCollector.InfoFamily | flashblade_collector/flashblade_metrics/array_info_metrics.py:12-21 | the info family holds one sample whose labels are the array name, the id exported as system_id, the os and the version |
| FbCollector.Outputs | flashblade_collector/flashblade_collector.py:39-56 | the collector produces one output per planned builder, in plan order |
| FbCollector.OutputsAppend | flashblade_collector/flashblade_collector.py:39-56 | the outputs of two consecutive plan parts are the outputs of the first followed by those of the second |
| FbCollector.ScrapeAppend | flashblade_collector/flashblade_collector.py:39-56 | scraping two consecutive plan parts chains their scrapes: the second runs only when the first succeeds |
| FbCollector.AllIsEveryScope | flashblade_collector/flashblade_collector.py:39-56 | scraping all is scraping array, then usage, then clients |
| FbCollector.UnknownRequestYieldsNothing | flashblade_collector/flashblade_collector.py:39-56 | an unknown request yields no family and no error |
| FbCollector.UnsplitClientFails | flashblade_collector/flashblade_metrics/clients_performance_metrics.py:24-25 | a client name without exactly one colon makes the clients scrape, and so the all scrape, fail |
| FbCollector.ArrayInfoMetrics.constructor | flashblade_collector/flashblade_metrics/array_info_metrics.py:8-10 | a new info builder holds no family yet |
| FbCollector.ArrayInfoMetrics.GetMetrics | flashblade_collector/flashblade_metrics/array_info_metrics.py:12-25 | the builder yields the info family of the array record, or the read's exception, and keeps the family it built |
| FbCollector.FlashbladeCollector.constructor | flashblade_collector/flashblade_collector.py:31-35 | the collector keeps its data source and its request |
| FbCollector.FlashbladeCollector.RunSection | flashblade_collector/flashblade_collector.py:40-56 | one builder's run yields exactly that builder's output, and keeps the data source's caches consistent |
| FbCollector.FlashbladeCollector.RunArraySection | flashblade_collector/flashblade_collector.py:40-45 | an array builder's run yields exactly its output |
| FbCollector.FlashbladeCollector.RunPerformance | flashblade_collector/flashblade_collector.py:43 | the array performance run yields exactly its output |
| FbCollector.FlashbladeCollector.RunSpecific | flashblade_collector/flashblade_collector.py:44 | the specific-performance run yields exactly its output |
| FbCollector.FlashbladeCollector.RunHardware | flashblade_collector/flashblade_collector.py:41 | the hardware run yields exactly its output |
| FbCollector.FlashbladeCollector.RunEvents | flashblade_collector/flashblade_collector.py:42 | the events run yields exactly its output |
| FbCollector.FlashbladeCollector.RunSpace | flashblade_collector/flashblade_collector.py:45 | the array space run yields exactly its output |
| FbCollector.FlashbladeCollector.RunListingSection | flashblade_collector/flashblade_collector.py:46-56 | a builder over one listing yields exactly its output |
| FbCollector.FlashbladeCollector.RunFilesystemsSpace | flashblade_collector/flashblade_collector.py:46 | the filesystem space run yields exactly its output |
| FbCollector.FlashbladeCollector.RunBucketsSpace | flashblade_collector/flashblade_collector.py:47 | the bucket space run yields exactly its output |
| FbCollector.FlashbladeCollector.RunBucketsReplica | flashblade_collector/flashblade_collector.py:50 | the bucket replica run yields exactly its output |
| FbCollector.FlashbladeCollector.RunGatheredSection | flashblade_collector/flashblade_collector.py:48-54 | a builder over a gathered listing yields exactly its output |
| FbCollector.FlashbladeCollector.RunFilesystemsPerformance | flashblade_collector/flashblade_collector.py:48 | the filesystem performance run yields exactly its output |
| FbCollector.FlashbladeCollector.RunBucketsPerformance | flashblade_collector/flashblade_collector.py:49 | the bucket performance run yields exactly its output |
| FbCollector.FlashbladeCollector.Collect | flashblade_collector/flashblade_collector.py:37-56 | the collector yields the families of every planned builder in order, or stops at the first exception |
| FbCollector.Connect | flashblade_collector/flashblade_metrics/flashblade.py:13-39 | a collector exists exactly when the session opens; a failed session surfaces as an upstream error |
| Exporters.Hexes | pure_exporter.py:31-32 | a run of n hex atoms has n atoms |
| Exporters.WholeIff | pure_exporter.py:31-34 | a pattern matches a whole string exactly when the lengths agree and every character fits its atom |
| Exporters.UuidPattern | pure_fa_exporter.py:30-32 | the UUID pattern matches exactly the 36-character lower-case hex strings with dashes at 8, 13, 18 and 23 |
| Exporters.TaggedPattern | pure_fb_exporter.py:31-33 | the FlashBlade pattern matches exactly T- followed by a UUID |
| Exporters.Trimmed | pure_exporter.py:33-34 | the text an anchored search compares is a prefix of the token |
| Exporters.NoFinalNewline | pure_exporter.py:31-34 | no string that ends in a newline matches a pattern whole |
| Exporters.AnchoredTrimmed | pure_exporter.py:33-34 | an anchored search matches a token exactly when the pattern matches the token with one final newline removed |
| Exporters.VerifyTokenAccepts | pure_exporter.py:29-35 | the combined exporter returns the token itself exactly when, without a final newline, it is a UUID or T- and a UUID |
| Exporters.VerifyFaTokenAccepts | pure_fa_exporter.py:28-33 | the FlashArray exporter returns the token itself exactly when, without a final newline, it is a UUID |
| Exporters.VerifyFbTokenAccepts | pure_fb_exporter.py:29-34 | the FlashBlade exporter returns the token itself exactly when, without a final newline, it is T- and a UUID |
| Exporters.CombinedIsUnion | pure_exporter.py:31-34 | the combined exporter accepts exactly the tokens one of the two single-array exporters accepts |
| Exporters.ValidatorsDisjoint | pure_fa_exporter.py:28-33 | no token is accepted by both single-array exporters |
| Exporters.UpperCaseRejected | pure_exporter.py:29-35 | a token with an upper-case hex digit is rejected by all three exporters |
| Exporters.TrailingNewlineAccepted | pure_exporter.py:33-34 | a UUID with one trailing newline is still accepted, and the token returned keeps the newline |
| Exporters.FaScope | pure_fa_exporter.py:81-82 | the FlashArray scope is always one the collector knows |
| Exporters.FbScope | pure_fb_exporter.py:82-83 | the FlashBlade scope is always one the collector knows |
| Exporters.ScopesNormalised | pure_exporter.py:105-112 | a known scope passes unchanged, any other becomes all, and normalising twice changes nothing |
| Exporters.QuotasIsAll | pure_exporter.py:93 | the advertised quotas route scrapes everything, because quotas is not a FlashBlade scope |
| Exporters.RouteArrayAgrees | pure_exporter.py:102-114 | the combined route answers not found exactly for an unknown array type, and otherwise scrapes with the single-array exporter's scope |
| Exporters.NormalisedScopesRun | pure_exporter.py:105-112 | every normalised scope runs at least one builder |
| Exporters.InterceptedKeepsHeader | pure_exporter.py:17-22 | a request that has an Authorization header keeps it; one without gets Bearer and the first apitoken value, or Bearer and nothing, and every other variable keeps its value |
| Exporters.InterceptedIdempotent | pure_fb_exporter.py:17-22 | running the middleware twice is running it once |
| Exporters.Intercept | pure_fa_exporter.py:16-21 | the middleware updates the environment exactly to `Intercepted`, and leaves it unchanged when it fails |
| Exporters.Environ.constructor | pure_exporter.py:17 | an environment holds the variables it is given |
| Exporters.FbScopeWithQuotas | pure_exporter.py:93 | the intended FlashBlade normalisation always gives a scope the collector knows |
| Exporters.QuotasIsUsage | pure_exporter.py:109-111 | under the intended normalisation the quotas page runs exactly the usage builders, and every other request keeps its scope |
| LegacyFa.CellsFirstMissing | collectors/flasharray.py:186-192 | a run of dictionary reads fails with the KeyError of the first absent field |
| LegacyFa.CellsSucceedByKey | collectors/flasharray.py:186-192 | a run of dictionary reads succeeds exactly when every field is present |
| LegacyFa.CellsAllPresent | collectors/flasharray.py:186-192 | when every field is present each sample carries its field's value, in column order |
| LegacyFa.AddField | collectors/flasharray.py:186 | one add_metric of a subscripted field appends that sample, or raises KeyError naming the field and appends nothing |
| LegacyFa.InfoFamily | collectors/flasharray.py:41-52 | the info family exists exactly when array_name, id and version are present, fails naming the first absent one, and holds one sample labelled by the three |
| LegacyFa.Lowered | collectors/flasharray.py:123 | lower-casing keeps the length and maps only upper-case letters |
| LegacyFa.LoweredKind | collectors/flasharray.py:123-131 | a component kind lowers to tmp or pwr exactly when it is TMP or PWR |
| LegacyFa.LegacyHealth | collectors/flasharray.py:88-90 | a component gives one health sample, or none when its name fits no pattern, reading 1 when its status is ok or not_installed and 0 otherwise |
| LegacyFa.NamedHealth | collectors/flasharray.py:93-121 | a named component's health sample carries the state it is given |
| LegacyFa.WholeNameLabel | collectors/flasharray.py:93-102 | a chassis or controller is labelled by its whole name and adds nothing to the other families |
| LegacyFa.ParseComponentName | collectors/flasharray.py:105-110 | a name built as CH or CT, digits, a dot, upper-case letters and digits parses back into those parts |
| LegacyFa.ComponentLabels | collectors/flasharray.py:105-121 | a component's health sample is labelled with its chassis or controller index in the matching slot, its kind and its index |
| LegacyFa.ComponentNamedShape | collectors/flasharray.py:112-121 | a parsed component adds exactly one component-health sample, with the slot the base names |
| LegacyFa.ReadingWithoutValueFails | collectors/flasharray.py:123-135 | a temperature or power component whose reading is None fails the collection with a TypeError |
| LegacyFa.NotInstalledReported | collectors/flasharray.py:88-96 | a not-installed chassis reads healthy here, while the current builder reports nothing for it |
| LegacyFa.LegacyHwPrefixFailure | collectors/flasharray.py:87-135 | the first failing component decides the hardware collection's failure |
| LegacyFa.LegacyHwSucceeds | collectors/flasharray.py:87-135 | the hardware collection succeeds exactly when every component does |
| LegacyFa.AddComponent | collectors/flasharray.py:87-135 | one component's pass adds exactly its contribution to the five families, or fails with its error |
| LegacyFa.AddPart | collectors/flasharray.py:105-135 | one parsed component's pass adds exactly its named contribution, or fails with its error |
| LegacyFa.WalkHardware | collectors/flasharray.py:87-135 | the hardware loop fills the five families with exactly `LegacyHwAll` of the components, or fails with its error |
| LegacyFa.LegacyEventsCounts | collectors/flasharray.py:142-167 | the events family holds critical, warning and info with the number of open alerts of each severity, together at most the number of alerts |
| LegacyFa.SpaceFields | collectors/flasharray.py:186-192 | the space reads need exactly data_reduction, capacity, provisioned, shared_space, system and volumes |
| LegacyFa.SpaceFamilies | collectors/flasharray.py:169-197 | the space call yields capacity, reduction, provisioned and used, in that order, exactly when those fields are present; the snapshots sample repeats volumes |
| LegacyFa.PerfFields | collectors/flasharray.py:199-241 | the performance reads need exactly the nine fields named |
| LegacyFa.PerfFamiliesShape | collectors/flasharray.py:199-241 | the performance call yields its six families exactly when the nine fields are present; read throughput is output_per_sec and the mirror families have no labels |
| LegacyFa.PerfOutputFails | collectors/flasharray.py:199-241 | a performance failure is the failure of its field reads |
| LegacyFa.AddDirections | collectors/flasharray.py:199-241 | the read and write samples are appended to latency, IOPS and throughput, or the first absent field fails |
| LegacyFa.AddReadWrite | collectors/flasharray.py:199-241 | one family gains its read and write samples, or the first absent field fails |
| LegacyFa.AddMirrors | collectors/flasharray.py:199-241 | the mirror families gain one sample each, or the first absent field fails |
| LegacyFa.AddTotals | collectors/flasharray.py:186-188 | reduction, capacity and provisioned gain one sample each, or the first absent field fails |
| LegacyFa.AddUsed | collectors/flasharray.py:189-192 | the used family gains shared, system, volumes and snapshots, the last one repeating volumes, or the first absent field fails |
| LegacyFa.FlasharrayCollector.constructor | collectors/flasharray.py:25-29 | the collector keeps its data source |
| LegacyFa.FlasharrayCollector.ArrayInfo | collectors/flasharray.py:41-52 | the info generator yields exactly `InfoOutput`: the info family, or the first absent key |
| LegacyFa.FlasharrayCollector.ArrayHw | collectors/flasharray.py:54-140 | the hardware generator yields exactly `HwOutput`: the five families of `LegacyHwAll`, or the first failure |
| LegacyFa.FlasharrayCollector.ArrayEvents | collectors/flasharray.py:142-167 | the events generator yields exactly `EventsOutput`, the three severity counts |
| LegacyFa.FlasharrayCollector.ArraySpace | collectors/flasharray.py:169-197 | the space generator yields exactly `SpaceOutput`, whose four families `SpaceFamilies` describes |
| LegacyFa.FlasharrayCollector.ArrayPerf | collectors/flasharray.py:199-241 | the performance generator yields exactly `PerfOutput`, whose six families `PerfFamiliesShape` describes |
| LegacyFa.VolumeSpaceFields | collectors/flasharray.py:262-270 | the volume space reads need exactly data_reduction, size, volumes and snapshots |
| LegacyFa.VolumePerformanceFields | collectors/flasharray.py:293-299 | the volume performance reads need exactly the six latency, throughput and IOPS fields |
| LegacyFa.VolumeSpaceRow | collectors/flasharray.py:262-270 | a volume's space samples exist exactly when its fields are present; shared and system_space read 0 only when the key is absent |
| LegacyFa.VolumePerformanceRow | collectors/flasharray.py:293-299 | a volume's performance samples exist exactly when its fields are present; read throughput is output_per_sec |
| LegacyFa.VolumeYields | collectors/flasharray.py:262-274 | the loop yields three families per volume, and the last three hold every volume's samples |
| LegacyFa.VolumeYieldsPrefix | collectors/flasharray.py:262-274 | what the loop yields for the first volumes is a prefix of what it yields for all |
| LegacyFa.RunVolumesSucceeds | collectors/flasharray.py:262-274 | the volume loop succeeds exactly when every volume's row does |
| LegacyFa.RunVolumesPrefixFailure | collectors/flasharray.py:262-274 | the first failing volume decides the loop's failure |
| LegacyFa.RunVolumesFailsAt | collectors/flasharray.py:262-274 | a failing volume after succeeding ones fails the loop with its error |
| LegacyFa.RunVolumesStep | collectors/flasharray.py:262-274 | one more volume grows the families by its row and yields the three grown families again |
| LegacyFa.AddVolumeSpace | collectors/flasharray.py:263-270 | one volume's space pass appends its row to the three families, or fails with its error |
| LegacyFa.AddVolumePerformance | collectors/flasharray.py:294-299 | one volume's performance pass appends its row to the three families, or fails with its error |
| LegacyFa.AddVolume | collectors/flasharray.py:262-299 | one volume's pass appends the row of its kind, or fails with its error |
| LegacyFa.WalkVolumes | collectors/flasharray.py:243-303 | the volume loop yields exactly the snapshots `RunVolumes` lists, the families re-yielded after every volume, or fails with its error |
| LegacyFa.FlasharrayCollector.VolumeGenerator | collectors/flasharray.py:243-303 | a volume generator yields exactly `VolumeOutput` of its listing |
| LegacyFa.ScrapeSize | collectors/flasharray.py:31-39 | the collection succeeds exactly when all seven generators do, and yields 17 families plus three per volume in each volume listing |
| LegacyFa.FixedSizes | collectors/flasharray.py:41-241 | info yields one family, hardware five, events one, space four and performance six |
| LegacyFa.VolumeOutputSize | collectors/flasharray.py:243-303 | a volume generator yields three families per volume |
| LegacyFa.FlasharrayCollector.Collect | collectors/flasharray.py:31-39 | the collector yields the seven generators' families in order, or stops at the first exception |
| LegacyFa.ChainSeven | collectors/flasharray.py:31-39 | seven chained generators succeed exactly when each does, and yield the sum of their lengths |
| LegacyFb.HwSamplesAt | collectors/flashblade.py:36-50 | every listed component gets one sample, in list order, labelled by its name, with -1, 0 or 1 |
| LegacyFb.StatusDisagreement | collectors/flashblade.py:45-50 | unused and not-installed components read -1 where the current builder drops them; because of the `healty` spelling a healthy component reads 0 and a `healty` one 1, the reverse of the current builder |
| LegacyFb.FlashbladeCollector.ArrayHw | collectors/flashblade.py:30-51 | the hardware loop yields exactly `Output` for hardware: the family of `HwSamples` over the listing, or the listing's exception |
| LegacyFb.CountSeverities | collectors/flashblade.py:66-73 | the three independent counters equal the number of open alerts of each severity |
| LegacyFb.FlashbladeCollector.ArrayEvents | collectors/flashblade.py:53-77 | three samples, critical, warning and info, holding the severity counts |
| LegacyFb.HealthyListingReversed | collectors/flashblade.py:36-50 | over a listing of healthy components both builders report every component under the same label and in the same order, with 0 here and 1 in the current builder |
| LegacyFb.NewFamilies | collectors/flashblade.py:87-129 | the families declared are fresh, distinct, empty and carry the names and label keys given |
| LegacyFb.AddRow | collectors/flashblade.py:133-140 | every family gains one sample with the row's labels and its own field's value |
| LegacyFb.SnapAll | collectors/flashblade.py:141-146 | the families are yielded as they stand, in order |
| LegacyFb.HwSamplesLead | pure_fb_collector.py:43-63 | a leading array label is put in front of every hardware sample's own labels |
| LegacyFb.EventsAsCurrent | collectors/flashblade.py:53-77 | the legacy events samples are the current builder's events samples |
| LegacyFb.SpaceValues | collectors/flashblade.py:79-103 | the space call yields capacity, data reduction, physical and snapshot space, one sample each, in that order |
| LegacyFb.Cleared | collectors/flashblade.py:131-132 | clearing a bucket sets a None data reduction to 0 and changes no other attribute |
| LegacyFb.FieldSamplesAt | collectors/flashblade.py:130-140 | item i's sample in family k is labelled by its key attributes and carries field k after clearing |
| LegacyFb.FieldSamplesLead | pure_fb_collector.py:119-158 | a leading array label is put in front of every bucket sample's own labels |
| LegacyFb.YieldsSize | collectors/flashblade.py:130-146 | the loop yields every family once per item |
| LegacyFb.YieldsPrefix | collectors/flashblade.py:130-146 | what the loop yields for the first items is a prefix of what it yields for all |
| LegacyFb.YieldAt | collectors/flashblade.py:141-146 | after item i each family is yielded holding the samples of the first i plus one items |
| LegacyFb.BucketValues | collectors/flashblade.py:130-135 | a bucket's data reduction reads 0 in place of None, its object count is read as is, and it is labelled by account and bucket name |
| LegacyFb.PerfNames | collectors/flashblade.py:197-230 | one family name per performance column |
| LegacyFb.PerfNameForms | collectors/flashblade.py:204-230 | every family name is pure_fb_perf_, the protocol part and the metric, except others_ops, which lacks the underscore and reads pure_fb_perfothers_ops without a protocol |
| LegacyFb.CancelPrefix | collectors/flashblade.py:204-230 | equal names with the same prefix have equal suffixes |
| LegacyFb.MetricsDiffer | collectors/flashblade.py:204-230 | two metric suffixes agree only for the input and output IOPS families |
| LegacyFb.PerfNamesClash | collectors/flashblade.py:204-230 | two family names agree exactly for the input and output IOPS families, which share one name |
| LegacyFb.PerfValues | collectors/flashblade.py:243-259 | thirteen label-free families with one sample each; bytes per write carries bytes_per_read, and the two same-named IOPS families carry input and output |
| LegacyFb.UnknownProtocolUnfiltered | collectors/flashblade.py:189-194 | an unknown protocol reads the unfiltered performance but still names its families after the protocol |
| LegacyFb.Outputs | collectors/flashblade.py:276-287 | the collector runs one generator per entry of the collection order |
| LegacyFb.ScrapeSucceeds | collectors/flashblade.py:276-287 | the collection succeeds exactly when every generator does |
| LegacyFb.OutputSucceeds | collectors/flashblade.py:30-274 | each generator succeeds exactly when its listing answers, and the space and performance ones also need a first item |
| LegacyFb.FlashbladeCollector.constructor | collectors/flashblade.py:25-28 | the collector keeps its session |
| LegacyFb.FlashbladeCollector.ArraySpace | collectors/flashblade.py:79-103 | the space generator yields exactly `Output` for space: the four families of `SpaceFamilies`, or the listing's exception |
| LegacyFb.FlashbladeCollector.TableSpace | collectors/flashblade.py:105-182 | the bucket and filesystem generators yield exactly `Output` for their table: the `Yields` of the listing, or its exception |
| LegacyFb.FlashbladeCollector.ArrayPerf | collectors/flashblade.py:185-274 | a performance generator yields exactly `Output` for its protocol: the thirteen `PerfSnapshots`, or the listing's exception |
| LegacyFb.FlashbladeCollector.Run | collectors/flashblade.py:276-287 | one generator's run yields exactly its output |
| LegacyFb.FlashbladeCollector.Collect | collectors/flashblade.py:276-287 | the collector yields the ten generators' families in order, or stops at the first exception |
| LegacyFb.WalkTable | collectors/flashblade.py:130-146 | the table loop yields exactly `Yields`: the families re-yielded after every item |
| PureFb.NameOf | pure_fb_collector.py:30-41 | the array name is available exactly when the arrays listing answers with an item |
| PureFb.CollectSucceeds | pure_fb_collector.py:160-167 | the collection succeeds exactly when hardware, alerts, space with an item, buckets and the array name all answer |
| PureFb.NamedHwSamples | pure_fb_collector.py:43-63 | every hardware sample is the legacy sample with the array name in front |
| PureFb.NamedBucketSamples | pure_fb_collector.py:119-158 | every bucket sample is the legacy sample with the array name in front |
| PureFb.PurestorageFBCollector.constructor | pure_fb_collector.py:24-28 | the collector starts with no cached name and no fetch made |
| PureFb.PurestorageFBCollector.Name | pure_fb_collector.py:30-41 | the name read is the array's name; once cached it is reused without another fetch |
| PureFb.PurestorageFBCollector.FetchedOnce | pure_fb_collector.py:30-41 | the arrays listing is fetched at most once while the name is available |
| PureFb.PurestorageFBCollector.AddNamed | pure_fb_collector.py:43-158 | every family gains one sample led by the array name, or the name's failure is raised |
| PureFb.PurestorageFBCollector.ArrayHw | pure_fb_collector.py:43-63 | the hardware generator yields exactly `HwOutput`: the legacy family led by the array name, or the first exception |
| PureFb.PurestorageFBCollector.ArrayEvents | pure_fb_collector.py:65-89 | the events generator yields exactly `EventsOutput`, or the first exception |
| PureFb.PurestorageFBCollector.ArraySpace | pure_fb_collector.py:91-117 | the space generator yields exactly `SpaceOutput`, or the first exception |
| PureFb.PurestorageFBCollector.BucketsSpace | pure_fb_collector.py:119-158 | the buckets generator yields exactly `BucketsOutput`, or the first exception |
| PureFb.PurestorageFBCollector.BucketRow | pure_fb_collector.py:130-158 | one bucket's pass extends every family by its sample, or raises the name's failure |
| PureFb.PurestorageFBCollector.Collect | pure_fb_collector.py:160-167 | the collector yields the four generators' families in order, fetching the array name at most once |
| PureFb.PurestorageFBCollector.Run | pure_fb_collector.py:160-167 | one generator's run yields exactly its output |
| PureHelper.VgVolumeNameSplits | contrib/pure-helper/pure_helper.py:62 | the joined name `vgroup/volume` splits back at its first slash into the volume group and the volume |
| PureHelper.ListVolumeConnections | contrib/pure-helper/pure_helper.py:103-123 | the volume result equals `VolumeConnections`: shared entries, then private ones, then the serial |
| PureHelper.ListHostConnections | contrib/pure-helper/pure_helper.py:125-143 | the host result equals `HostConnections`: the host record with the volume entries added |
| PureHelper.VgVolumeNameInjective | contrib/pure-helper/pure_helper.py:59-63 | two volume-group routes name the same volume only when their group and volume agree |
| PureHelper.Each | contrib/pure-helper/pure_helper.py:115-118 | a loop that succeeds builds one entry per row |
| PureHelper.EachAt | contrib/pure-helper/pure_helper.py:134-140 | the loop succeeds exactly when every row's entry does, and entry i is row i's |
| PureHelper.EachFailsAt | contrib/pure-helper/pure_helper.py:134-140 | the first failing row decides the loop's failure |
| PureHelper.VolumeConnectionsShape | contrib/pure-helper/pure_helper.py:103-123 | the volume result holds exactly serial and hosts; the hosts list the shared connections with their host group, then the private ones with an empty host group |
| PureHelper.AppendHostEntries | contrib/pure-helper/pure_helper.py:114-118 | the loop appends one entry per connection to the hosts already listed, or fails with the first row's error |
| PureHelper.HostConnectionsShape | contrib/pure-helper/pure_helper.py:125-143 | the host result is the host record with volumes added, one entry per connection holding the volume, its LUN and its serial |
| PureHelper.AppendVolumeEntries | contrib/pure-helper/pure_helper.py:133-140 | the loop builds one volume entry per connection, or fails with the first row's error |

The rows name the members whose contracts state a property. The reference functions
that define what an operation computes, such as `LegacyFa.LegacyScrape`, `LegacyFb.Output`,
`PureHelper.VolumeConnections`, `FaSource.ArrayMerge`, `FbSource.BucketRecords`,
`Exporters.VerifyToken`, `FaHardware.ParseHwName` and the collectors' `Plan`, have no row
of their own. Each is covered by the rows of the methods proved equal to it and the lemmas
stated about it, which cite the same source lines.

## Behaviour modelled as written

The model keeps the following behaviours of the program exactly as the source has them.
Each names the lemma that exhibits it and, where the intended behaviour is evident, the
corrected definition the model proves it for.

- Every FlashArray `array` and `all` scrape raises. The network interface builder
  (`flasharray_collector.py:46`) and the host volume builder (`:58`) call
  `get_network_interfaces`, `array_network_interface_mapping` and `get_host_volumes`.
  None of them is defined in `flasharray.py` or `mappings.py`, so each call raises
  `AttributeError`. `FaCollector.UndefinedInterfacesFail` shows it, and
  `FaCollector.FlasharrayCollector.Collect` states it for `x == Undefined`. There is no
  corrected definition, because the missing accessors' behaviour is unknown. The builders
  behind them are modelled with the accessors as parameters instead.
- The FlashArray chassis family declares no label names, while each of its samples is given
  one (`array_hardware_metrics.py:19-21` against `:52-56`). `add_metric` pairs the values with
  the declared names and drops the rest, so the chassis index is lost and every chassis sample
  is served without labels. `FaHardware.ChassisFamilyMislabelled` and
  `FaHardware.ChassisIndexDropped` show this. `FaHardware.CorrectedHardwareFamilies` declares the family with the `chassis`
  label, and `FaHardware.CorrectedHardwareWellLabelled` proves all five families well
  labelled.
- A temperature or voltage reading that is `None` makes `float()` raise, which aborts the
  whole hardware scrape (`array_hardware_metrics.py:86-94`, `collectors/flasharray.py:123-135`).
  `FaHardware.NullTemperatureAborts` and `LegacyFa.ReadingWithoutValueFails` show it. There
  is no corrected definition: the source does not show whether such a sensor should be
  skipped or reported as 0.
- The legacy FlashArray `used` family reads `data['volumes']` for its `snapshots` sample
  (`collectors/flasharray.py:192`), as `LegacyFa.SpaceFamilies` shows. The current builder
  reads the `snapshots` field instead (`FaArray.UsedValues`).
- The legacy FlashBlade hardware loop tests for `healty`, so a healthy component reads 0
  (`collectors/flashblade.py:45-50`). `LegacyFb.StatusDisagreement` and
  `LegacyFb.HealthyListingReversed` show this. The current builder reports `healthy` as 1
  (`FbArray.StatusValue`).
- The legacy FlashBlade performance families have three naming and value defects
  (`collectors/flashblade.py:204-255`), shown by `LegacyFb.PerfValues`,
  `LegacyFb.PerfNamesClash` and `LegacyFb.PerfNameForms`:
  - `bytes_per_write` is fed `bytes_per_read`;
  - the input and output IOPS families share the name `output_ops`;
  - `others_ops` lacks its underscore.

  The current builder reads `bytes_per_write` for its `write` line (`FbArray.ProtocolCellsSucceed`
  over `FbArray.OpsSizeLines`).
- The FlashBlade index page advertises a `quotas` route (`pure_exporter.py:93`), but
  `quotas` is not a FlashBlade scope, so the route scrapes everything (`Exporters.QuotasIsAll`).
  `Exporters.FbScopeWithQuotas` maps `quotas` to `usage`, and `Exporters.QuotasIsUsage`
  proves that it then runs exactly the usage builders.
- The current FlashArray events builder counts severities with `elif`, where the FlashBlade
  one uses three independent `if`s. Each alert has one severity, so both count an alert at
  most once. `FaEvents.CountIsPositions` and `FbArray.SeverityCountsBounded` state the
  counts.
- The volume space family declares the labels `pod` and `naaid` while its samples are
  labelled by name and NAA id (`volume_space_metrics.py:9-20`). The volume latency table
  has no `local_queue` line (`volume_performance_metrics.py:22-38`). The FlashBlade NFS
  latency table names a line `acces` (`array_specific_performance_mapping.py:6`). The
  model keeps all three as written.
- A failed `get_array` leaves a partly merged array record in the cache, and a failed
  FlashBlade gather leaves the records gathered so far. `FaSource.ArrayMergeStops` and
  `FbSource.BucketRecordsStop` show this.

## Left out

- The Flask side of the exporters: the index pages, the 400, 404 and 500 error handlers,
  the CORS headers (`contrib/pure-helper/pure_helper.py:53,73,83,91,99`), `parse_qs` itself
  and the `prometheus_client` text encoding. The route dispatch (`Exporters.RouteArray`) and
  the middleware (`Exporters.Intercept`) are modelled.
- Sessions, logins, SSL settings, timeouts and the SDK clients. Every upstream call is a
  `Reply` value, either answered or raised, that the model takes as given.
- Records.ToFloat: numeric text is not parsed. `float("38")` is 38.0 in the program, but
  `ToFloat(Str("38"))` is a `ValueError` in the model, so a reading reported as text aborts
  a hardware scrape in the model that the program completes. Only numeric values and `None`
  behave as in the program.
- Records.Attr: SDK attribute chains such as `b.account.name` or `b.space.data_reduction`
  are flattened into single keys. An absent key reads as `None`. When a parent object such
  as `b.account` is `None`, the program raises `AttributeError` (for example at
  `pure_fb_collector.py:147`). The model instead reads `None`, labels the sample "None" and
  lets the scrape succeed.
- Records.Value: metric values are unbounded integers (`Num(int)`). Floating-point values,
  such as data-reduction ratios and latencies, and their rounding are not modelled. The
  proofs only move values from a field into a sample, so they do not depend on the number
  type.
- Records.Text: label values are rendered as text when a sample is added. `None` becomes
  "None" and an integer becomes its digits. `prometheus_client` keeps the raw value and
  only fails on a non-string value when it writes the output, and that failure is not
  modelled.
- The HELP strings and `unit` arguments of the families. Only names, label keys and
  samples are modelled.
- `\d` in Python's regular expressions also matches non-ASCII decimal digits. The
  component-name grammar (`FaHardware.ParseHwName`) accepts ASCII digits only.
- A generator yields some families before it raises, and Prometheus then discards the
  scrape. The model returns either all of a scrape's families or the first exception.
- `FaArray.NetworkInterfacePerformanceMetrics` and `FaCollector.HostVolumeMetrics` run over
  the accessors as a parameter (`FaCollector.Extras`), because the program never defines
  them.
- FbSource: the number of name lookups the FlashBlade gathers perform is not counted. Only
  the calls that the caches save are tracked (`fetches`).
- In-place mutation of SDK objects (`b.space.data_reduction = 0` in
  `collectors/flashblade.py:131-132`) is modelled as a cleared copy (`LegacyFb.Cleared`).
  The listing the session holds is therefore not changed.
