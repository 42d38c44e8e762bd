/** The FlashArray field-to-dimension tables: each maps a field name of a REST record
  * to the value of the `dimension` label its samples carry. A Python dict keeps
  * insertion order, so a table is an ordered list of entries with distinct fields. */
module FaMappings {
  import opened Records
  import opened Families

  datatype Entry = Entry(field: string, dim: string)
  type Mapping = seq<Entry>

  const ArrayLatencyMapping: Mapping := [
    Entry("usec_per_read_op", "read"),
    Entry("usec_per_write_op", "write"),
    Entry("usec_per_mirrored_write_op", "mirrored_write"),
    Entry("local_queue_usec_per_op", "local_queue"),
    Entry("san_usec_per_read_op", "san_read"),
    Entry("san_usec_per_write_op", "san_write"),
    Entry("san_usec_per_mirrored_write_op", "san_mirrored_write"),
    Entry("queue_usec_per_read_op", "queue_read"),
    Entry("queue_usec_per_write_op", "queue_write"),
    Entry("queue_usec_per_mirrored_write_op", "queue_mirrored_write"),
    Entry("qos_rate_limit_usec_per_read_op", "qos_read"),
    Entry("qos_rate_limit_usec_per_write_op", "qos_write"),
    Entry("qos_rate_limit_usec_per_mirrored_write_op", "qos_mirrored")]

  const ArrayBandwidthMapping: Mapping := [
    Entry("output_per_sec", "read"),
    Entry("input_per_sec", "write"),
    Entry("mirrored_input_per_sec", "mirrored_write")]

  const ArrayIopsMapping: Mapping := [
    Entry("reads_per_sec", "read"),
    Entry("writes_per_sec", "write"),
    Entry("mirrored_writes_per_sec", "mirrored_write")]

  const ArrayBsizeMapping: Mapping := [
    Entry("bytes_per_read", "read"),
    Entry("bytes_per_write", "write"),
    Entry("bytes_per_mirrored_write", "mirrored_write")]

  const ArrayQdepthMapping: Mapping := [Entry("queue_depth", "")]

  const ArrayUsedMapping: Mapping := [
    Entry("shared_space", "shared"),
    Entry("system", "system"),
    Entry("volumes", "volumes"),
    Entry("snapshots", "snapshots"),
    Entry("replication", "replication")]

  const ArrayDrrMapping: Mapping := [Entry("data_reduction", "")]
  const ArrayCapacityMapping: Mapping := [Entry("capacity", "")]
  const ArrayProvisionedMapping: Mapping := [Entry("provisioned", "")]

  // The volume, host and pod tables are the array tables themselves.
  const VolumeLatencyMapping: Mapping := ArrayLatencyMapping
  const VolumeBandwidthMapping: Mapping := ArrayBandwidthMapping
  const VolumeIopsMapping: Mapping := ArrayIopsMapping
  const HostLatencyMapping: Mapping := ArrayLatencyMapping
  const HostBandwidthMapping: Mapping := ArrayBandwidthMapping
  const HostIopsMapping: Mapping := ArrayIopsMapping
  const PodLatencyMapping: Mapping := ArrayLatencyMapping
  const PodBandwidthMapping: Mapping := ArrayBandwidthMapping
  const PodIopsMapping: Mapping := ArrayIopsMapping

  function Fields(m: Mapping): (fs: seq<string>)
    ensures |fs| == |m| && forall i :: 0 <= i < |m| ==> fs[i] == m[i].field
  {
    if |m| == 0 then [] else Fields(m[..|m| - 1]) + [m[|m| - 1].field]
  }

  /** A table is a dictionary whose samples are told apart by their dimension. */
  predicate WellFormed(m: Mapping)
  {
    forall i, j :: 0 <= i < j < |m| ==> m[i].field != m[j].field && m[i].dim != m[j].dim
  }

  /** `mapping[k]`. */
  function Lookup(m: Mapping, k: string): (r: Option<string>)
    ensures r.Some? <==> k in Fields(m)
    ensures r.Some? ==> exists i :: 0 <= i < |m| && m[i].field == k && m[i].dim == r.value
  {
    if |m| == 0 then None
    else if m[|m| - 1].field == k then Some(m[|m| - 1].dim)
    else Lookup(m[..|m| - 1], k)
  }

  /** The one-dimension-label columns a table describes, in table order. */
  function ColumnsOf(m: Mapping, policy: NullPolicy): (cols: seq<Column>)
    ensures |cols| == |m|
    ensures forall i :: 0 <= i < |m| ==> cols[i] == Column([m[i].dim], m[i].field, policy)
  {
    if |m| == 0 then [] else ColumnsOf(m[..|m| - 1], policy) + [Column([m[|m| - 1].dim], m[|m| - 1].field, policy)]
  }

  /** The latency table has thirteen entries with distinct fields and distinct dimensions. */
  lemma LatencyTableWellFormed()
    ensures |ArrayLatencyMapping| == 13 && WellFormed(ArrayLatencyMapping)
  {
  }

  /** The three-entry tables and the used-space table have distinct fields and dimensions. */
  lemma SmallTablesWellFormed()
    ensures WellFormed(ArrayBandwidthMapping) && WellFormed(ArrayIopsMapping) && WellFormed(ArrayBsizeMapping)
    ensures |ArrayUsedMapping| == 5 && WellFormed(ArrayUsedMapping)
  {
  }
}
