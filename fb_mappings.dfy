/** The FlashBlade protocol-specific performance tables: for nfs, http and s3, the fields of
  * the specific performance record and the `dimension` label each one is reported under,
  * in dictionary order. */
module FbMappings {
  import opened FaMappings

  const NfsSpecificLatency: Mapping := [
    Entry("aggregate_usec_per_file_metadata_create_op", "file_metadata_create"),
    Entry("aggregate_usec_per_file_metadata_modify_op", "file_metadata_modify"),
    Entry("aggregate_usec_per_file_metadata_read_op", "file_metadata_read"),
    Entry("aggregate_usec_per_share_metadata_read_op", "share_metadata_read"),
    Entry("usec_per_access_op", "acces"),
    Entry("usec_per_create_op", "create"),
    Entry("usec_per_fsinfo_op", "fsinfo"),
    Entry("usec_per_fsstat_op", "fsstat"),
    Entry("usec_per_getattr_op", "getattr"),
    Entry("usec_per_link_op", "link"),
    Entry("usec_per_lookup_op", "lookup"),
    Entry("usec_per_mkdir_op", "mkdir"),
    Entry("usec_per_pathconf_op", "pathconf"),
    Entry("usec_per_read_op", "read"),
    Entry("usec_per_readdir_op", "readdir"),
    Entry("usec_per_readdirplus_op", "readdirplus"),
    Entry("usec_per_readlink_op", "readlink"),
    Entry("usec_per_remove_op", "remove"),
    Entry("usec_per_rename_op", "rename"),
    Entry("usec_per_rmdir_op", "rmdir"),
    Entry("usec_per_setattr_op", "setattr"),
    Entry("usec_per_symlink_op", "symlink"),
    Entry("usec_per_write_op", "write")]

  const HttpSpecificLatency: Mapping := [
    Entry("usec_per_read_dir_op", "read_dir"),
    Entry("usec_per_write_dir_op", "write_dir"),
    Entry("usec_per_read_file_op", "read_file"),
    Entry("usec_per_write_file_op", "write_file"),
    Entry("usec_per_other_op", "other")]

  const S3SpecificLatency: Mapping := [
    Entry("usec_per_other_op", "other"),
    Entry("usec_per_read_bucket_op", "read_bucket"),
    Entry("usec_per_read_object_op", "read_object"),
    Entry("usec_per_write_bucket_op", "write_bucket"),
    Entry("usec_per_write_object_op", "write_object")]

  const NfsSpecificIops: Mapping := [
    Entry("aggregate_file_metadata_creates_per_sec", "file_metadata_creates"),
    Entry("aggregate_file_metadata_modifies_per_sec", "file_metadata_modifies"),
    Entry("aggregate_file_metadata_reads_per_sec", "file_metadata_reads"),
    Entry("aggregate_share_metadata_reads_per_sec", "share_metadata_reads"),
    Entry("accesses_per_sec", "accesses"),
    Entry("creates_per_sec", "creates"),
    Entry("fsinfos_per_sec", "fsinfos"),
    Entry("fsstats_per_sec", "fsstats"),
    Entry("getattrs_per_sec", "getattrs"),
    Entry("links_per_sec", "links"),
    Entry("lookups_per_sec", "lookups"),
    Entry("mkdirs_per_sec", "mkdirs"),
    Entry("pathconfs_per_sec", "pathconfs"),
    Entry("readdirpluses_per_sec", "readdirpluses"),
    Entry("readdirs_per_sec", "readdirs"),
    Entry("readlinks_per_sec", "readlinks"),
    Entry("reads_per_sec", "reads"),
    Entry("removes_per_sec", "removes"),
    Entry("renames_per_sec", "renames"),
    Entry("rmdirs_per_sec", "rmdirs"),
    Entry("setattrs_per_sec", "setattrs"),
    Entry("symlinks_per_sec", "symlinks"),
    Entry("writes_per_sec", "writes")]

  const HttpSpecificIops: Mapping := [
    Entry("others_per_sec", "others"),
    Entry("read_dirs_per_sec", "read_dirs"),
    Entry("read_files_per_sec", "read_files"),
    Entry("write_dirs_per_sec", "write_dirs"),
    Entry("write_files_per_sec", "write_files")]

  const S3SpecificIops: Mapping := [
    Entry("others_per_sec", "others"),
    Entry("read_buckets_per_sec", "read_buckets"),
    Entry("read_objects_per_sec", "read_objects"),
    Entry("write_buckets_per_sec", "write_buckets"),
    Entry("write_objects_per_sec", "write_objects")]

  /** The nfs tables have 23 entries, the http and s3 tables 5. */
  lemma SpecificTableSizes()
    ensures |NfsSpecificLatency| == 23 && |HttpSpecificLatency| == 5 && |S3SpecificLatency| == 5
    ensures |NfsSpecificIops| == 23 && |HttpSpecificIops| == 5 && |S3SpecificIops| == 5
  {
  }

  /** The fifth nfs latency entry reports `usec_per_access_op` as `acces`, not as `access`. */
  lemma AccessLatencyMisnamed()
    ensures NfsSpecificLatency[4] == Entry("usec_per_access_op", "acces")
    ensures NfsSpecificLatency[4].field != "usec_per_" + "acces" + "_op"
  {
  }

  /** The http and s3 latency tables both report `usec_per_other_op` as `other`. */
  lemma OtherLatencyShared()
    ensures HttpSpecificLatency[4] == S3SpecificLatency[0] == Entry("usec_per_other_op", "other")
  {
  }

  /** Within the http and s3 latency tables, fields and dimensions are distinct. */
  lemma HttpS3LatencyWellFormed()
    ensures WellFormed(HttpSpecificLatency) && WellFormed(S3SpecificLatency)
  {
  }

  /** Within the http and s3 iops tables, fields and dimensions are distinct. */
  lemma HttpS3IopsWellFormed()
    ensures WellFormed(HttpSpecificIops) && WellFormed(S3SpecificIops)
  {
  }
}
