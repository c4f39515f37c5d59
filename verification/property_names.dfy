/** The property keys the resource container reads. Their definitions live in
    the platform's `PropertyNames` class, which is not part of this model; the
    strings below stand in for them. Nothing proved in this project depends on
    their spelling beyond their being pairwise distinct. */
module PropertyNames {

  /** Container configuration: the service's home directory. */
  const AmsHome: string := "ams.home"

  /** Container configuration: the optimizing-service address; also read
      from a resource's properties as a per-resource override. */
  const AmsOptimizerUri: string := "ams.optimizer.uri"

  /** Resource property: heartbeat interval passed to the worker. */
  const OptimizerHeartBeatInterval: string := "optimizer.heart-beat-interval"

  /** Resource property: whether the worker spills to local disk. */
  const OptimizerExtendDiskStorage: string := "optimizer.extend-disk-storage"

  /** Default of `OptimizerExtendDiskStorage` when the key is absent. */
  const OptimizerExtendDiskStorageDefault: bool := false

  /** Resource property: the directory used for extended disk storage. */
  const OptimizerDiskStoragePath: string := "optimizer.disk-storage-path"

  /** Resource property: the in-memory storage size. */
  const OptimizerMemoryStorageSize: string := "optimizer.memory-storage-size"

  /** Prefix marking container configuration keys exported to the
      worker's environment. */
  const ExportPropertyPrefix: string := "export."

}
