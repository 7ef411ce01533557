/** The instance states and the read-only view handed to an eviction policy. */
module Types {
  import opened Decimal

  datatype Status = Probing | Normal | Draining | Disabled

  datatype InstanceView = InstanceView(id: ID, status: Status, createdAt: int)
}
