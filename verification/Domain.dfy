/** Value types shared by every model of the load-balancer control plane. */
module Domain {

  datatype Option<+T> = None | Some(value: T)

  datatype Result<+T, +E> = Ok(value: T) | Err(error: E)

  // Identifiers are opaque to the control plane: only equality matters.
  type LbId = nat
  type AddressId = nat
  type WorkerId = nat

  /** The address families a load balancer can declare. */
  datatype Family = V4 | V6

  /** `vip_origin`: who owns the bound address. `Byo` is the legacy listener value,
      `Unset` the column default. */
  datatype Origin = Auto | Linked | Byo | Unset

  datatype Status = Creating | Starting | Active | Stopping | Stopped | Deleting | Inactive

  /** One family's binding in a load-balancer row. */
  datatype Vip = Vip(addr: AddressId, origin: Origin)
}
