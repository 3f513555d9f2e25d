/** The PCI-ID database the resolver queries, as nested immutable maps. The
    real database library is opaque; each of its lookups becomes a map
    membership test. */
module PciDb {

  /** A 16-bit PCI identifier. */
  type Id = x: int | 0 <= x <= 0xffff

  /** A device of some vendor: its name and its sub-systems, keyed by the
      (sub-vendor, sub-device) pair, each with a name. */
  datatype Device = Device(name: string, subsystems: map<(Id, Id), string>)

  /** A vendor: its name and its devices, keyed by device id. */
  datatype Vendor = Vendor(name: string, devices: map<Id, Device>)

  /** The whole database, keyed by vendor id. */
  type Database = map<Id, Vendor>
}
