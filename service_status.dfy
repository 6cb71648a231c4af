/** The status taxonomy every monitored service reports. */
module ServiceStatuses {

  /** `undetermined` means "unknown", never "green". */
  datatype ServiceStatus = Undetermined | Good | Minor | Major
}
