/** The HelmRelease of an application, as far as a restore touches it. */
module Helm {

  datatype HelmRelease = Absent | Release(suspended: bool)

  /** Toggling spec.suspend; a release that is not there is left alone. */
  function SetSuspended(r: HelmRelease, suspended: bool): HelmRelease {
    if r.Absent? then r else Release(suspended)
  }
}
