/**
 * The persisted session slot `localStorage['authToken']`, shared by the
 * navigation guard and the API layer.
 */
module Storage {

  /** What `localStorage.getItem('authToken')` yields: `null`, or the stored string. */
  datatype Slot = Absent | Stored(token: string)

  /** `!!localStorage.getItem('authToken')`: a stored empty string is falsy. */
  predicate IsAuthenticated(slot: Slot) {
    slot.Stored? && slot.token != ""
  }

  /** `localStorage.removeItem('authToken')`. */
  function Removed(slot: Slot): (r: Slot)
    ensures !IsAuthenticated(r)
  {
    Absent
  }
}
