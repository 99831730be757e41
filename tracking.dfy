/**
 * The location-tracking page: a journey switch, two preference switches and
 * the trusted contacts, each of whom may or may not see the live location.
 */
module Tracking {

  datatype TrustedContact = TrustedContact(id: int, name: string, initials: string, canView: bool)

  /** The list with `canView` flipped on every contact whose id is `id`. */
  function Toggled(contacts: seq<TrustedContact>, id: int): (r: seq<TrustedContact>)
    ensures |r| == |contacts|
    ensures forall k :: 0 <= k < |r| ==>
              && r[k].id == contacts[k].id && r[k].name == contacts[k].name
              && r[k].initials == contacts[k].initials
              && (r[k].canView <==> (contacts[k].canView != (contacts[k].id == id)))
  {
    seq(|contacts|, k requires 0 <= k < |contacts| =>
      if contacts[k].id == id then contacts[k].(canView := !contacts[k].canView) else contacts[k])
  }

  /** Toggling the same contact twice gives back the list. */
  lemma ToggleTwiceRestores(contacts: seq<TrustedContact>, id: int)
    ensures Toggled(Toggled(contacts, id), id) == contacts
  {
    var r := Toggled(Toggled(contacts, id), id);
    forall k | 0 <= k < |contacts|
      ensures r[k] == contacts[k]
    {
    }
  }

  /** An id no contact has changes nothing. */
  lemma ToggleAbsentId(contacts: seq<TrustedContact>, id: int)
    requires forall k :: 0 <= k < |contacts| ==> contacts[k].id != id
    ensures Toggled(contacts, id) == contacts
  {
    var r := Toggled(contacts, id);
    forall k | 0 <= k < |contacts|
      ensures r[k] == contacts[k]
    {
    }
  }

  /** Contacts with another id are left exactly as they were. */
  lemma ToggleTouchesOnlyId(contacts: seq<TrustedContact>, id: int, k: nat)
    requires k < |contacts| && contacts[k].id != id
    ensures Toggled(contacts, id)[k] == contacts[k]
  {
  }

  class TrackingPage {
    var isTracking: bool
    var locationSharing: bool
    var autoCheckIn: bool
    var contacts: seq<TrustedContact>

    /** The page opens idle, sharing on, check-in on, with three contacts of whom two can view. */
    constructor ()
      ensures !isTracking && locationSharing && autoCheckIn
      ensures contacts == [TrustedContact(1, "Mom", "M", true), TrustedContact(2, "Sarah (Friend)", "S", true),
                           TrustedContact(3, "Emergency Contact", "EC", false)]
    {
      isTracking := false;
      locationSharing := true;
      autoCheckIn := true;
      contacts := [TrustedContact(1, "Mom", "M", true), TrustedContact(2, "Sarah (Friend)", "S", true),
                   TrustedContact(3, "Emergency Contact", "EC", false)];
    }

    /** `toggleContactVisibility`. */
    method ToggleContactVisibility(id: int)
      modifies this
      ensures contacts == Toggled(old(contacts), id)
      ensures isTracking == old(isTracking) && locationSharing == old(locationSharing)
      ensures autoCheckIn == old(autoCheckIn)
    {
      contacts := Toggled(contacts, id);
    }

    /** The start and stop buttons. */
    method SetTracking(on: bool)
      modifies this
      ensures isTracking == on
      ensures contacts == old(contacts) && locationSharing == old(locationSharing)
      ensures autoCheckIn == old(autoCheckIn)
    {
      isTracking := on;
    }

    /** The location-sharing switch. */
    method SetLocationSharing(on: bool)
      modifies this
      ensures locationSharing == on
      ensures contacts == old(contacts) && isTracking == old(isTracking) && autoCheckIn == old(autoCheckIn)
    {
      locationSharing := on;
    }

    /** The automatic check-in switch. */
    method SetAutoCheckIn(on: bool)
      modifies this
      ensures autoCheckIn == on
      ensures contacts == old(contacts) && isTracking == old(isTracking) && locationSharing == old(locationSharing)
    {
      autoCheckIn := on;
    }
  }
}
