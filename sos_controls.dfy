/** The Start and Stop buttons of the SOS page (components/SOSControls.tsx).
    The component has no state of its own: each click reads the contact list
    it was given and dispatches to one of the page's handlers. */
module SosControls {

  /** What a click does: call one of the page's handlers, or raise an alert. */
  datatype Action = InvokeStartTracking | InvokeStopTracking | Alert(message: string)

  const NoContactsAlert := "Please add at least one emergency contact."

  /** The Start button: tracking starts exactly when there is a contact. */
  function StartClicked(contacts: seq<string>): (a: Action)
    ensures a == InvokeStartTracking <==> |contacts| > 0
    ensures a != InvokeStartTracking ==> a == Alert(NoContactsAlert)
  {
    if |contacts| > 0 then InvokeStartTracking else Alert(NoContactsAlert)
  }

  /** The Stop button calls the page's stop handler whatever the contacts are. */
  function StopClicked(contacts: seq<string>): (a: Action)
    ensures a == InvokeStopTracking
  {
    InvokeStopTracking
  }
}
