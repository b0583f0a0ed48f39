/** The SOS page (app/sos/page.tsx): a de-duplicated list of emergency
    numbers, one WhatsApp link per number carrying the live location, and the
    start/stop session whose effects open the links once after the start and
    then again on every repeat tick. Timers, vibration, audio and the browser
    windows are outside the model: the effect callbacks are methods that
    return the links they would open. */
module SosPage {
  import opened Wrappers
  import opened Text
  import UriComponent
  import SosControls

  /** A geolocation fix; each coordinate is kept as the decimal text
      JavaScript renders for it, which is all the page uses it for. */
  datatype Position = Position(lat: string, lon: string)

  const InvalidNumberAlert := "Please enter a valid number."
  const DuplicateAlert := "Contact already added."
  const NoGeolocationAlert := "Geolocation is not supported by your browser."
  const WatchErrorPrefix := "Unable to retrieve location updates: "

  // ---------------------------------------------------------------------------
  // Contacts
  // ---------------------------------------------------------------------------

  /** What the page keeps for every contact list it builds: distinct,
      non-empty strings of digits. */
  predicate ValidContacts(contacts: seq<string>) {
    && (forall i :: 0 <= i < |contacts| ==> contacts[i] != [] && AllDigits(contacts[i]))
    && (forall i, j :: 0 <= i < j < |contacts| ==> contacts[i] != contacts[j])
  }

  // ---------------------------------------------------------------------------
  // WhatsApp links
  // ---------------------------------------------------------------------------

  const MessagePrefix := "🚨 Emergency! I am in danger. Here's my live location: https://maps.google.com/?q="
  const LinkPrefix := "https://wa.me/"
  const TextParameter := "?text="

  /** The text sent to every contact: a maps link to `lat,lon`. */
  function SosMessage(p: Position): string {
    MessagePrefix + p.lat + "," + p.lon
  }

  function WhatsAppLink(number: string, p: Position): string {
    LinkPrefix + number + TextParameter + UriComponent.Encode(SosMessage(p))
  }

  /** `contacts.map(number => link)`. */
  function LinksFor(contacts: seq<string>, p: Position): (links: seq<string>)
    ensures |links| == |contacts|
    ensures forall i :: 0 <= i < |contacts| ==> links[i] == WhatsAppLink(contacts[i], p)
  {
    if contacts == [] then [] else [WhatsAppLink(contacts[0], p)] + LinksFor(contacts[1..], p)
  }

  /** `getWhatsAppLinks`: no links without a location or without contacts,
      otherwise one per contact, in contact order. */
  function WhatsAppLinks(location: Option<Position>, contacts: seq<string>): (links: seq<string>)
    ensures location.None? || contacts == [] ==> links == []
    ensures location.Some? ==> |links| == |contacts|
  {
    if location.None? || contacts == [] then [] else LinksFor(contacts, location.value)
  }

  /** The index of the first `?` of `s`, or `|s|` when there is none. */
  function QueryStart(s: string): (k: nat)
    ensures k <= |s| && (k < |s| ==> s[k] == '?')
    ensures forall i :: 0 <= i < k ==> s[i] != '?'
  {
    if s == [] || s[0] == '?' then 0 else 1 + QueryStart(s[1..])
  }

  /** The phone number a `https://wa.me/<number>?...` link is addressed to,
      as the recipient reads it. */
  function NumberOfLink(link: string): Option<string> {
    if |LinkPrefix| <= |link| && link[..|LinkPrefix|] == LinkPrefix then
      var path := link[|LinkPrefix|..];
      Some(path[..QueryStart(path)])
    else None
  }

  /** The decoded `text` parameter of a link, as the recipient reads it. */
  function MessageOfLink(link: string): Option<string> {
    if |LinkPrefix| <= |link| && link[..|LinkPrefix|] == LinkPrefix then
      var path := link[|LinkPrefix|..];
      var query := path[QueryStart(path)..];
      if |TextParameter| <= |query| && query[..|TextParameter|] == TextParameter then
        UriComponent.Decode(query[|TextParameter|..])
      else None
    else None
  }

  lemma {:induction false} QueryStartOf(a: string, b: string)
    requires forall i :: 0 <= i < |a| ==> a[i] != '?'
    requires b != [] && b[0] == '?'
    ensures QueryStart(a + b) == |a|
  {
    if a == [] {
      assert a + b == b;
    } else {
      assert (a + b)[1..] == a[1..] + b;
      QueryStartOf(a[1..], b);
    }
  }

  /** A link built for a number is addressed to that number and carries
      the SOS message for the position. */
  lemma {:induction false} LinkRoundTrip(number: string, p: Position)
    requires AllDigits(number)
    ensures NumberOfLink(WhatsAppLink(number, p)) == Some(number)
    ensures MessageOfLink(WhatsAppLink(number, p)) == Some(SosMessage(p))
  {
    var encoded := UriComponent.Encode(SosMessage(p));
    var link := WhatsAppLink(number, p);
    assert link == LinkPrefix + (number + (TextParameter + encoded));
    assert link[|LinkPrefix|..] == number + (TextParameter + encoded);
    var path := number + (TextParameter + encoded);
    assert forall i :: 0 <= i < |number| ==> IsDigit(number[i]);
    QueryStartOf(number, TextParameter + encoded);
    assert path[..|number|] == number;
    assert path[|number|..] == TextParameter + encoded;
    assert (TextParameter + encoded)[|TextParameter|..] == encoded;
    UriComponent.DecodeEncode(SosMessage(p));
  }

  /** The links match the contacts one-to-one and in order: link `i` is
      addressed to contact `i` and carries the message for the location,
      and no two links are equal. */
  lemma {:induction false} LinksMatchContacts(location: Option<Position>, contacts: seq<string>)
    requires ValidContacts(contacts) && location.Some?
    ensures |WhatsAppLinks(location, contacts)| == |contacts|
    ensures forall i :: 0 <= i < |contacts| ==>
              NumberOfLink(WhatsAppLinks(location, contacts)[i]) == Some(contacts[i])
              && MessageOfLink(WhatsAppLinks(location, contacts)[i]) == Some(SosMessage(location.value))
    ensures forall i, j :: 0 <= i < j < |contacts| ==>
              WhatsAppLinks(location, contacts)[i] != WhatsAppLinks(location, contacts)[j]
  {
    var links := WhatsAppLinks(location, contacts);
    forall i | 0 <= i < |contacts|
      ensures NumberOfLink(links[i]) == Some(contacts[i])
      ensures MessageOfLink(links[i]) == Some(SosMessage(location.value))
    {
      LinkRoundTrip(contacts[i], location.value);
    }
  }

  // ---------------------------------------------------------------------------
  // Broadcast guards of the two effects
  // ---------------------------------------------------------------------------

  /** The condition under which the 3-second effect opens the links. */
  predicate InitialBroadcastDue(started: bool, location: Option<Position>, contacts: seq<string>, clickDone: bool) {
    started && location.Some? && |contacts| > 0 && !clickDone
  }

  /** The condition under which the 5-second interval opens the links. */
  predicate RepeatBroadcastDue(started: bool, location: Option<Position>, contacts: seq<string>, clickDone: bool) {
    clickDone && started && location.Some? && |contacts| > 0
  }

  // ---------------------------------------------------------------------------
  // The page's state
  // ---------------------------------------------------------------------------

  /** The component state of the SOS page. `activeWatches` stands for the
      position watches the browser holds for the page. */
  class SosSession {
    var location: Option<Position>
    var watchId: Option<nat>
    var emergencyNumber: string
    var emergencyContacts: seq<string>
    var sosStarted: bool
    var initialClickDone: bool
    var activeWatches: set<nat>

    /** Contacts are distinct digit strings, and the only watch the browser
        holds is the one the page remembers. */
    ghost predicate Valid()
      reads this
    {
      && ValidContacts(emergencyContacts)
      && activeWatches == (if watchId.Some? then {watchId.value} else {})
    }

    constructor ()
      ensures Valid()
      ensures location == None && watchId == None && emergencyNumber == []
      ensures emergencyContacts == [] && !sosStarted && !initialClickDone
      ensures activeWatches == {}
    {
      location := None;
      watchId := None;
      emergencyNumber := [];
      emergencyContacts := [];
      sosStarted := false;
      initialClickDone := false;
      activeWatches := {};
    }

    /** The number field's `onChange`. */
    method SetEmergencyNumber(text: string)
      requires Valid()
      modifies this`emergencyNumber
      ensures Valid() && emergencyNumber == text
    {
      emergencyNumber := text;
    }

    /** `handleAddContact`: clean the typed number, then append it if it is
        new, reject it if it is empty, and drop it if it is a duplicate. */
    method HandleAddContact() returns (alert: Option<string>)
      requires Valid()
      modifies this`emergencyContacts, this`emergencyNumber
      ensures Valid()
      ensures var cleaned := KeepDigits(old(emergencyNumber));
        if cleaned == [] then
          alert == Some(InvalidNumberAlert)
          && emergencyContacts == old(emergencyContacts) && emergencyNumber == old(emergencyNumber)
        else if cleaned in old(emergencyContacts) then
          alert == Some(DuplicateAlert)
          && emergencyContacts == old(emergencyContacts) && emergencyNumber == []
        else
          alert == None
          && emergencyContacts == old(emergencyContacts) + [cleaned] && emergencyNumber == []
    {
      var cleaned := KeepDigits(emergencyNumber);
      if cleaned != [] && cleaned !in emergencyContacts {
        emergencyContacts := emergencyContacts + [cleaned];
        emergencyNumber := [];
        alert := None;
      } else if cleaned == [] {
        alert := Some(InvalidNumberAlert);
      } else {
        alert := Some(DuplicateAlert);
        emergencyNumber := [];
      }
    }

    /** `startTracking`: drop the previous watch, mark the session started
        and register a new watch, whose id the browser hands back as
        `newWatch`. Without geolocation the session stays stopped. */
    method StartTracking(geolocationSupported: bool, newWatch: nat) returns (alert: Option<string>)
      requires Valid()
      modifies this`sosStarted, this`watchId, this`activeWatches
      ensures Valid()
      ensures geolocationSupported ==>
        alert == None && sosStarted && watchId == Some(newWatch) && activeWatches == {newWatch}
      ensures !geolocationSupported ==>
        alert == Some(NoGeolocationAlert) && !sosStarted
        && watchId == old(watchId) && activeWatches == old(activeWatches)
    {
      if geolocationSupported {
        if watchId.Some? {
          activeWatches := activeWatches - {watchId.value};
        }
        sosStarted := true;
        activeWatches := activeWatches + {newWatch};
        watchId := Some(newWatch);
        alert := None;
      } else {
        alert := Some(NoGeolocationAlert);
        sosStarted := false;
      }
    }

    /** `stopTracking`: clear the watch and reset the session. */
    method StopTracking()
      requires Valid()
      modifies this`watchId, this`activeWatches, this`sosStarted, this`location, this`initialClickDone
      ensures Valid()
      ensures watchId == None && activeWatches == {}
      ensures !sosStarted && location == None && !initialClickDone
    {
      if watchId.Some? {
        activeWatches := activeWatches - {watchId.value};
        watchId := None;
      }
      sosStarted := false;
      location := None;
      initialClickDone := false;
    }

    /** The success callback of a position watch: only a watch the browser
        still holds delivers positions. */
    method OnPosition(watch: nat, p: Position)
      requires Valid()
      modifies this`location
      ensures Valid()
      ensures location == if watch in activeWatches then Some(p) else old(location)
    {
      if watch in activeWatches {
        location := Some(p);
      }
    }

    /** The error callback of a position watch: an alert, and no change. */
    method OnWatchError(message: string) returns (alert: string)
      requires Valid()
      ensures alert == WatchErrorPrefix + message
    {
      alert := WatchErrorPrefix + message;
    }

    /** The 3-second timeout of the first effect: open every link once and
        remember that the initial broadcast happened. */
    method InitialBroadcast() returns (links: seq<string>)
      requires Valid()
      modifies this`initialClickDone
      ensures Valid()
      ensures old(InitialBroadcastDue(sosStarted, location, emergencyContacts, initialClickDone)) ==>
        links == WhatsAppLinks(location, emergencyContacts) && |links| == |emergencyContacts| > 0
        && initialClickDone
        && RepeatBroadcastDue(sosStarted, location, emergencyContacts, initialClickDone)
      ensures !old(InitialBroadcastDue(sosStarted, location, emergencyContacts, initialClickDone)) ==>
        links == [] && initialClickDone == old(initialClickDone)
    {
      if InitialBroadcastDue(sosStarted, location, emergencyContacts, initialClickDone) {
        links := WhatsAppLinks(location, emergencyContacts);
        initialClickDone := true;
      } else {
        links := [];
      }
    }

    /** One tick of the 5-second interval of the second effect. */
    method RepeatBroadcast() returns (links: seq<string>)
      requires Valid()
      ensures RepeatBroadcastDue(sosStarted, location, emergencyContacts, initialClickDone) ==>
        links == WhatsAppLinks(location, emergencyContacts) && |links| == |emergencyContacts| > 0
      ensures !RepeatBroadcastDue(sosStarted, location, emergencyContacts, initialClickDone) ==>
        links == []
    {
      if RepeatBroadcastDue(sosStarted, location, emergencyContacts, initialClickDone) {
        links := WhatsAppLinks(location, emergencyContacts);
      } else {
        links := [];
      }
    }

    /** A click on Start in the controls: tracking starts only when a
        contact exists, and the contact list is never touched. */
    method StartButton(geolocationSupported: bool, newWatch: nat) returns (alert: Option<string>)
      requires Valid()
      modifies this`sosStarted, this`watchId, this`activeWatches
      ensures Valid()
      ensures emergencyContacts == old(emergencyContacts)
      ensures |emergencyContacts| == 0 ==>
        alert == Some(SosControls.NoContactsAlert) && sosStarted == old(sosStarted)
        && watchId == old(watchId) && activeWatches == old(activeWatches)
      ensures |emergencyContacts| > 0 && geolocationSupported ==>
        alert == None && sosStarted && watchId == Some(newWatch) && activeWatches == {newWatch}
      ensures |emergencyContacts| > 0 && !geolocationSupported ==>
        alert == Some(NoGeolocationAlert) && !sosStarted
        && watchId == old(watchId) && activeWatches == old(activeWatches)
      ensures sosStarted && !old(sosStarted) ==> |emergencyContacts| > 0
    {
      match SosControls.StartClicked(emergencyContacts)
      case InvokeStartTracking =>
        alert := StartTracking(geolocationSupported, newWatch);
      case Alert(message) =>
        alert := Some(message);
      case InvokeStopTracking =>
        assert false;
    }

    /** A click on Stop in the controls always stops the session. */
    method StopButton()
      requires Valid()
      modifies this`watchId, this`activeWatches, this`sosStarted, this`location, this`initialClickDone
      ensures Valid()
      ensures emergencyContacts == old(emergencyContacts)
      ensures watchId == None && activeWatches == {}
      ensures !sosStarted && location == None && !initialClickDone
    {
      var action := SosControls.StopClicked(emergencyContacts);
      assert action == SosControls.InvokeStopTracking;
      StopTracking();
    }
  }
}
