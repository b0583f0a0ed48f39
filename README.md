# Maternal-health companion app: handler logic in Dafny

This project models the deterministic logic inside the page handlers of a
Next.js maternal-health companion app for periods and pregnancy. Its
SOS page and emergency map are the safety features, and two assistants
chat with the user. The outside services (browser
geolocation, the Overpass API, the OSRM router, the chat backend, speech
recognition, timers) become method parameters and events. What is left is
modelled and proved:

- **SOS page** (`SosPage`, `SosControls`): the emergency contact list.
  - A typed number is cleaned to its digits, and a new number is appended.
  - Each contact gets a WhatsApp deep link that carries the live location.
  - The start/stop session keeps at most one position watch.
  - Two guard flags make the links go out once after the start and then on every repeat tick.
- **Emergency map** (`EmergencySearch`, `EmergencyMap`):
  - the Overpass QL query built from the selected category's tag filters;
  - validation of the returned elements and removal of duplicate ids with JavaScript `Map` semantics;
  - the geolocation and routing error texts;
  - the page state;
  - the routing component, which keeps at most one routing control on the map.
- **Chat pages** (`Chat`, `ChatUi`, `AiAssistant`, `VisionAssistant`): an append-only transcript behind a blank-input guard, and a "new chat" action that saves the transcript into a history of "Chat k" entries.

Supporting modules:

- `Text` models the JavaScript string operations the handlers use.
- `UriComponent` models `encodeURIComponent` together with a decoder, and proves that decoding recovers the input.
- `Wrappers` holds `Option` and `Result`.

The pure parts are functions and lemmas. The component state is kept in classes, one per page:

- `SosSession`
- `EmergencyMapPage`
- `MapRouting`
- `ChatUI`
- `AiAssistantPage`
- `VisionAssistantPage`

Each handler is a method that states the whole new state. Each class keeps a `Valid()` invariant:

- contacts are distinct digit strings;
- only the remembered watch is active;
- the places shown are valid and have distinct ids;
- the map holds exactly the current routing control;
- history labels are numbered.

Coordinates are kept as the decimal text JavaScript prints for them, since they only enter strings.

## Model

| member | source | states |
|---|---|---|
| Text.KeepDigits | app/sos/page.tsx:170 | `replace(/\D/g, "")` leaves only digits and never lengthens the text |
| Text.KeepDigitsAppend | app/sos/page.tsx:170 | cleaning distributes over concatenation, so the digits keep their order |
| Text.KeepDigitsOfDigits | app/sos/page.tsx:170 | a digits-only number is left unchanged |
| Text.KeepDigitsIdempotent | app/sos/page.tsx:170 | cleaning twice equals cleaning once |
| Text.KeepDigitsEmpty | app/sos/page.tsx:170-171 | the cleaned number is empty exactly when the input has no digit |
| Text.TrimStart | components/ChatUI.tsx:41 | the result is a suffix, and everything it removed is whitespace |
| Text.TrimEnd | components/ChatUI.tsx:41 | the result is a prefix, and everything it removed is whitespace |
| Text.BlankIffAllSpace | components/ChatUI.tsx:41 | `!input.trim()` holds exactly when every character is whitespace |
| Text.NotBlankWhenVisible | components/ChatUI.tsx:41 | an input with a visible character is never rejected |
| Text.Lower | app/emergency/EmergencyMapClient.tsx:230 | `toLowerCase` keeps the length and lower-cases each character |
| Text.Contains | app/emergency/EmergencyMapClient.tsx:230 | `includes` is true exactly when the substring occurs at some position |
| Text.NatToString | components/ChatUI.tsx:75 | the decimal text of a number is a non-empty digit string, with a leading zero only for 0 |
| Text.ParseNatToString | components/ChatUI.tsx:75 | reading the decimal text back gives the number |
| Text.NatToStringInjective | components/ChatUI.tsx:75 | different numbers have different texts |
| Text.ConcatAppend | app/emergency/EmergencyMapClient.tsx:458-460 | `join("")` distributes over concatenation of the parts |
| UriComponent.Utf8 | app/sos/page.tsx:28 | each character encodes to one to four UTF-8 bytes |
| UriComponent.Utf8RoundTrip | app/sos/page.tsx:28 | decoding a character's UTF-8 bytes gives the character back |
| UriComponent.PercentBytes | app/sos/page.tsx:28 | each byte becomes three characters from `%` and the hex digits |
| UriComponent.Encode | app/sos/page.tsx:28 | `encodeURIComponent` output holds only unreserved characters and `%` |
| UriComponent.TokenizePercentBytes | app/sos/page.tsx:28 | percent-escapes are read back as the bytes they encode |
| UriComponent.TokenizeEncode | app/sos/page.tsx:28 | the encoded text splits into the literal characters and octets it was built from |
| UriComponent.DecodeCharTokens | app/sos/page.tsx:28 | one character's tokens decode to that character |
| UriComponent.DecodeEncodeTokens | app/sos/page.tsx:28 | the tokens of an encoded text decode to the text |
| UriComponent.DecodeEncode | app/sos/page.tsx:28 | decoding the encoded text gives the original text |
| UriComponent.EncodeAppend | app/sos/page.tsx:28 | encoding works character by character |
| SosControls.StartClicked | components/SOSControls.tsx:15-20 | Start invokes `startTracking` exactly when there is a contact, and otherwise raises the no-contacts alert |
| SosControls.StopClicked | components/SOSControls.tsx:27 | Stop invokes `stopTracking` whatever the contacts are |
| SosPage.LinksFor | app/sos/page.tsx:27-29 | link i is the link for contact i, one per contact |
| SosPage.WhatsAppLinks | app/sos/page.tsx:23-30 | no links without a location or without contacts; otherwise one per contact |
| SosPage.QueryStart | app/sos/page.tsx:28 | the index of the first `?` of a link |
| SosPage.QueryStartOf | app/sos/page.tsx:28 | in `number?text=...` the query starts right after the number |
| SosPage.LinkRoundTrip | app/sos/page.tsx:26-28 | a link built by `WhatsAppLink` is addressed to its number (read back by `NumberOfLink`) and its `text` parameter decodes to `SosMessage`, the SOS text with `lat,lon` (read back by `MessageOfLink`) |
| SosPage.LinksMatchContacts | app/sos/page.tsx:23-30 | link i reaches contact i with the location message, and no two links are equal |
| SosPage.SosSession.constructor | app/sos/page.tsx:12-19 | the initial state: no location, no watch, no contacts, not started |
| SosPage.SosSession.SetEmergencyNumber | app/sos/page.tsx:16 | the typed number is stored |
| SosPage.SosSession.HandleAddContact | app/sos/page.tsx:169-180 | a new cleaned number is appended and the input cleared; an empty one alerts and changes nothing; a duplicate alerts and clears the input; the contacts stay distinct digit strings |
| SosPage.SosSession.StartTracking | app/sos/page.tsx:125-152 | the previous watch is cleared before the new one is registered, so exactly one watch is active; without geolocation the session stays stopped |
| SosPage.SosSession.StopTracking | app/sos/page.tsx:154-165 | no watch, not started, no location, initial broadcast flag reset |
| SosPage.SosSession.OnPosition | app/sos/page.tsx:132-139 | only an active watch updates the location |
| SosPage.SosSession.OnWatchError | app/sos/page.tsx:140-143 | a watch error raises an alert with the browser's message and changes nothing |
| SosPage.SosSession.InitialBroadcast | app/sos/page.tsx:75-88 | when due (`InitialBroadcastDue`: started, located, a contact, not yet sent), the links for every contact go out once and the flag is set, after which the repeat guard holds; otherwise nothing is sent |
| SosPage.SosSession.RepeatBroadcast | app/sos/page.tsx:103-116 | when due (`RepeatBroadcastDue`: the first broadcast done, started, located, a contact), the links for every contact go out, with no state change |
| SosPage.SosSession.StartButton | components/SOSControls.tsx:15-20 | with a contact, the effects of `startTracking`: with geolocation the session runs with the single new watch and no alert, without it the geolocation alert and no watch change; with no contacts the no-contacts alert and no change; the contacts never change |
| SosPage.SosSession.StopButton | components/SOSControls.tsx:27 | a click on Stop always stops the session and leaves the contacts alone |
| EmergencySearch.FindType | app/emergency/EmergencyMapClient.tsx:446-448 | the category with the selected key, or none exactly when no category has it |
| EmergencySearch.QueryParts | app/emergency/EmergencyMapClient.tsx:454-457 | one part per tag filter, part i being the node, way and relation clause of filter i, as `queryTags.map` gives |
| EmergencySearch.QueryIsClauses | app/emergency/EmergencyMapClient.tsx:450-460 | the query `OverpassQuery` builds is the header, the node, way and relation clause of each tag filter in order (3 per filter) with `(around:10000,lat,lon)`, and the footer |
| EmergencySearch.ConcatThree | app/emergency/EmergencyMapClient.tsx:458-460 | joining three parts and the rest equals the three parts followed by the joined rest |
| EmergencySearch.Clauses | app/emergency/EmergencyMapClient.tsx:454-457 | there are 3 × (number of tag filters) clauses |
| EmergencySearch.FilterAsWritten | app/emergency/EmergencyMapClient.tsx:493-525 | the filter as written (the predicate `KeepAsWritten` per element) throws exactly when some element is `null` or `undefined` |
| EmergencySearch.Filter | app/emergency/EmergencyMapClient.tsx:493-525 | every kept element is valid and comes from the input, and every valid element is kept; valid (`Keep`) means a numeric id, a node/way/relation type, non-empty tags and a numeric location |
| EmergencySearch.FilterAllOrNone | app/emergency/EmergencyMapClient.tsx:493-525 | a list of valid elements passes unchanged and a list without one gives nothing, so one element is kept exactly when it is valid |
| EmergencySearch.FilterAppend | app/emergency/EmergencyMapClient.tsx:493-525 | filtering a concatenation concatenates the filtered parts; with `FilterAllOrNone` the result is the valid elements in their original order and number |
| EmergencySearch.NullElementAbortsSearch | app/emergency/EmergencyMapClient.tsx:496-521 | one `null` element makes the whole search fail under the filter as written, while the corrected filter drops it |
| EmergencySearch.FilterAgreesWithoutNull | app/emergency/EmergencyMapClient.tsx:493-525 | without nullish elements the corrected filter gives what the source gives |
| EmergencySearch.ToPlaces | app/emergency/EmergencyMapClient.tsx:527-529 | one place per kept element, in order, whose id is the element's numeric `id` |
| EmergencySearch.ValidPlaces | app/emergency/EmergencyMapClient.tsx:493-525 | as written: a missing or null `elements` gives no places; a null response or an `elements` that is not an array is an error (a nullish element is one too, by `ValidPlacesKeepsEveryValid`); every place is a valid element |
| EmergencySearch.ValidPlacesKeepsEveryValid | app/emergency/EmergencyMapClient.tsx:493-525 | for an `elements` array, the read succeeds exactly when no element is nullish, and then gives the corrected filter's places, one for every valid element |
| EmergencySearch.PlacesOfEveryValid | app/emergency/EmergencyMapClient.tsx:493-529 | every valid element of the array has its place among the filtered places |
| EmergencySearch.FirstIndex | app/emergency/EmergencyMapClient.tsx:527-529 | the first position of an id, or none when the id is absent |
| EmergencySearch.LastIndex | app/emergency/EmergencyMapClient.tsx:527-529 | the last position of an id, or none when the id is absent |
| EmergencySearch.UniqueById | app/emergency/EmergencyMapClient.tsx:527-529 | de-duplication never lengthens the list |
| EmergencySearch.UniqueByIdIsUnique | app/emergency/EmergencyMapClient.tsx:527-529 | no id twice, every input id kept, each entry the last element with its id, entries in order of first occurrence |
| EmergencySearch.UniqueByIdIds | app/emergency/EmergencyMapClient.tsx:527-529 | the de-duplicated ids are distinct and the same set as the input's |
| EmergencySearch.MapSetReplaces | app/emergency/EmergencyMapClient.tsx:527-529 | `Map.set` on a known id replaces the entry in place |
| EmergencySearch.MapSetAppends | app/emergency/EmergencyMapClient.tsx:527-529 | `Map.set` on a new id appends an entry |
| EmergencySearch.FetchErrorMessage | app/emergency/EmergencyMapClient.tsx:544-548 | a thrown error's message is shown, or the unknown-error text when it is empty |
| EmergencySearch.HttpFailureMessage | app/emergency/EmergencyMapClient.tsx:469-478 | the text starts with "Overpass API request failed: ", the status, the status text and ". ", and goes on with the first min(150, length) characters of the body, or of the placeholder when the body cannot be read |
| EmergencySearch.GeoErrorMessage | app/emergency/EmergencyMapClient.tsx:411-426 | the code's reason sits between "Could not get your location." and " Showing default location." |
| EmergencySearch.GeoErrorReason | app/emergency/EmergencyMapClient.tsx:413-424 | code 1 gives " Permission denied.", 2 " Position unavailable.", 3 " Request timed out.", any other code " An unknown error occurred." |
| EmergencySearch.GeoErrorMessagesDistinct | app/emergency/EmergencyMapClient.tsx:413-424 | the three known error codes give three different texts, all different from the unknown-code text |
| EmergencySearch.RoutingErrorText | app/emergency/EmergencyMapClient.tsx:225 | a present non-empty message is kept; a missing or empty one becomes "Unknown routing error" |
| EmergencySearch.UserRouteMessage | app/emergency/EmergencyMapClient.tsx:228-240 | "could not find route" (any case) or status 207 gives the unreachable text; otherwise "bounds are not valid" gives the invalid-bounds text; otherwise `Routing failed: <text>.`; the retry hint is always appended |
| EmergencySearch.RouteErrorMessage | app/emergency/EmergencyMapClient.tsx:225-240 | the classification of `UserRouteMessage` applied to the event's message, or to "Unknown routing error" when it has none |
| EmergencyMap.OverpassUrlCarriesQuery | app/emergency/EmergencyMapClient.tsx:462-464 | the `data` parameter of the URL `OverpassUrl` builds holds no `?`, `&` or `=` and decodes to the query |
| EmergencyMap.ParameterValue | app/emergency/EmergencyMapClient.tsx:462-464 | a text encoded after a URL prefix adds no `?`, `&` or `=` and decodes back to the text |
| EmergencyMap.UniquePlacesValid | app/emergency/EmergencyMapClient.tsx:527-530 | de-duplicated valid places are a valid place list |
| EmergencyMap.Report | app/emergency/EmergencyMapClient.tsx:493-549 | whatever the outcome, the places it leaves are validated elements with distinct ids |
| EmergencyMap.ResponseReport | app/emergency/EmergencyMapClient.tsx:493-537 | the places a delivered response leaves are validated elements with distinct ids |
| EmergencyMap.ReportOutcomes | app/emergency/EmergencyMapClient.tsx:469-549 | a timeout, a failure, an HTTP error or a response the code cannot read (including one with a nullish element) gives no places and its notice; a response gives its valid elements de-duplicated, with the no-places notice (`NoPlacesMessage`) exactly when none remain |
| EmergencyMap.EmergencyMapPage.constructor | app/emergency/EmergencyMapClient.tsx:343-355 | the initial state: no location, the first category selected, loading |
| EmergencyMap.EmergencyMapPage.Notice | app/emergency/EmergencyMapClient.tsx:606-612 | the banner shows the route error in preference to the general error, and nothing when both are empty |
| EmergencyMap.EmergencyMapPage.Mount | app/emergency/EmergencyMapClient.tsx:388-399 | both errors and the destination are cleared; without geolocation the default location and its notice are set at once |
| EmergencyMap.EmergencyMapPage.OnPosition | app/emergency/EmergencyMapClient.tsx:402-409 | the position becomes the location and the error is cleared |
| EmergencyMap.EmergencyMapPage.OnGeoError | app/emergency/EmergencyMapClient.tsx:410-428 | the default location is used and the error text for the code is shown |
| EmergencyMap.EmergencyMapPage.SelectType | app/emergency/EmergencyMapClient.tsx:629-634 | a category is selected unless a search is running |
| EmergencyMap.EmergencyMapPage.BeginFetch | app/emergency/EmergencyMapClient.tsx:434-465 | without a location nothing happens; otherwise places, the destination and the route error are cleared and the query URL for the selected category is returned, or the invalid-type error set |
| EmergencyMap.EmergencyMapPage.CompleteFetch | app/emergency/EmergencyMapClient.tsx:469-552 | the places and notice are those of `Report` for the outcome, and the search is no longer running |
| EmergencyMap.EmergencyMapPage.HandleShowRoute | app/emergency/EmergencyMapClient.tsx:559-571 | without a location an error is set and the destination kept; otherwise the destination is set and both errors cleared |
| EmergencyMap.EmergencyMapPage.HandleClearRoute | app/emergency/EmergencyMapClient.tsx:573-576 | the destination and the route error are cleared |
| EmergencyMap.EmergencyMapPage.HandleRouteError | app/emergency/EmergencyMapClient.tsx:578-580 | the route error is recorded |
| EmergencyMap.EmergencyMapPage.RouteFailedAsWritten | app/emergency/EmergencyMapClient.tsx:176-180 | `onRouteError` followed by `onRouteClear` leaves no route error, so the banner never shows it |
| EmergencyMap.EmergencyMapPage.RouteFailed | app/emergency/EmergencyMapClient.tsx:176-180 | as intended: a failed route drops the destination and keeps its error on the banner with the "Clear Route Attempt" button (`ShowsClearRoute`, lines 606-623) |
| EmergencyMap.RoutingControl.constructor | app/emergency/EmergencyMapClient.tsx:191-192 | a control between the start and the destination |
| EmergencyMap.MapRouting.constructor | app/emergency/EmergencyMapClient.tsx:130 | no control at first |
| EmergencyMap.MapRouting.RemoveCurrent | app/emergency/EmergencyMapClient.tsx:151-161 | the current control leaves the map and the slot is emptied |
| EmergencyMap.MapRouting.Effect | app/emergency/EmergencyMapClient.tsx:132-311 | nothing without a map or a location; no destination removes the control; a new destination replaces the old control by a fresh one between the location and the destination; invalid or too-close coordinates remove the control and call `onRouteError` then `onRouteClear`, which leaves neither a destination nor a route error; no other page field changes |
| EmergencyMap.MapRouting.Cleanup | app/emergency/EmergencyMapClient.tsx:313-328 | the control is removed |
| EmergencyMap.MapRouting.OnRoutingError | app/emergency/EmergencyMapClient.tsx:220-254 | the classified error is reported, the control removed and the route cleared, which leaves neither a destination nor a route error; no other page field changes |
| EmergencyMap.MapRouting.OnRoutesFound | app/emergency/EmergencyMapClient.tsx:255-307 | a complete route changes nothing; an incomplete one reports its error, removes the control and clears the route, which leaves no route error; no other page field changes |
| Chat.ChatTitle | components/ChatUI.tsx:75 | the label is "Chat " followed by the digits of the number |
| Chat.ChatTitleInjective | components/ChatUI.tsx:75 | labels are equal exactly when their numbers are |
| Chat.Texts | components/ChatUI.tsx:76 | the texts of the messages, in order |
| Chat.OldestFirstTopicsDistinct | components/ChatUI.tsx:72-78 | a history numbered from the oldest has no repeated label |
| Chat.NewestFirstLabelsDistinct | app/vision_assistant/page.tsx:35-38 | a history numbered from the newest has no repeated label, and the newest comes first |
| ChatUi.ReplyText | components/ChatUI.tsx:60-67 | the reply's text on success, the apology on failure |
| ChatUi.ChatUI.constructor | components/ChatUI.tsx:32-36 | empty transcript, input and history, no request waiting for its answer |
| ChatUi.ChatUI.SetInput | components/ChatUI.tsx:107-110 | the input is replaced |
| ChatUi.ChatUI.SendMessage | components/ChatUI.tsx:40-48 | a blank input changes nothing; otherwise the untrimmed input is appended as a user message, cleared, and posted, and one more answer is awaited |
| ChatUi.ChatUI.ReceiveReply | components/ChatUI.tsx:48-68 | only for a posted request: exactly one AI message is appended, the reply or the apology, and one fewer answer is awaited |
| ChatUi.ChatUI.NewChat | components/ChatUI.tsx:71-80 | "Chat k+1" and the message texts are appended to the history, even for an empty transcript, and the transcript is emptied |
| ChatUi.ChatUI.StartListening | components/ChatUI.tsx:88-92 | the unsupported-browser alert is raised exactly when speech recognition is missing |
| AiAssistant.AiAssistantPage.constructor | app/ai_assistant/page.tsx:12-18 | empty transcript, input and history, not listening |
| AiAssistant.AiAssistantPage.SetInput | app/ai_assistant/page.tsx:15 | the input is replaced |
| AiAssistant.AiAssistantPage.SendMessage | app/ai_assistant/page.tsx:20-24 | a blank input changes nothing; otherwise the input is appended as a user message, cleared, and a reply scheduled |
| AiAssistant.AiAssistantPage.OnReplyTimer | app/ai_assistant/page.tsx:25-33 | the canned reply is appended as an AI message |
| AiAssistant.AiAssistantPage.NewChat | app/ai_assistant/page.tsx:36-42 | "Chat k+1" and the message texts are appended to the history, even for an empty transcript, and the transcript is emptied |
| AiAssistant.AiAssistantPage.StartListening | app/ai_assistant/page.tsx:50-54 | the unsupported-browser alert is raised exactly when speech recognition is missing |
| AiAssistant.AiAssistantPage.OnRecognitionStart | app/ai_assistant/page.tsx:60 | listening becomes true |
| AiAssistant.AiAssistantPage.OnRecognitionEnd | app/ai_assistant/page.tsx:61 | listening becomes false |
| AiAssistant.AiAssistantPage.OnRecognitionResult | app/ai_assistant/page.tsx:62-65 | the transcript replaces the input |
| VisionAssistant.VisionAssistantPage.constructor | app/vision_assistant/page.tsx:12-17 | empty transcript, input and history |
| VisionAssistant.VisionAssistantPage.SetInput | app/vision_assistant/page.tsx:15 | the input is replaced |
| VisionAssistant.VisionAssistantPage.SendMessage | app/vision_assistant/page.tsx:20-24 | a blank input changes nothing; otherwise the input is appended as a user text message, cleared, and a reply scheduled |
| VisionAssistant.VisionAssistantPage.OnReplyTimer | app/vision_assistant/page.tsx:25-30 | the canned reply is appended as an AI message |
| VisionAssistant.VisionAssistantPage.StartNewChat | app/vision_assistant/page.tsx:33-41 | only a non-empty transcript puts "Chat k+1" at the front of the history, newest first; the transcript is always emptied |
| VisionAssistant.VisionAssistantPage.OnImageLoaded | app/vision_assistant/page.tsx:52-54 | a user message with the image and no text is appended |

## Left out

- Floating point. Coordinates are kept as the decimal text JavaScript prints for them. The NaN test and `distanceTo(...) < 1` of the routing effect are boolean parameters of `MapRouting.Effect`.
- Leaflet, react-leaflet and OSRM. Map rendering, markers, icons, popups, `fitBounds` and the view centre are not modelled. A routing control is an object in a one-slot field, and the router's answers arrive as `OnRoutingError` and `OnRoutesFound`.
- The network. These requests are not made:
  - the Overpass `fetch` and its abort signal;
  - the `/api/chat` request and `app/api/chat/route.ts`;
  - Google Places in `app/emergency/page.tsx`.

  Their results are the `FetchOutcome` and `Reply` parameters.
- Timers and React scheduling. The 3-second and 5-second SOS timers are the methods `InitialBroadcast` and `RepeatBroadcast`, which check the guards; the one-second chat replies are `OnReplyTimer`. Effect re-runs and batched state updates are left to the caller.
- EmergencyMap.EmergencyMapPage.BeginFetch: `fetchMedicalPlaces` is split at its `await`. The delay between the two halves is not modelled, nor the run of the effect whenever location or category changes. `CompleteFetch` takes one outcome per `BeginFetch`, so overlapping searches, where the later response would win, are not modelled; the category buttons are disabled while a search runs.
- ChatUi.ChatUI.SendMessage: the `await` splits the handler into `SendMessage` and `ReceiveReply`. A response whose `text` is missing or not a string is not modelled.
- Browser APIs become events in and actions out: geolocation, speech recognition, FileReader, the camera, `navigator.vibrate`, the alert audio with its three-play cap, `window.open` and `alert`.
- UriComponent.Encode: a lone surrogate cannot occur in a Dafny string. The URIError that `encodeURIComponent` throws for one is therefore not modelled.
- Text.Lower: folds only the ASCII letters, while `toLowerCase` folds all of Unicode. Both routing keywords and all category names are ASCII.
- EmergencySearch.HttpFailureMessage: `substring(0, 150)` counts UTF-16 code units. The model counts characters, which differs only for characters outside the Basic Multilingual Plane.
- EmergencySearch.Value: JSON numbers are rationals, so NaN and the infinities do not occur. A `tags` value is checked for own keys only when it is an object or an array. A missing member and `null` are the only nullish values.
- The engine's own message for a TypeError thrown while reading the response is the parameter `typeErrorText`.
- Authentication (`middleware.ts`, `components/ProtectedPage.tsx`) and the purely presentational components hold no handler logic. The sidebar toggle (`showSidebar`) is also outside the model.
- `components/LocationDisplay.tsx` is not part of this model.

## Findings

The page members follow the code as written: `MapRouting.Effect`, `OnRoutingError` and `OnRoutesFound` call `onRouteError` and then `onRouteClear`, and `ValidPlaces`, `Report` and `CompleteFetch` read the response with `FilterAsWritten`. The corrected members state the intended behaviour beside them. When the filter as written succeeds, its result is the corrected filter's.

| source | as written | input that shows it | evidently intended | confidence | as-written member | corrected member |
|---|---|---|---|---|---|---|
| app/emergency/EmergencyMapClient.tsx:176-180 | each failure path calls `onRouteError(msg)` and then `onRouteClear()`, which sets `lastRouteError` back to null; the same happens at lines 184-188, 240-253 and 291-305 | a destination with invalid or too-close coordinates, or any OSRM routing error | the failure text stays on the banner while the route is dropped (the banner and its "Clear Route Attempt" button exist for it) | not executed | EmergencyMap.EmergencyMapPage.RouteFailedAsWritten | EmergencyMap.EmergencyMapPage.RouteFailed |
| app/emergency/EmergencyMapClient.tsx:496-521 | the first three checks guard with `place &&`, but the location check reads `place.lat` unguarded, so a `null` element throws a TypeError and the whole search fails | an Overpass response whose `elements` holds a valid element and a `null` | a nullish element is dropped like any other invalid element | not executed | EmergencySearch.FilterAsWritten | EmergencySearch.Filter |
