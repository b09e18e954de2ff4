# Volunteer events app: a Dafny model of the screen logic

The app is a mobile client for volunteer events on a map. It is a thin layer
over a REST API and an image host. What it decides for itself is held in
three screens, and this project models those three:

- **Event details** (`event_details.dfy`, module `EventDetails`). The screen keeps two pieces of state: the volunteer ids and the number of remaining spots. Both start from the event being shown. A press of the Volunteer button has three outcomes:
  - "Thank you for volunteering": the id is appended and one spot is taken.
  - "Already volunteered": nothing changes.
  - "Event is full": nothing changes.

  The status line and the rule that renders the Volunteer button are functions of that state. The class `EventDetailsScreen` holds the state. The pure function `Volunteer` specifies one press, and the lemmas prove the capacity accounting over any series of presses.
- **Create event** (`create_event.dfy`, module `CreateEvent`). The form has seven text inputs, plus the uploaded image URL and its details. `isFormValid` is a presence check that enables the Save button. The file name shown for a picked image is the part of the URI after its last `/`. On save, the date and time are joined into `dateTime` and a new event record is sent. The class `CreateEventScreen` holds the form. Permission, the picker, the upload and the create request are parameters of its methods: each one either gives a value or fails.
- **Events map** (`events_map.dfy`, module `EventsMap`). A fetch keeps the events whose time is at or after now, in fetched order. A successful fetch replaces the shown list; a failed fetch leaves it as it was. The footer prints how many events are shown. The class `EventsMapScreen` holds the list. Date parsing is a parameter `timestamp: string -> Option<int>`, where `None` stands for an unparsable date (JavaScript's NaN). The clock is the integer `now`.

`event_types.dfy` holds the `Event` record of `src/types/Event.ts`. Its `id` and `imageUrl` are optional, and its position is an opaque type because its fields are floats. `decimal.dfy` models how the screens print integers in template strings. It also proves that a printed count reads back as the same number.

The presence check (src/pages/EventDetails.tsx:32,37) comes before the capacity check, so a user already on the list gets "Already volunteered" even when the event is full (`Volunteer`). The Volunteer button exists only while spots remain (src/pages/EventDetails.tsx:97), so a press of the button never ends in "Event is full", and while the button is hidden no press could change the state (`ButtonGuardsVolunteer`).

## Model

| member | source | states |
|---|---|---|
| EventDetails.InitialSignup | src/pages/EventDetails.tsx:19-20 | The starting ids are the event's own list, and remaining spots plus listed volunteers equals the event's capacity. |
| EventDetails.Volunteer | src/pages/EventDetails.tsx:30-42 | Success iff spots remain and the id is absent. "Already volunteered" iff the id is present, even when full. "Event is full" iff no spots remain and the id is absent. On success the id is appended at the end, spots drop by exactly one and stay at or above zero. Otherwise the state is unchanged. Spots plus ids is preserved, spots never grow, and a duplicate-free list stays duplicate-free. |
| EventDetails.EventStatus | src/pages/EventDetails.tsx:22-28 | The status is "Team is full" iff no spots remain. Otherwise it is "<ids count> of <capacity> Volunteer(s) needed". |
| EventDetails.ButtonMatchesStatus | src/pages/EventDetails.tsx:22-28 | The Volunteer button is shown iff the status line is not "Team is full". |
| EventDetails.VolunteerButtonShown | src/pages/EventDetails.tsx:97 | The Volunteer button is rendered iff spots remain. |
| EventDetails.ButtonGuardsVolunteer | src/pages/EventDetails.tsx:97-105 | While the button is shown (spots remain), no press by any user yields "Event is full" or leaves a negative spot count. While it is hidden, no press by any user changes the state. |
| EventDetails.VolunteerAllAccounting | src/pages/EventDetails.tsx:32-35 | This covers any series of presses. Spots plus ids is kept, and spots never grow. Spots never go negative from a non-negative start. A full event never changes. Earlier volunteers stay as a prefix. Every listed id was there before or pressed. No id is listed twice. |
| EventDetails.RepeatedPressesActOnce | src/pages/EventDetails.tsx:32-38 | Pressing n >= 1 times with one id leaves the same state as pressing once, so the id is added at most once. |
| EventDetails.PressesAtFixpoint | src/pages/EventDetails.tsx:37-40 | Once the id is listed or no spots remain, further presses by that id change nothing. |
| EventDetails.EventDetailsScreen.constructor | src/pages/EventDetails.tsx:19-20 | The screen state starts as the event's initial signup, and the capacity accounting holds. |
| EventDetails.EventDetailsScreen.HandleVolunteer | src/pages/EventDetails.tsx:30-42 | The alert and the new state are exactly one `Volunteer` step for the placeholder user from the old state, and the capacity accounting is preserved. |
| Decimal.NatText | src/pages/EventsMap.tsx:92 | A count prints as at least one digit, digits only, with a leading zero only for zero, and zero prints as exactly "0". |
| Decimal.IntText | src/pages/EventDetails.tsx:26 | An integer prints with a leading '-' exactly when negative. The digits after the sign have no leading zero, zero prints as exactly "0", and the digits read back as the number's magnitude, so the status line prints the event's capacity. |
| Decimal.ParseNatText | src/pages/EventsMap.tsx:92 | Reading a printed count back gives the count. |
| CreateEvent.IsFormValid | src/pages/CreateEvent.tsx:21-23 | Valid iff name, description, date, time, latitude, longitude and volunteers-needed are all non-empty and the image is present and non-empty. Equivalently, iff every input field is non-empty and the image is present and non-empty. |
| CreateEvent.CreateEventScreen.SaveEnabled | src/pages/CreateEvent.tsx:136-141 | The Save button is enabled iff every input of the current form is non-empty and the image URL is present and non-empty. So it is disabled whenever the form is not valid. |
| CreateEvent.Split | src/pages/CreateEvent.tsx:41 | Splitting on '/' gives at least one part. No part contains '/'. Joining the parts with '/' gives the URI back. |
| CreateEvent.FileName | src/pages/CreateEvent.tsx:41 | The file name is never empty and never contains '/'. It is "unknown.jpg" when the URI is empty or ends in '/'. Otherwise it is the non-empty suffix of the URI that follows its last '/', or the whole URI when there is none. |
| CreateEvent.DateTime | src/pages/CreateEvent.tsx:60 | dateTime is the date, then 'T', then the time, then ":00.000Z", so its length is the date's length plus the time's length plus 9. |
| CreateEvent.DateTimeRoundTrip | src/pages/CreateEvent.tsx:60 | When the date holds no 'T', the date and time are recovered from dateTime. |
| CreateEvent.NewEvent | src/pages/CreateEvent.tsx:57-66 | The new event has no id, no volunteers and organizer "someOrganizerId". Its image URL is the current image. Name, description, position and capacity come from the form, and dateTime is DateTime(date, time). |
| CreateEvent.CreateEventScreen.constructor | src/pages/CreateEvent.tsx:11-19 | All inputs start empty, with no image and no image details, so Save starts disabled. |
| CreateEvent.CreateEventScreen.Edit | src/pages/CreateEvent.tsx:78-123 | Typing into one input changes that input only. The image state is untouched. |
| CreateEvent.CreateEventScreen.HandleImagePick | src/pages/CreateEvent.tsx:25-53 | A denied permission, a cancelled pick and a failed upload each give their own outcome and leave the image and its details unchanged. Only a successful upload sets the image to the returned URL and the details to the file name and size (0 when unknown). The text inputs never change. |
| CreateEvent.CreateEventScreen.HandleSave | src/pages/CreateEvent.tsx:55-74 | The request sent is NewEvent of the current form. The outcome is "created" iff the API call succeeds. The form is unchanged either way. |
| EventsMap.UpcomingEvents | src/pages/EventsMap.tsx:31 | Every kept event has a time at or after now, so an event exactly at now is kept. Each event occurs in the result as many times as in the fetched list if it is upcoming, and not at all otherwise. The result is a subsequence of the fetched list in its original order. Together these fix the result as exactly the upcoming events, in fetched order. |
| EventsMap.UpcomingEventsIdempotent | src/pages/EventsMap.tsx:31 | Filtering an already filtered list gives the same list. |
| EventsMap.UpcomingEventsKeepsAll | src/pages/EventsMap.tsx:31 | When every fetched event is upcoming, the whole list is shown unchanged. |
| EventsMap.UpcomingEventsShrinkOverTime | src/pages/EventsMap.tsx:31 | What a later clock keeps is a subsequence of what an earlier clock keeps. |
| EventsMap.FooterText | src/pages/EventsMap.tsx:92 | The footer is the shown count followed by " event(s) found". The count is digits only, has no leading zero, and reads back as the number of events; with no events the footer is exactly "0 event(s) found". So the text is fixed completely. |
| EventsMap.EventsMapScreen.constructor | src/pages/EventsMap.tsx:20 | The map starts with no events. |
| EventsMap.EventsMapScreen.FetchEvents | src/pages/EventsMap.tsx:26-35 | A successful fetch replaces the list with the upcoming events of what was fetched. A failed fetch leaves the list unchanged. |

## Left out

- The HTTP clients in `src/services/api.ts` and `src/services/imageApi.ts` carry no logic beyond building the request and rethrowing errors. Their calls (`getEvents`, `uploadImage`, `createEvent`) appear only as `Result` parameters, each either a value or an `ApiError`.
- The network-first cache helper `getFromNetworkFirst` (`src/services/caching`) is not part of this model. Its source is not among the files modelled, so `FetchEvents` takes what it resolved with as an opaque result.
- `src/routes/AppStack.tsx` does navigation and context wiring only. The model leaves out navigation, style sheets, JSX layout, `Share`, and the texts of the alerts. Alerts appear only as outcome values.
- Floating point is not modelled. That covers `parseFloat` and `parseInt` in `handleSave`: `HandleSave` receives the position and capacity already parsed, so a NaN capacity is not modelled. It also covers the "x.xx MB" size text (`ImageDetails` keeps the byte count) and the latitude and longitude values (`Position` is opaque).
- Map viewport fitting (`fitToCoordinates`) is a side effect on the map view that does not change the screen state.
- Logout (AsyncStorage and the authentication context) is I/O.
- The early return when the route carries no event is rendering only. `EventDetailsScreen` is always built from an event.
- The signed-in user is the hard-coded placeholder `PlaceholderUserId`, as in the screen. The specification function `Volunteer` takes any user id.
- HandleSave: does not require a valid form, because `handleSave` itself does not check. The Save button is disabled by `IsFormValid` (src/pages/CreateEvent.tsx:140).
- UpcomingEvents: uses one `now` for the whole list, while the screen reads the clock once per event. This matters only if the clock advances during the filter.
- Integers are unbounded, while JavaScript numbers are doubles. List lengths stay far below 2^53, but the capacity `volunteersNeeded` is `parseInt` of a free-text input (src/pages/CreateEvent.tsx:62) that the form only checks for presence. For a capacity of magnitude 2^53 or more, the subtractions at src/pages/EventDetails.tsx:20 and src/pages/EventDetails.tsx:35 are inexact in JavaScript but exact in the model.
- IntText: prints every integer in plain digits. JavaScript prints magnitudes of 10^21 and above in exponent form ("1e+21"), so for such capacities the status line (src/pages/EventDetails.tsx:26) differs from the model.
