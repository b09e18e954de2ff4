/** The create-event screen (src/pages/CreateEvent.tsx): seven text inputs,
    the uploaded image URL and its details, the presence check that enables
    the Save button, the file name shown for a picked image, and the event
    record sent on save. */
module CreateEvent {
  import opened EventTypes

  /** The seven text inputs of the form. */
  datatype Field = Name | Description | Date | Time | Latitude | Longitude | VolunteersNeeded

  datatype FormInputs = FormInputs(
    name: string,
    description: string,
    date: string,
    time: string,
    latitude: string,
    longitude: string,
    volunteersNeeded: string
  ) {
    function Get(field: Field): string {
      match field
      case Name => name
      case Description => description
      case Date => date
      case Time => time
      case Latitude => latitude
      case Longitude => longitude
      case VolunteersNeeded => volunteersNeeded
    }

    /** The inputs in the order the form checks them. */
    function Texts(): seq<string> {
      [name, description, date, time, latitude, longitude, volunteersNeeded]
    }

    /** What typing `value` into `field` does to the inputs. */
    function With(field: Field, value: string): (r: FormInputs)
      ensures r.Get(field) == value
      ensures forall g :: g != field ==> r.Get(g) == Get(g)
    {
      match field
      case Name => this.(name := value)
      case Description => this.(description := value)
      case Date => this.(date := value)
      case Time => this.(time := value)
      case Latitude => this.(latitude := value)
      case Longitude => this.(longitude := value)
      case VolunteersNeeded => this.(volunteersNeeded := value)
    }
  }

  const EmptyInputs: FormInputs := FormInputs("", "", "", "", "", "", "")

  /** Name and size of the picked image, shown under its preview. The size
      is kept in bytes; its "x.xx MB" rendering is not modelled. */
  datatype ImageDetails = ImageDetails(name: string, sizeBytes: nat)

  /** The first asset the image library returns. */
  datatype PickedAsset = PickedAsset(uri: string, fileSize: Option<nat>)

  /** The alerts (or silence) `handleImagePick` ends with. */
  datatype PickOutcome = PermissionRequired | PickCancelled | ImageUploaded | UploadFailed

  datatype SaveOutcome = EventCreated | CreateFailed

  const DefaultFileName: string := "unknown.jpg"
  const OrganizerPlaceholder: string := "someOrganizerId"
  const TimeSuffix: string := ":00.000Z"

  /** JavaScript truthiness of a string: only the empty string is falsy. */
  predicate Truthy(s: string) {
    s != ""
  }

  /** `isFormValid`: every input and the image URL are present and non-empty. */
  function IsFormValid(inputs: FormInputs, image: Option<string>): (ok: bool)
    ensures ok <==>
      inputs.name != "" && inputs.description != "" && inputs.date != "" &&
      inputs.time != "" && inputs.latitude != "" && inputs.longitude != "" &&
      inputs.volunteersNeeded != "" && image.Some? && image.value != ""
    ensures ok <==> (forall f :: inputs.Get(f) != "") && image.Some? && image.value != ""
  {
    var texts := inputs.Texts();
    assert inputs.Get(Name) == inputs.name && inputs.Get(Description) == inputs.description;
    assert inputs.Get(Date) == inputs.date && inputs.Get(Time) == inputs.time;
    assert inputs.Get(Latitude) == inputs.latitude && inputs.Get(Longitude) == inputs.longitude;
    assert inputs.Get(VolunteersNeeded) == inputs.volunteersNeeded;
    assert inputs.name in texts && inputs.description in texts && inputs.date in texts;
    assert inputs.time in texts && inputs.latitude in texts && inputs.longitude in texts;
    assert inputs.volunteersNeeded in texts;
    (forall t | t in texts :: Truthy(t)) && image.Some? && Truthy(image.value)
  }

  /** Joins parts with one separator between neighbours. */
  function Join(parts: seq<string>, sep: char): string
    requires |parts| >= 1
    decreases |parts|
  {
    if |parts| == 1 then parts[0] else Join(parts[..|parts| - 1], sep) + [sep] + parts[|parts| - 1]
  }

  /** String.prototype.split with a one-character separator: always at least
      one part, no part holds the separator, and joining gives `s` back. */
  function Split(s: string, sep: char): (parts: seq<string>)
    ensures |parts| >= 1
    ensures forall i :: 0 <= i < |parts| ==> sep !in parts[i]
    ensures Join(parts, sep) == s
    decreases |s|
  {
    if s == [] then [[]]
    else
      var init := Split(s[..|s| - 1], sep);
      var c := s[|s| - 1];
      assert s == s[..|s| - 1] + [c];
      if c == sep then
        init + [[]]
      else
        JoinExtendLast(init, c, sep);
        init[..|init| - 1] + [init[|init| - 1] + [c]]
  }

  lemma JoinExtendLast(parts: seq<string>, c: char, sep: char)
    requires |parts| >= 1
    ensures Join(parts[..|parts| - 1] + [parts[|parts| - 1] + [c]], sep) == Join(parts, sep) + [c]
  {
  }

  /** `uri.split('/').pop() || 'unknown.jpg'`: the part of the URI after its
      last '/', or the default name when that part is empty. */
  function FileName(uri: string): (name: string)
    ensures name != [] && '/' !in name
    ensures uri == [] || uri[|uri| - 1] == '/' ==> name == DefaultFileName
    ensures uri != [] && uri[|uri| - 1] != '/' ==>
      |name| <= |uri| && uri[|uri| - |name|..] == name &&
      (|name| == |uri| || uri[|uri| - |name| - 1] == '/')
  {
    var parts := Split(uri, '/');
    var last := parts[|parts| - 1];
    assert |parts| == 1 ==> uri == last;
    assert |parts| > 1 ==> uri == Join(parts[..|parts| - 1], '/') + ['/'] + last;
    if last == [] then DefaultFileName else last
  }

  /** The `dateTime` text sent for the date and time inputs. */
  function DateTime(date: string, time: string): (r: string)
    ensures |r| == |date| + |time| + 9
    ensures r[..|date|] == date && r[|date|] == 'T'
    ensures r[|date| + 1..|date| + 1 + |time|] == time
    ensures r[|date| + 1 + |time|..] == TimeSuffix
  {
    date + "T" + time + TimeSuffix
  }

  /** The position of the first `c` in `s`, if any. */
  function IndexOf(s: string, c: char): (r: Option<nat>)
    ensures r.Some? ==> r.value < |s| && s[r.value] == c && c !in s[..r.value]
    ensures r.None? ==> c !in s
    decreases |s|
  {
    if s == [] then None
    else if s[0] == c then Some(0)
    else
      match IndexOf(s[1..], c)
      case None => None
      case Some(i) =>
        assert s[..i + 1] == [s[0]] + s[1..][..i];
        Some(i + 1)
  }

  /** Reads a `dateTime` text back into its date and time inputs. */
  function ParseDateTime(s: string): Option<(string, string)>
  {
    match IndexOf(s, 'T')
    case None => None
    case Some(i) =>
      var rest := s[i + 1..];
      if |rest| >= |TimeSuffix| && rest[|rest| - |TimeSuffix|..] == TimeSuffix
      then Some((s[..i], rest[..|rest| - |TimeSuffix|]))
      else None
  }

  /** The date and time inputs can be recovered from `dateTime` whenever the
      date input holds no 'T'. */
  lemma DateTimeRoundTrip(date: string, time: string)
    requires 'T' !in date
    ensures ParseDateTime(DateTime(date, time)) == Some((date, time))
  {
    var s := DateTime(date, time);
    assert s[..|date|] == date;
    var rest := s[|date| + 1..];
    assert rest == time + TimeSuffix;
    assert rest[..|rest| - |TimeSuffix|] == time;
  }

  /** The record `handleSave` sends; latitude, longitude and the volunteer
      count are passed in already parsed. */
  function NewEvent(inputs: FormInputs, image: Option<string>, position: Position, volunteersNeeded: int): (e: Event)
    ensures e.id.None? && e.volunteersIds == []
    ensures e.organizerId == OrganizerPlaceholder && e.imageUrl == image
    ensures e.name == inputs.name && e.description == inputs.description
    ensures e.dateTime == DateTime(inputs.date, inputs.time)
    ensures e.position == position && e.volunteersNeeded == volunteersNeeded
  {
    Event(None, DateTime(inputs.date, inputs.time), inputs.description, inputs.name,
          OrganizerPlaceholder, position, volunteersNeeded, [], image)
  }

  /** The screen's state: one field per `useState` of the form. */
  class CreateEventScreen {
    var name: string
    var description: string
    var date: string
    var time: string
    var latitude: string
    var longitude: string
    var volunteersNeeded: string
    var image: Option<string>
    var imageDetails: Option<ImageDetails>

    function Inputs(): FormInputs
      reads this
    {
      FormInputs(name, description, date, time, latitude, longitude, volunteersNeeded)
    }

    /** The Save button is enabled exactly when the form is valid: every
        input and the image URL are non-empty. */
    function SaveEnabled(): (enabled: bool)
      reads this
      ensures enabled <==> (forall f :: Inputs().Get(f) != "") && image.Some? && image.value != ""
    {
      IsFormValid(Inputs(), image)
    }

    constructor ()
      ensures Inputs() == EmptyInputs
      ensures image == None && imageDetails == None
      ensures !SaveEnabled()
    {
      name, description, date, time := "", "", "", "";
      latitude, longitude, volunteersNeeded := "", "", "";
      image, imageDetails := None, None;
    }

    /** A text input's `onChangeText`. */
    method Edit(field: Field, value: string)
      modifies this
      ensures Inputs() == old(Inputs()).With(field, value)
      ensures image == old(image) && imageDetails == old(imageDetails)
    {
      match field
      case Name => name := value;
      case Description => description := value;
      case Date => date := value;
      case Time => time := value;
      case Latitude => latitude := value;
      case Longitude => longitude := value;
      case VolunteersNeeded => volunteersNeeded := value;
    }

    /** `handleImagePick`. The permission prompt, the image library and the
        upload are the parameters: whether permission was granted, the
        picked asset (None when the pick was cancelled) and the upload's
        result (the hosted URL or a failure). Only a successful upload
        touches the image state. */
    method HandleImagePick(permissionGranted: bool, picked: Option<PickedAsset>, upload: Result<string, ApiError>)
      returns (outcome: PickOutcome)
      modifies this
      ensures Inputs() == old(Inputs())
      ensures outcome == PermissionRequired <==> !permissionGranted
      ensures outcome == PickCancelled <==> permissionGranted && picked.None?
      ensures outcome == UploadFailed <==> permissionGranted && picked.Some? && upload.Err?
      ensures outcome == ImageUploaded <==> permissionGranted && picked.Some? && upload.Ok?
      ensures outcome == ImageUploaded ==>
        image == Some(upload.value) &&
        imageDetails == Some(ImageDetails(FileName(picked.value.uri), picked.value.fileSize.GetOr(0)))
      ensures outcome != ImageUploaded ==> image == old(image) && imageDetails == old(imageDetails)
    {
      if !permissionGranted {
        return PermissionRequired;
      }
      if picked.None? {
        return PickCancelled;
      }
      var uri := picked.value.uri;
      var fileName := FileName(uri);
      var fileSize := picked.value.fileSize.GetOr(0);
      match upload
      case Ok(url) =>
        image := Some(url);
        imageDetails := Some(ImageDetails(fileName, fileSize));
        outcome := ImageUploaded;
      case Err(_) =>
        outcome := UploadFailed;
    }

    /** `handleSave`: builds the new event from the form and sends it; the
        form is left as it was whether the request succeeds or fails. */
    method HandleSave(position: Position, parsedVolunteersNeeded: int, response: Result<Event, ApiError>)
      returns (request: Event, outcome: SaveOutcome)
      ensures request == NewEvent(Inputs(), image, position, parsedVolunteersNeeded)
      ensures outcome == EventCreated <==> response.Ok?
    {
      request := NewEvent(Inputs(), image, position, parsedVolunteersNeeded);
      outcome := if response.Ok? then EventCreated else CreateFailed;
    }
  }
}
