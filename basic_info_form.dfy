/**
 * The basic-information editor: three text fields, each replaced as it is
 * typed, and a picture upload whose data URL is reduced to its payload
 * before it is stored.
 */
module BasicInfoForm {
  import opened Optional
  import opened Text
  import opened Types
  import Generation

  /** `keyof BasicInfo`. */
  datatype BasicInfoField = Name | Title | Bio | ProfilePicture

  function Get(b: BasicInfo, f: BasicInfoField): string {
    match f
    case Name => b.name
    case Title => b.title
    case Bio => b.bio
    case ProfilePicture => b.profilePicture
  }

  /** `{ ...data, [field]: value }`: the field reads back as given and every other field is as it was. */
  function SetField(b: BasicInfo, f: BasicInfoField, value: string): (r: BasicInfo)
    ensures Get(r, f) == value
    ensures forall g :: g != f ==> Get(r, g) == Get(b, g)
  {
    match f
    case Name => b.(name := value)
    case Title => b.(title := value)
    case Bio => b.(bio := value)
    case ProfilePicture => b.(profilePicture := value)
  }

  /** The three typed fields: the name and title inputs and the bio text area. */
  predicate IsTextField(f: BasicInfoField) {
    f != ProfilePicture
  }

  /** The `onChange` of a typed field: only that field takes the typed text. */
  function OnTextChange(b: BasicInfo, f: BasicInfoField, value: string): (r: BasicInfo)
    requires IsTextField(f)
    ensures Get(r, f) == value && r.profilePicture == b.profilePicture
    ensures forall g :: g != f ==> Get(r, g) == Get(b, g)
  {
    SetField(b, f, value)
  }

  /** The first position of `c` in `s`, or -1 when there is none. */
  function IndexOf(s: string, c: char): (i: int)
    ensures -1 <= i < |s|
    ensures 0 <= i ==> s[i] == c && forall j :: 0 <= j < i ==> s[j] != c
    ensures i == -1 ==> forall j :: 0 <= j < |s| ==> s[j] != c
  {
    if s == [] then -1
    else if s[0] == c then 0
    else
      var i := IndexOf(s[1..], c);
      if i == -1 then -1 else i + 1
  }

  /**
   * `dataUrl.split(',')[1]`: the text after the first comma, up to the next
   * comma or the end. A data URL always has the comma that ends its header.
   */
  function Payload(dataUrl: string): (p: string)
    requires ',' in dataUrl
    ensures ',' !in p
    ensures SliceAt(p, dataUrl, IndexOf(dataUrl, ',') + 1)
    ensures IndexOf(dataUrl, ',') + 1 + |p| == |dataUrl| || dataUrl[IndexOf(dataUrl, ',') + 1 + |p|] == ','
  {
    var k := IndexOf(dataUrl, ',');
    var rest := dataUrl[k + 1..];
    var j := IndexOf(rest, ',');
    if j == -1 then
      assert dataUrl[k + 1..k + 1 + |rest|] == rest;
      rest
    else
      assert dataUrl[k + 1..k + 1 + j] == rest[..j];
      assert dataUrl[k + 1 + j] == rest[j];
      rest[..j]
  }

  /** A header without a comma, a comma, and a payload without one: the payload is recovered. */
  lemma PayloadAfterHeader(header: string, payload: string)
    requires ',' !in header && ',' !in payload
    ensures Payload(header + "," + payload) == payload
  {
    var s := header + "," + payload;
    assert s[|header|] == ',';
    assert forall j :: 0 <= j < |header| ==> s[j] == header[j];
    assert IndexOf(s, ',') == |header|;
    var p := Payload(s);
    assert s[|header| + 1..] == payload;
    assert p == s[|header| + 1..|header| + 1 + |p|];
    assert forall j :: 0 <= j < |payload| ==> s[|header| + 1 + j] == payload[j];
    assert p == payload;
  }

  /** Stored payloads round-trip through the JPEG data URI the prompt embeds. */
  lemma PayloadOfPictureDataUri(payload: string)
    requires ',' !in payload
    ensures Payload(Generation.PictureDataUri(payload)) == payload
  {
    var header := "data:image/jpeg;base64";
    assert Generation.PictureDataUri(payload) == header + "," + payload;
    PayloadAfterHeader(header, payload);
  }

  /**
   * `handleFileChange`: with no file selected nothing is emitted; otherwise
   * the picture field alone takes the payload of the file's data URL.
   */
  function HandleFileChange(b: BasicInfo, file: Option<string>): (r: Option<BasicInfo>)
    requires file.Some? ==> ',' in file.value
    ensures r.Some? <==> file.Some?
    ensures r.Some? ==> r.value.profilePicture == Payload(file.value)
    ensures r.Some? ==> forall g :: g != ProfilePicture ==> Get(r.value, g) == Get(b, g)
  {
    match file
    case None => None
    case Some(dataUrl) => Some(SetField(b, ProfilePicture, Payload(dataUrl)))
  }

  /** The upload of "data:image/jpeg;base64,XYZ" stores "XYZ". */
  lemma UploadExample(b: BasicInfo)
    ensures HandleFileChange(b, Some("data:image/jpeg;base64,XYZ")) == Some(b.(profilePicture := "XYZ"))
  {
    var url := Generation.PictureDataUri("XYZ");
    assert url == "data:image/jpeg;base64,XYZ";
    assert url[22] == ',';
    PayloadOfPictureDataUri("XYZ");
  }
}
