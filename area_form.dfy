/**
 * The area-creation form (a "safe" or a "danger" zone): its initial record,
 * the characteristic checkboxes, the save gate on the description, the
 * media picker and the image/video preview choice.
 *
 * The pure rules are functions; the component's state (`formData`, the
 * `loadingMedia` flag, the two date/time picker flags) lives in the class
 * `CreateAreaForm`. The callbacks `onSave` and `onClose` and the alert
 * dialog belong to the host; the class records every call it makes to
 * them, in order, in `calls`. The document picker's result, the selected
 * date and time (already formatted) and today's formatted date and time are
 * inputs.
 */
module AreaForm {
  import opened JsText

  datatype Variant = Safe | Danger

  /** A picked file as the form keeps it (`type` in the source). */
  datatype MediaItem = MediaItem(uri: string, name: string, mediaType: string)

  datatype AreaData = AreaData(
    location: string,
    date: string,
    time: string,
    description: string,
    characteristics: map<string, bool>,
    media: seq<MediaItem>)

  /** The `location` property: absent, or an object whose `name` may be absent. */
  datatype IncomingLocation = IncomingLocation(name: Option<string>)

  // ----- initial state -----

  /** The three keys the record's type declares, all initially unchecked. */
  const InitialCharacteristics: map<string, bool> :=
    map["goodLighting" := false, "policePresence" := false, "publicTransport" := false]

  /** `location?.name || ''`. */
  function LocationText(location: Option<IncomingLocation>): (r: string)
    ensures location.Some? && location.value.name.Some? ==> r == location.value.name.value
    ensures location.None? || location.value.name.None? ==> r == ""
  {
    match location
    case None => ""
    case Some(l) =>
      match l.name
      case None => ""
      case Some(n) => if n == "" then "" else n
  }

  /** A characteristic reads as checked only when present and true (`undefined` is falsy). */
  predicate Checked(m: map<string, bool>, key: string) {
    key in m && m[key]
  }

  function InitialForm(location: Option<IncomingLocation>, today: string, nowTime: string): (f: AreaData)
    ensures f.location == LocationText(location)
    ensures f.date == today && f.time == nowTime
    ensures f.description == "" && f.media == []
    ensures f.characteristics.Keys == {"goodLighting", "policePresence", "publicTransport"}
    ensures forall key :: !Checked(f.characteristics, key)
  {
    AreaData(LocationText(location), today, nowTime, "", InitialCharacteristics, [])
  }

  // ----- characteristics -----

  /** One checkbox: the key it toggles and its caption. */
  datatype CharacteristicOption = CharacteristicOption(key: string, caption: string)

  /** The checkboxes shown for each variant, in display order. */
  function CharacteristicOptions(v: Variant): (r: seq<CharacteristicOption>)
    ensures |r| == 3
    ensures forall i, j :: 0 <= i < j < |r| ==> r[i].key != r[j].key
    ensures v == Safe ==> forall i :: 0 <= i < |r| ==> r[i].key in InitialCharacteristics
    ensures v == Danger ==> forall i :: 0 <= i < |r| ==> r[i].key !in InitialCharacteristics
  {
    match v
    case Safe => [
      CharacteristicOption("goodLighting", "Boa Iluminação"),
      CharacteristicOption("policePresence", "Presença policial"),
      CharacteristicOption("publicTransport", "Transporte público acessível")]
    case Danger => [
      CharacteristicOption("poorLighting", "Iluminação Insuficiente"),
      CharacteristicOption("noPolicePresence", "Falta de Policiamento"),
      CharacteristicOption("houses", "Casas Abandonadas")]
  }

  /** The keys in display order for each variant. */
  lemma CharacteristicKeysInOrder(v: Variant)
    ensures var r := CharacteristicOptions(v);
      v == Safe ==> r[0].key == "goodLighting" && r[1].key == "policePresence" && r[2].key == "publicTransport"
    ensures var r := CharacteristicOptions(v);
      v == Danger ==> r[0].key == "poorLighting" && r[1].key == "noPolicePresence" && r[2].key == "houses"
  {
  }

  /** `{...m, [key]: !m[key]}`: flips `key`, reading a missing key as false. */
  function Toggle(m: map<string, bool>, key: string): (r: map<string, bool>)
    ensures Checked(r, key) == !Checked(m, key)
    ensures r.Keys == m.Keys + {key}
    ensures forall j :: j != key && j in m ==> r[j] == m[j]
  {
    m[key := !Checked(m, key)]
  }

  /** Toggling a key twice gives back the map, when that key was already present. */
  lemma ToggleTwiceRestores(m: map<string, bool>, key: string)
    requires key in m
    ensures Toggle(Toggle(m, key), key) == m
  {
    assert Toggle(Toggle(m, key), key).Keys == m.Keys;
  }

  /** Whether or not the key was present, toggling it twice leaves every checkbox reading as before. */
  lemma ToggleTwiceReadsSame(m: map<string, bool>, key: string, j: string)
    ensures Checked(Toggle(Toggle(m, key), key), j) == Checked(m, j)
  {
  }

  /** A key missing from the map, such as a danger-variant key, becomes checked on its first toggle. */
  lemma ToggleMissingKeyChecks(m: map<string, bool>, key: string)
    requires key !in m
    ensures key in Toggle(m, key) && Toggle(m, key)[key]
  {
  }

  /** Every danger checkbox starts unchecked and is missing from the initial record. */
  lemma DangerKeysStartMissing(location: Option<IncomingLocation>, today: string, nowTime: string, i: nat)
    requires i < 3
    ensures var key := CharacteristicOptions(Danger)[i].key;
      key !in InitialForm(location, today, nowTime).characteristics
      && Toggle(InitialForm(location, today, nowTime).characteristics, key)[key]
  {
  }

  // ----- saving -----

  /** A call the form makes into its host: a callback, or an alert dialog. */
  datatype HostCall = OnSave(data: AreaData) | OnClose | ShowAlert(title: string, message: string)

  const MissingDescriptionAlert := ShowAlert("Erro", "Por favor, adicione uma descrição do incidente.")

  /**
   * `handleSave`: a description that is empty once trimmed raises the alert
   * and nothing else; otherwise the form is handed to `onSave` and then
   * `onClose` is called.
   */
  function SaveCalls(f: AreaData): (r: seq<HostCall>)
    ensures AllSpace(f.description) ==> r == [MissingDescriptionAlert]
    ensures !AllSpace(f.description) ==> r == [OnSave(f), OnClose]
  {
    TrimEmptyIffAllSpace(f.description);
    if Trim(f.description) == "" then [MissingDescriptionAlert] else [OnSave(f), OnClose]
  }

  /** A blocked save reaches neither callback. */
  lemma BlankDescriptionSavesNothing(f: AreaData, i: nat)
    requires AllSpace(f.description) && i < |SaveCalls(f)|
    ensures !SaveCalls(f)[i].OnSave? && !SaveCalls(f)[i].OnClose?
  {
  }

  // ----- media -----

  /** A document the picker returns. */
  datatype Asset = Asset(uri: string, name: string, mimeType: Option<string>)

  /** `result.assets`: an array, or (the other branch of the source) something indexed with `[0]`. */
  datatype AssetsField = AssetArray(items: seq<Asset>) | NotArray(first: Option<Asset>)

  /** What `getDocumentAsync` does: the user cancels, picks, or the call throws. */
  datatype PickerOutcome = Canceled | Picked(assets: AssetsField) | PickerThrew

  /** `mimeType || ''`. */
  function TypeOrEmpty(mimeType: Option<string>): string {
    match mimeType
    case Some(t) => t
    case None => ""
  }

  function ToMediaItem(a: Asset): MediaItem {
    MediaItem(a.uri, a.name, TypeOrEmpty(a.mimeType))
  }

  /** `assets.map(...)`: one item per asset, in the same order. */
  function MapAssets(items: seq<Asset>): (r: seq<MediaItem>)
    ensures |r| == |items|
    ensures forall i :: 0 <= i < |r| ==>
      r[i].uri == items[i].uri && r[i].name == items[i].name && r[i].mediaType == TypeOrEmpty(items[i].mimeType)
  {
    if items == [] then [] else [ToMediaItem(items[0])] + MapAssets(items[1..])
  }

  /**
   * The items a successful pick adds, or `None` when building them throws
   * (`assets` is not an array and has no element `0`).
   */
  function NewMedia(assets: AssetsField): (r: Option<seq<MediaItem>>)
    ensures r.None? <==> assets == NotArray(None)
    ensures assets.AssetArray? ==> r == Some(MapAssets(assets.items))
    ensures assets.NotArray? && assets.first.Some? ==> r == Some([ToMediaItem(assets.first.value)])
  {
    match assets
    case AssetArray(items) => Some(MapAssets(items))
    case NotArray(first) =>
      match first
      case None => None
      case Some(a) => Some([ToMediaItem(a)])
  }

  /** The media list after `handlePickMedia`, and whether the handler completed without throwing. */
  function PickedMedia(media: seq<MediaItem>, outcome: PickerOutcome): (r: (seq<MediaItem>, bool))
    ensures r.1 <==> !outcome.PickerThrew? && outcome != Picked(NotArray(None))
    ensures !outcome.Picked? ==> r.0 == media
    ensures outcome.Picked? && NewMedia(outcome.assets).Some? ==>
      r.0 == media + NewMedia(outcome.assets).value
    ensures outcome.Picked? && outcome.assets.AssetArray? ==>
      |r.0| == |media| + |outcome.assets.items|
      && r.0[..|media|] == media && r.0[|media|..] == MapAssets(outcome.assets.items)
    ensures !r.1 ==> r.0 == media
  {
    match outcome
    case Canceled => (media, true)
    case PickerThrew => (media, false)
    case Picked(assets) =>
      match NewMedia(assets)
      case None => (media, false)
      case Some(added) => (media + added, true)
  }

  // ----- preview -----

  /** The substrings that make a media type preview as an image. */
  const ImageTypeHints: seq<string> := ["image", "jpeg", "jpg", "png", "webp"]

  /** `hints.some(h => t.includes(h))`. */
  function IncludesAny(t: string, hints: seq<string>): (b: bool)
    ensures b <==> exists i :: 0 <= i < |hints| && Includes(t, hints[i])
  {
    if hints == [] then false
    else Includes(t, hints[0]) || IncludesAny(t, hints[1..])
  }

  /** How one picked file is shown: the picture, or the picture under a play button. */
  datatype Preview = ImagePreview(uri: string) | VideoPreview(uri: string)

  function PreviewOf(item: MediaItem): (p: Preview)
    ensures p.uri == item.uri
    ensures p.ImagePreview? <==> exists i :: 0 <= i < |ImageTypeHints| && Includes(item.mediaType, ImageTypeHints[i])
  {
    if IncludesAny(item.mediaType, ImageTypeHints) then ImagePreview(item.uri) else VideoPreview(item.uri)
  }

  /** Typical types: an image type previews as an image, a video type (and a missing type) as a video. */
  lemma PreviewExamples(uri: string, name: string)
    ensures PreviewOf(MediaItem(uri, name, "image/png")).ImagePreview?
    ensures PreviewOf(MediaItem(uri, name, "video/mp4")).VideoPreview?
    ensures PreviewOf(MediaItem(uri, name, "")).VideoPreview?
  {
    assert OccursAt("image/png", ImageTypeHints[0], 0);
    var v := "video/mp4";
    forall i | 0 <= i < |ImageTypeHints| ensures !Includes(v, ImageTypeHints[i]) {
      if i == 0 { CharMissingExcludes(v, ImageTypeHints[i], 3); }
      else if i == 3 { CharMissingExcludes(v, ImageTypeHints[i], 1); }
      else { CharMissingExcludes(v, ImageTypeHints[i], 0); }
    }
  }

  /** A string lacking one of `t`'s characters does not include `t`. */
  lemma CharMissingExcludes(s: string, t: string, k: nat)
    requires k < |t| && t[k] !in s
    ensures !Includes(s, t)
  {
  }

  /**
   * The component's state. `variant` is a property the host passes in;
   * `calls` records, in order, the host calls the component has made.
   */
  class CreateAreaForm {
    const variant: Variant
    var formData: AreaData
    var showDatePicker: bool
    var showTimePicker: bool
    var loadingMedia: bool
    var calls: seq<HostCall>

    constructor (variant: Variant, location: Option<IncomingLocation>, today: string, nowTime: string)
      ensures this.variant == variant
      ensures formData == InitialForm(location, today, nowTime)
      ensures !showDatePicker && !showTimePicker && !loadingMedia && calls == []
    {
      this.variant := variant;
      formData := InitialForm(location, today, nowTime);
      showDatePicker, showTimePicker, loadingMedia := false, false, false;
      calls := [];
    }

    /** The checkboxes this form shows. */
    function Options(): (r: seq<CharacteristicOption>)
      ensures |r| == 3
      ensures variant == Safe <==> forall i :: 0 <= i < |r| ==> r[i].key in InitialCharacteristics
    {
      assert CharacteristicOptions(Danger)[0].key !in InitialCharacteristics;
      CharacteristicOptions(variant)
    }

    /** The location text field's `onChangeText`. */
    method EditLocation(text: string)
      modifies this`formData
      ensures formData == old(formData).(location := text)
    {
      formData := formData.(location := text);
    }

    /** The description text field's `onChangeText`. */
    method EditDescription(text: string)
      modifies this`formData
      ensures formData == old(formData).(description := text)
    {
      formData := formData.(description := text);
    }

    method OpenDatePicker()
      modifies this`showDatePicker
      ensures showDatePicker
    {
      showDatePicker := true;
    }

    /** The date picker's `onChange`: it closes, and a selected date replaces the form's date. */
    method DatePicked(selected: Option<string>)
      modifies this`showDatePicker, this`formData
      ensures !showDatePicker
      ensures formData == if selected.Some? then old(formData).(date := selected.value) else old(formData)
    {
      showDatePicker := false;
      if selected.Some? {
        formData := formData.(date := selected.value);
      }
    }

    method OpenTimePicker()
      modifies this`showTimePicker
      ensures showTimePicker
    {
      showTimePicker := true;
    }

    /** The time picker's `onChange`: it closes, and a selected time replaces the form's time. */
    method TimePicked(selected: Option<string>)
      modifies this`showTimePicker, this`formData
      ensures !showTimePicker
      ensures formData == if selected.Some? then old(formData).(time := selected.value) else old(formData)
    {
      showTimePicker := false;
      if selected.Some? {
        formData := formData.(time := selected.value);
      }
    }

    /** `toggleCharacteristic`: only the one key changes; the rest of the record stays. */
    method ToggleCharacteristic(key: string)
      modifies this`formData
      ensures formData == old(formData).(characteristics := Toggle(old(formData).characteristics, key))
      ensures Checked(formData.characteristics, key) == !Checked(old(formData).characteristics, key)
    {
      formData := formData.(characteristics := Toggle(formData.characteristics, key));
    }

    /** `handleSave`. */
    method HandleSave()
      modifies this`calls
      ensures calls == old(calls) + SaveCalls(formData)
    {
      var form := formData;
      if Trim(form.description) == "" {
        calls := calls + [MissingDescriptionAlert];
        return;
      }
      ghost var before := calls;
      calls := calls + [OnSave(form)];
      calls := calls + [OnClose];
      assert calls == before + [OnSave(form), OnClose];
    }

    /** The close buttons, which call `onClose` directly. */
    method PressClose()
      modifies this`calls
      ensures calls == old(calls) + [OnClose]
    {
      calls := calls + [OnClose];
    }

    /**
     * The first half of `handlePickMedia`, up to the `await`: the spinner
     * goes on and the picker opens. Nothing else changes, so the form can be
     * edited (or the button pressed again) while the picker is open.
     */
    method BeginPickMedia()
      modifies this`loadingMedia
      ensures loadingMedia
    {
      loadingMedia := true;
    }

    /**
     * The second half of `handlePickMedia`, once the picker has settled. The
     * new items are appended to the media list as it is now (the update reads
     * `prev`, so edits made meanwhile are kept); the `finally` turns the
     * spinner off on every path, even when another pick is still pending;
     * `completed` is false when the handler ends by throwing.
     */
    method FinishPickMedia(outcome: PickerOutcome) returns (completed: bool)
      modifies this`formData, this`loadingMedia
      ensures !loadingMedia
      ensures (formData.media, completed) == PickedMedia(old(formData).media, outcome)
      ensures formData == old(formData).(media := formData.media)
    {
      completed := true;
      match outcome {
        case Canceled =>
        case PickerThrew =>
          completed := false;
        case Picked(assets) =>
          var added := NewMedia(assets);
          if added.None? {
            completed := false;
          } else {
            formData := formData.(media := formData.media + added.value);
          }
      }
      loadingMedia := false;
    }

    /** `handlePickMedia` when nothing else happens while the picker is open. */
    method HandlePickMedia(outcome: PickerOutcome) returns (completed: bool)
      modifies this`formData, this`loadingMedia
      ensures !loadingMedia
      ensures (formData.media, completed) == PickedMedia(old(formData).media, outcome)
      ensures formData == old(formData).(media := formData.media)
    {
      BeginPickMedia();
      completed := FinishPickMedia(outcome);
    }

    /** The preview row: one preview per picked file, in order. */
    function Previews(): (r: seq<Preview>)
      reads this
      ensures |r| == |formData.media|
      ensures forall i :: 0 <= i < |r| ==> r[i] == PreviewOf(formData.media[i])
    {
      seq(|formData.media|, i requires 0 <= i < |formData.media| reads this => PreviewOf(formData.media[i]))
    }
  }
}
