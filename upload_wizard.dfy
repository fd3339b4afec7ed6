/** The three-step upload wizard of the create-video screen: pick a video
    (step 1), enter title, description and thumbnail (step 2), choose a
    category and upload (step 3). The media picker, the upload request and the
    clock are parameters; alerts are returned as values. */
module UploadWizard {
  import opened JsText
  import opened TaskStorage

  /** A media-library asset as the picker returns it. */
  datatype Asset = Asset(uri: string, fileName: Option<string>, fileSize: Option<int>, duration: Option<int>)

  /** What one visit to the media picker produced. */
  datatype PickResult =
    | PermissionDenied
    | Cancelled
    | Picked(assets: seq<Asset>)
    | PickerFailed

  datatype Alert = Alert(title: string, body: string)

  /** File facts shown under the preview. The size is kept as a byte count:
      its human-readable form is not part of this model. */
  datatype VideoInfo = VideoInfo(size: Option<int>, duration: Option<int>)

  // ---------------------------------------------------------------------------
  // Picking the video: the 100 MB admission check
  // ---------------------------------------------------------------------------

  const MaxVideoBytes: int := 100 * 1024 * 1024

  /** `fileSize || 0`: an unknown or zero size counts as 0 bytes. */
  function EffectiveSize(fileSize: Option<int>): (n: int)
    ensures fileSize.None? ==> n == 0
    ensures fileSize.Some? ==> n == fileSize.value
  {
    if fileSize.Some? then fileSize.value else 0
  }

  /** Whether a picked video may be kept: strictly larger than 100 MB is refused. */
  predicate Admitted(a: Asset)
  {
    EffectiveSize(a.fileSize) <= MaxVideoBytes
  }

  const FileTooLarge := Alert("File Too Large", "Video file must be less than 100MB")

  /** The outcome of one video pick: the asset to keep (None keeps the old
      selection) and the alert shown, if any. */
  datatype Choice = Choice(selected: Option<Asset>, alert: Option<Alert>)

  function ChooseVideo(pick: PickResult): (c: Choice)
    ensures c.selected.Some? <==> pick.Picked? && |pick.assets| > 0 && Admitted(pick.assets[0])
    ensures c.selected.Some? ==> c.selected.value == pick.assets[0] && c.alert.None?
    ensures pick.Picked? && |pick.assets| > 0 && !Admitted(pick.assets[0]) ==> c.alert == Some(FileTooLarge)
    ensures pick.Cancelled? || (pick.Picked? && pick.assets == []) ==> c == Choice(None, None)
    ensures pick.PermissionDenied? || pick.PickerFailed? ==> c.selected.None? && c.alert.Some?
  {
    match pick
    case PermissionDenied =>
      Choice(None, Some(Alert("Permission Required",
        "You need to grant access to your media library to upload videos.")))
    case Cancelled => Choice(None, None)
    case Picked(assets) =>
      if |assets| == 0 then Choice(None, None)
      else if !Admitted(assets[0]) then Choice(None, Some(FileTooLarge))
      else Choice(Some(assets[0]), None)
    case PickerFailed => Choice(None, Some(Alert("Error", "Failed to select video")))
  }

  /** A video without a size is never refused for its size. */
  lemma MissingSizeAdmitted(a: Asset)
    requires a.fileSize.None? || a.fileSize == Some(0)
    ensures ChooseVideo(Picked([a])) == Choice(Some(a), None)
  {
  }

  /** `selectedVideo.duration || undefined`: a zero duration is shown as unknown. */
  function InfoFor(a: Asset): (info: VideoInfo)
    ensures info.size == Some(EffectiveSize(a.fileSize))
    ensures info.duration.Some? <==> a.duration.Some? && a.duration.value != 0
    ensures info.duration.Some? ==> info.duration == a.duration
  {
    VideoInfo(Some(EffectiveSize(a.fileSize)),
              if a.duration.Some? && a.duration.value != 0 then a.duration else None)
  }

  function ChooseThumbnail(pick: PickResult): (c: Choice)
    ensures c.selected.Some? <==> pick.Picked? && |pick.assets| > 0
    ensures c.selected.Some? ==> c.selected.value == pick.assets[0] && c.alert.None?
    ensures pick.PermissionDenied? || pick.PickerFailed? ==> c.selected.None? && c.alert.Some?
    ensures pick.Cancelled? || (pick.Picked? && pick.assets == []) ==> c == Choice(None, None)
  {
    match pick
    case PermissionDenied =>
      Choice(None, Some(Alert("Permission Required",
        "You need to grant access to your media library to upload a thumbnail.")))
    case Cancelled => Choice(None, None)
    case Picked(assets) => if |assets| == 0 then Choice(None, None) else Choice(Some(assets[0]), None)
    case PickerFailed => Choice(None, Some(Alert("Error", "Failed to select thumbnail")))
  }

  // ---------------------------------------------------------------------------
  // Duration label
  // ---------------------------------------------------------------------------

  /** JavaScript `a % 60`: the remainder takes the sign of a. */
  function JsRem60(a: int): (r: int)
    ensures a >= 0 ==> r == a % 60
    ensures a < 0 ==> -60 < r <= 0
  {
    if a >= 0 then a % 60 else -((-a) % 60)
  }

  /** `formatDuration`: "m:ss" for a known non-zero number of seconds, else
      "Unknown". Minutes are `Math.floor(s / 60)`, seconds `s % 60` padded to
      two places. */
  function FormatDuration(seconds: Option<int>): string
  {
    if seconds.None? || seconds.value == 0 then "Unknown"
    else
      var s := seconds.value;
      IntToString(s / 60) + ":" + PadStart(IntToString(JsRem60(s)), 2, '0')
  }

  /** First index of `c` in `t`. */
  function IndexOf(t: string, c: char): (r: Option<nat>)
    ensures r.Some? ==> r.value < |t| && t[r.value] == c && forall j | 0 <= j < r.value :: t[j] != c
    ensures r.None? ==> forall j | 0 <= j < |t| :: t[j] != c
  {
    if t == [] then None
    else if t[0] == c then Some(0)
    else match IndexOf(t[1..], c)
      case None => None
      case Some(k) => Some(k + 1)
  }

  /** Reads an "m:ss" label back into seconds: the inverse of FormatDuration
      on positive durations. */
  function ParseDuration(t: string): Option<int>
  {
    match IndexOf(t, ':')
    case None => None
    case Some(colon) => ParseMinutesSeconds(t[..colon], t[colon + 1..])
  }

  /** The value of whole minutes and two-digit seconds below 60. */
  function ParseMinutesSeconds(m: string, p: string): Option<int>
  {
    var minutes, seconds := ParseNat(m), ParseNat(p);
    if minutes.Some? && seconds.Some? && |p| == 2 && seconds.value < 60
    then Some(minutes.value * 60 + seconds.value)
    else None
  }

  /** For a positive duration the label is the whole minutes, a colon and the
      remaining seconds in two digits, and minutes * 60 + seconds is the input. */
  lemma FormatDurationPositive(s: int)
    requires s > 0
    ensures FormatDuration(Some(s)) ==
            NatToString(s / 60) + ":" + PadStart(NatToString(s % 60), 2, '0')
    ensures |PadStart(NatToString(s % 60), 2, '0')| == 2
  {
    NatToStringLength(s % 60);
  }

  /** A decimal number, a colon and the rest split at that colon. */
  lemma SplitAtColon(m: string, p: string)
    requires forall j | 0 <= j < |m| :: IsDigit(m[j])
    ensures ParseDuration(m + ":" + p) == ParseMinutesSeconds(m, p)
  {
    var t := m + ":" + p;
    assert t[|m|] == ':';
    assert forall j | 0 <= j < |m| :: t[j] == m[j];
    assert IndexOf(t, ':') == Some(|m|);
    assert t[..|m|] == m && t[|m| + 1..] == p;
  }

  /** Whole minutes in decimal and two digits of seconds below 60 read back
      as minutes * 60 + seconds. */
  lemma ParseLabel(m: string, p: string)
    requires m != "" && forall j | 0 <= j < |m| :: IsDigit(m[j])
    requires |p| == 2 && IsDigit(p[0]) && IsDigit(p[1]) && ParseDigits(p) < 60
    ensures ParseMinutesSeconds(m, p) == Some(ParseDigits(m) * 60 + ParseDigits(p))
  {
    assert ParseNat(m) == Some(ParseDigits(m));
    assert ParseNat(p) == Some(ParseDigits(p));
  }

  /** Two-digit padding of a number of seconds below 60 reads back as that number. */
  lemma PaddedSeconds(r: nat)
    requires r < 60
    ensures var p := PadStart(NatToString(r), 2, '0');
            |p| == 2 && IsDigit(p[0]) && IsDigit(p[1]) && ParseDigits(p) == r
  {
    NatToStringLength(r);
    var p := PadStart(NatToString(r), 2, '0');
    if r < 10 {
      assert p == "0" + NatToString(r);
      assert p[..1] == "0";
    } else {
      ParseDigitsOfNat(r);
    }
  }

  /** The duration label of a positive duration reads back as that duration. */
  lemma DurationRoundTrip(s: int)
    requires s > 0
    ensures ParseDuration(FormatDuration(Some(s))) == Some(s)
  {
    FormatDurationPositive(s);
    var q, r := s / 60, s % 60;
    PaddedSeconds(r);
    ParseDigitsOfNat(q);
    var m, p := NatToString(q), PadStart(NatToString(r), 2, '0');
    SplitAtColon(m, p);
    ParseLabel(m, p);
  }

  /** An absent or zero duration is "Unknown". */
  lemma UnknownDuration(d: Option<int>)
    ensures FormatDuration(d) == "Unknown" <==> d.None? || d.value == 0
  {
    if d.Some? && d.value != 0 {
      assert FormatDuration(d)[|IntToString(d.value / 60)|] == ':';
    }
  }

  // ---------------------------------------------------------------------------
  // Step validation and navigation
  // ---------------------------------------------------------------------------

  datatype Verdict = Pass | Fail(alert: Alert)

  const VideoRequired := Alert("Video Required", "Please select a video to upload")
  const TitleRequired := Alert("Title Required", "Please enter a title for your video")
  const DescriptionRequired := Alert("Description Required", "Please enter a description for your video")

  /** `validateStep`: step 1 needs a video, step 2 a title and a description
      that are not blank; every other step passes. The title is checked
      before the description. */
  function ValidateStep(step: int, video: Option<Asset>, title: string, description: string): (v: Verdict)
    ensures v.Pass? <==> (step == 1 ==> video.Some?) &&
                         (step == 2 ==> !IsBlank(title) && !IsBlank(description))
    ensures step != 1 && step != 2 ==> v.Pass?
    ensures step == 1 && video.None? ==> v == Fail(VideoRequired)
    ensures step == 2 && IsBlank(title) ==> v == Fail(TitleRequired)
    ensures step == 2 && !IsBlank(title) && IsBlank(description) ==> v == Fail(DescriptionRequired)
  {
    if step == 1 then
      if video.None? then Fail(VideoRequired) else Pass
    else if step == 2 then
      if IsBlank(title) then Fail(TitleRequired)
      else if IsBlank(description) then Fail(DescriptionRequired)
      else Pass
    else Pass
  }

  /** The buttons at the bottom of each step. */
  datatype Button = CancelButton | NextButton | BackButton | UploadButton

  function ButtonsOn(step: int): (bs: set<Button>)
    ensures BackButton in bs <==> step == 2 || step == 3
    ensures NextButton in bs <==> step == 1 || step == 2
    ensures UploadButton in bs <==> step == 3
  {
    if step == 1 then {CancelButton, NextButton}
    else if step == 2 then {BackButton, NextButton}
    else if step == 3 then {BackButton, UploadButton}
    else {}
  }

  /** The step after pressing a button, given whether the current step validates. */
  function StepAfter(step: int, b: Button, valid: bool): int
  {
    match b
    case NextButton => if valid then step + 1 else step
    case BackButton => step - 1
    case _ => step
  }

  /** Next moves forward by exactly one when the step validates, Back moves
      back by exactly one, and pressing only the buttons a step shows keeps
      the wizard within steps 1 to 3. */
  lemma StepsStayInRange(step: int, b: Button, valid: bool)
    requires 1 <= step <= 3 && b in ButtonsOn(step)
    ensures 1 <= StepAfter(step, b, valid) <= 3
    ensures b == NextButton ==> StepAfter(step, b, valid) == if valid then step + 1 else step
    ensures b == BackButton ==> StepAfter(step, b, valid) == step - 1
  {
  }

  // ---------------------------------------------------------------------------
  // The upload form
  // ---------------------------------------------------------------------------

  datatype Platform = Ios | OtherPlatform

  datatype FormField =
    | TextField(name: string, value: string)
    | FileField(name: string, uri: string, fileName: string, mime: string)

  /** On iOS the first "file://" in the URI is removed. */
  function UploadUri(platform: Platform, uri: string): string
  {
    if platform == Ios then ReplaceFirst(uri, "file://", "") else uri
  }

  lemma UploadUriFacts(platform: Platform, uri: string)
    ensures platform == OtherPlatform ==> UploadUri(platform, uri) == uri
    ensures platform == Ios && OccursAt(uri, "file://", 0) ==> UploadUri(platform, uri) == uri[7..]
    ensures (forall k: nat | k <= |uri| :: !OccursAt(uri, "file://", k)) ==> UploadUri(platform, uri) == uri
    ensures platform == Ios ==>
              forall k: nat | OccursAt(uri, "file://", k) && (forall j: nat | j < k :: !OccursAt(uri, "file://", j)) ::
                UploadUri(platform, uri) == uri[..k] + uri[k + 7..]
  {
    if platform == Ios {
      forall k: nat | OccursAt(uri, "file://", k) && (forall j: nat | j < k :: !OccursAt(uri, "file://", j))
        ensures UploadUri(platform, uri) == uri[..k] + uri[k + 7..]
      {
        ReplaceFirstAt(uri, "file://", "", k);
      }
      if OccursAt(uri, "file://", 0) {
        ReplaceFirstAtStart(uri, "file://", "");
      }
      if forall k: nat | k <= |uri| :: !OccursAt(uri, "file://", k) {
        ReplaceFirstAbsent(uri, "file://", "");
      }
    }
  }

  /** The asset's own file name, or `<prefix><timestamp><extension>`. */
  function UploadName(fileName: Option<string>, prefix: string, stamp: int, extension: string): (n: string)
    ensures Present(fileName) ==> n == fileName.value
    ensures !Present(fileName) ==> |n| > |prefix| + |extension| &&
                                   n[..|prefix|] == prefix && n[|n| - |extension|..] == extension
    ensures !Present(fileName) && stamp >= 0 ==> ParseNat(n[|prefix|..|n| - |extension|]) == Some(stamp)
  {
    if Present(fileName) then fileName.value
    else
      var digits := IntToString(stamp);
      var n := prefix + digits + extension;
      assert n[|prefix|..|n| - |extension|] == digits;
      if stamp >= 0 then NatStringRoundTrip(stamp); n else n
  }

  function VideoField(platform: Platform, video: Asset, stamp: int): FormField
  {
    FileField("video_file", UploadUri(platform, video.uri),
              UploadName(video.fileName, "video_", stamp, ".mp4"), "video/mp4")
  }

  function ThumbnailField(platform: Platform, thumbnail: Asset, stamp: int): FormField
  {
    FileField("thumbnail", UploadUri(platform, thumbnail.uri),
              UploadName(thumbnail.fileName, "thumbnail_", stamp, ".jpg"), "image/jpeg")
  }

  /** The first field of the form with the given name. */
  function Lookup(form: seq<FormField>, name: string): (r: Option<FormField>)
    ensures r.Some? ==> r.value in form && r.value.name == name
    ensures r.None? <==> forall i | 0 <= i < |form| :: form[i].name != name
  {
    if form == [] then None
    else if form[0].name == name then Some(form[0])
    else Lookup(form[1..], name)
  }

  predicate DistinctNames(form: seq<FormField>)
  {
    forall i, j | 0 <= i < j < |form| :: form[i].name != form[j].name
  }

  /** The text fields of the form: title, description and, when one is
      chosen, the category. */
  function FormHead(title: string, description: string, category: Option<string>): seq<FormField>
  {
    var head := [TextField("title", title), TextField("description", description)];
    if Present(category) then head + [TextField("category", category.value)] else head
  }

  /** The multipart form `handleSubmit` appends to, in append order. The two
      timestamps stand for the two `Date.now()` calls. */
  function BuildForm(title: string, description: string, category: Option<string>,
                     video: Asset, thumbnail: Option<Asset>, platform: Platform,
                     videoStamp: int, thumbnailStamp: int): seq<FormField>
  {
    var withVideo := FormHead(title, description, category) + [VideoField(platform, video, videoStamp)];
    if thumbnail.Some? then withVideo + [ThumbnailField(platform, thumbnail.value, thumbnailStamp)]
    else withVideo
  }

  lemma HeadContents(title: string, description: string, category: Option<string>)
    ensures var head := FormHead(title, description, category);
      DistinctNames(head) &&
      Lookup(head, "title") == Some(TextField("title", title)) &&
      Lookup(head, "description") == Some(TextField("description", description)) &&
      Lookup(head, "category") ==
        (if Present(category) then Some(TextField("category", category.value)) else None) &&
      Lookup(head, "video_file").None? && Lookup(head, "thumbnail").None?
  {
    var t, d := TextField("title", title), TextField("description", description);
    var head := [t, d];
    assert Lookup(head, "description") == Some(d) by { assert head[1..] == [d]; }
    if Present(category) {
      var c := TextField("category", category.value);
      Append(head, c);
      AppendOther(head, c, "title");
      AppendOther(head, c, "description");
    }
  }

  /** The form always carries the title, the description and the video file,
      and no name appears twice. */
  lemma FormContents(title: string, description: string, category: Option<string>,
                     video: Asset, thumbnail: Option<Asset>, platform: Platform,
                     videoStamp: int, thumbnailStamp: int)
    ensures var form := BuildForm(title, description, category, video, thumbnail,
                                  platform, videoStamp, thumbnailStamp);
      DistinctNames(form) &&
      Lookup(form, "title") == Some(TextField("title", title)) &&
      Lookup(form, "description") == Some(TextField("description", description)) &&
      Lookup(form, "video_file") == Some(VideoField(platform, video, videoStamp))
  {
    var head := FormHead(title, description, category);
    HeadContents(title, description, category);
    var v := VideoField(platform, video, videoStamp);
    var withVideo := head + [v];
    Append(head, v);
    AppendOther(head, v, "title");
    AppendOther(head, v, "description");
    if thumbnail.Some? {
      var th := ThumbnailField(platform, thumbnail.value, thumbnailStamp);
      Append(withVideo, th);
      AppendOther(withVideo, th, "title");
      AppendOther(withVideo, th, "description");
      AppendOther(withVideo, th, "video_file");
    }
  }

  /** The form carries a category only when one is chosen and a thumbnail
      only when one is picked. */
  lemma FormOptionalFields(title: string, description: string, category: Option<string>,
                           video: Asset, thumbnail: Option<Asset>, platform: Platform,
                           videoStamp: int, thumbnailStamp: int)
    ensures var form := BuildForm(title, description, category, video, thumbnail,
                                  platform, videoStamp, thumbnailStamp);
      Lookup(form, "category") ==
        (if Present(category) then Some(TextField("category", category.value)) else None) &&
      Lookup(form, "thumbnail") ==
        (if thumbnail.Some? then Some(ThumbnailField(platform, thumbnail.value, thumbnailStamp)) else None)
  {
    var head := FormHead(title, description, category);
    HeadContents(title, description, category);
    var v := VideoField(platform, video, videoStamp);
    var withVideo := head + [v];
    AppendOther(head, v, "category");
    AppendOther(head, v, "thumbnail");
    if thumbnail.Some? {
      var th := ThumbnailField(platform, thumbnail.value, thumbnailStamp);
      Append(withVideo, th);
      AppendOther(withVideo, th, "category");
    }
  }

  /** The form holds no field besides those FormContents and
      FormOptionalFields describe. */
  lemma FormSize(title: string, description: string, category: Option<string>,
                 video: Asset, thumbnail: Option<Asset>, platform: Platform,
                 videoStamp: int, thumbnailStamp: int)
    ensures |BuildForm(title, description, category, video, thumbnail, platform, videoStamp, thumbnailStamp)|
            == 3 + (if Present(category) then 1 else 0) + (if thumbnail.Some? then 1 else 0)
  {
  }

  /** Appending a field under a new name keeps the names distinct and makes
      the field findable. */
  lemma Append(form: seq<FormField>, f: FormField)
    requires Lookup(form, f.name).None?
    ensures DistinctNames(form) ==> DistinctNames(form + [f])
    ensures Lookup(form + [f], f.name) == Some(f)
  {
    LookupAppend(form, f, f.name);
  }

  /** Appending a field leaves the lookup of every other name as it was. */
  lemma AppendOther(form: seq<FormField>, f: FormField, name: string)
    requires f.name != name
    ensures Lookup(form + [f], name) == Lookup(form, name)
  {
    LookupAppend(form, f, name);
  }

  /** Looking a name up in a form that grew by one field. */
  lemma {:induction false} LookupAppend(form: seq<FormField>, f: FormField, name: string)
    ensures Lookup(form + [f], name) ==
            if Lookup(form, name).Some? then Lookup(form, name)
            else if f.name == name then Some(f) else None
  {
    if form != [] {
      assert (form + [f])[1..] == form[1..] + [f];
      LookupAppend(form[1..], f, name);
    }
  }

  // ---------------------------------------------------------------------------
  // After the upload
  // ---------------------------------------------------------------------------

  /** The fields of the upload response the screen reads; `isPublished` is
      Some(b) only when the response carries a boolean. */
  datatype UploadData = UploadData(isPublished: Option<bool>, taskId: Option<string>)

  datatype UploadResponse = UploadFailed | Uploaded(data: Option<UploadData>)

  /** Where the screen goes once the upload request has answered. */
  datatype Destination = Processing(taskToStore: Option<string>) | PublishedNow

  /** `is_published === false` leads to the processing screen, storing the
      task id when one is present; anything else means published. */
  function AfterUpload(data: Option<UploadData>): (d: Destination)
    ensures d.Processing? <==> data.Some? && data.value.isPublished == Some(false)
    ensures d.Processing? ==> (d.taskToStore.Some? <==> Present(data.value.taskId))
    ensures d.Processing? && d.taskToStore.Some? ==> d.taskToStore == data.value.taskId
  {
    if data.Some? && data.value.isPublished == Some(false) then
      Processing(if Present(data.value.taskId) then data.value.taskId else None)
    else PublishedNow
  }

  const MissingVideo := Alert("Error", "Please select a video to upload")
  const PublishedAlert := Alert("Success", "Your video has been uploaded and published successfully!")
  const UploadFailedAlert := Alert("Upload Failed", "There was an error uploading your video. Please try again.")

  datatype SubmitResult =
    | Blocked(alert: Alert)
    | SentToProcessing(form: seq<FormField>)
    | Published(form: seq<FormField>, alert: Alert)
    | Failed(form: seq<FormField>, alert: Alert)

  // ---------------------------------------------------------------------------
  // The screen
  // ---------------------------------------------------------------------------

  class CreateVideoScreen {
    var title: string
    var description: string
    var category: Option<string>
    var video: Option<Asset>
    var thumbnail: Option<Asset>
    var isLoading: bool
    var currentStep: int
    var videoInfo: VideoInfo

    constructor ()
      ensures title == "" && description == "" && category.None?
      ensures video.None? && thumbnail.None? && !isLoading
      ensures currentStep == 1 && videoInfo == VideoInfo(None, None)
    {
      title, description, category := "", "", None;
      video, thumbnail := None, None;
      isLoading := false;
      currentStep := 1;
      videoInfo := VideoInfo(None, None);
    }

    /** `pickVideo`: keeps the first picked asset unless it is over 100 MB. */
    method PickVideo(pick: PickResult) returns (alert: Option<Alert>)
      modifies this`video, this`videoInfo
      ensures var c := ChooseVideo(pick);
              alert == c.alert &&
              (c.selected.Some? ==> video == c.selected && videoInfo == InfoFor(c.selected.value)) &&
              (c.selected.None? ==> video == old(video) && videoInfo == old(videoInfo))
    {
      var c := ChooseVideo(pick);
      alert := c.alert;
      if c.selected.Some? {
        video := c.selected;
        videoInfo := InfoFor(c.selected.value);
      }
    }

    /** `pickThumbnail`: keeps the first picked image. */
    method PickThumbnail(pick: PickResult) returns (alert: Option<Alert>)
      modifies this`thumbnail
      ensures var c := ChooseThumbnail(pick);
              alert == c.alert &&
              thumbnail == (if c.selected.Some? then c.selected else old(thumbnail))
    {
      var c := ChooseThumbnail(pick);
      alert := c.alert;
      if c.selected.Some? {
        thumbnail := c.selected;
      }
    }

    method SelectCategory(id: string)
      modifies this`category
      ensures category == Some(id)
    {
      category := Some(id);
    }

    /** `nextStep`: advances by one step when the current step validates. */
    method NextStep() returns (alert: Option<Alert>)
      modifies this`currentStep
      ensures var v := ValidateStep(old(currentStep), video, title, description);
              currentStep == StepAfter(old(currentStep), NextButton, v.Pass?) &&
              alert == (if v.Fail? then Some(v.alert) else None)
    {
      var v := ValidateStep(currentStep, video, title, description);
      if v.Pass? {
        currentStep := currentStep + 1;
        alert := None;
      } else {
        alert := Some(v.alert);
      }
    }

    /** `prevStep`: goes back one step, unconditionally. */
    method PrevStep()
      modifies this`currentStep
      ensures currentStep == StepAfter(old(currentStep), BackButton, true)
    {
      currentStep := currentStep - 1;
    }

    /** `handleSubmit`: validates, builds the form, sends it and branches on
        the answer. `isLoading` is false again once the request has answered,
        whether it succeeded or failed. */
    method HandleSubmit(platform: Platform, videoStamp: int, thumbnailStamp: int,
                        response: UploadResponse, store: TaskStore) returns (result: SubmitResult)
      modifies this`isLoading, store
      ensures var v := ValidateStep(currentStep, video, title, description);
              (v.Fail? ==> result == Blocked(v.alert)) &&
              (v.Pass? && video.None? ==> result == Blocked(MissingVideo)) &&
              (result.Blocked? <==> v.Fail? || video.None?)
      ensures result.Blocked? ==> isLoading == old(isLoading) && store.taskId == old(store.taskId)
      ensures !result.Blocked? ==>
                video.Some? && !isLoading &&
                result.form == BuildForm(title, description, category, video.value, thumbnail,
                                         platform, videoStamp, thumbnailStamp)
      ensures response.UploadFailed? && !result.Blocked? ==>
                result.Failed? && result.alert == UploadFailedAlert && store.taskId == old(store.taskId)
      ensures response.Uploaded? && !result.Blocked? ==>
                match AfterUpload(response.data)
                case Processing(t) =>
                  result.SentToProcessing? && store.taskId == (if t.Some? then t else old(store.taskId))
                case PublishedNow =>
                  result == Published(result.form, PublishedAlert) && store.taskId == old(store.taskId)
    {
      var v := ValidateStep(currentStep, video, title, description);
      if v.Fail? {
        return Blocked(v.alert);
      }
      if video.None? {
        return Blocked(MissingVideo);
      }
      isLoading := true;
      var form := BuildForm(title, description, category, video.value, thumbnail,
                            platform, videoStamp, thumbnailStamp);
      match response {
        case UploadFailed =>
          isLoading := false;
          result := Failed(form, UploadFailedAlert);
        case Uploaded(data) =>
          isLoading := false;
          match AfterUpload(data) {
            case Processing(t) =>
              if t.Some? {
                store.taskId := t;
              }
              result := SentToProcessing(form);
            case PublishedNow =>
              result := Published(form, PublishedAlert);
          }
      }
    }
  }
}
