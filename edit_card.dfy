/**
  The edit-post dialog: the images already on the post, the new local files
  dropped onto it (at most four images in all), the selected date, and the
  submission that uploads the new files, shows an estimated progress, and sends
  the update.

  Every handler of the component is one method of `EditModal`. The asynchronous
  parts of a submission are separate events: a tick of the progress timer, the
  settling of all uploads, and the success or failure callback of the update
  mutation. Calls into code outside the component (uploading a file, the update
  mutation, notices, the parent's callbacks) are appended to `calls`, in the
  order they are made, with the arguments they receive.
 */
module EditCard {
  import opened Wrappers

  /** The cap on existing plus new images. */
  const MaxImages: nat := 4

  /** The highest progress value shown while uploads are pending. */
  const ProgressCap: int := 90

  /** A file the user picked, before it is uploaded. */
  datatype LocalFile = LocalFile(name: string)

  /** An image already stored with the post. */
  datatype ImageRef = ImageRef(url: string)

  /** A date value: a time value, or the invalid date that parsing can produce. */
  datatype DateValue = DateValue(timeValue: int) | InvalidDate

  /** The post as the by-id query delivers it. */
  datatype LoadedPost = LoadedPost(title: string, description: string,
                                   datePosted: Option<string>, images: seq<ImageRef>)

  /** The text values of the form at submission. */
  datatype FormValues = FormValues(title: string, description: string, datePosted: string)

  /** The argument of the update mutation. */
  datatype UpdateArgs = UpdateArgs(id: int, title: string, description: string,
                                   datePosted: string, images: seq<string>)

  /** The notices the dialog shows. */
  datatype Notice = TooManyFiles | InvalidFileType | DateRequired | UploadFailed | PostUpdated | UpdateError

  /** A call out of the component. */
  datatype Call =
    | Upload(file: LocalFile)
    | UpdatePost(args: UpdateArgs)
    | Notify(notice: Notice)
    | RefreshPosts   // the parent's `onPostUpdated`
    | CloseModal     // the parent's `onClose`

  /** One progress interval: its running total and whether it is still scheduled. */
  datatype Timer = Timer(progress: int, running: bool)

  /**
    Where a submission stands. While uploading, the submission holds what its
    handler captured when it started: its timer, the files being uploaded, the
    existing images, the form values and the date.
   */
  datatype Phase =
    | Idle
    | Uploading(timer: nat, pending: seq<LocalFile>, kept: seq<ImageRef>,
                values: FormValues, date: DateValue)
    | Updating

  /** All the mutable state of the dialog, as one value. */
  datatype ModalState = ModalState(
    files: seq<LocalFile>,
    existingImages: seq<ImageRef>,
    datePosted: Option<DateValue>,
    uploadProgress: int,
    loading: bool,
    timers: seq<Timer>,
    phase: Phase,
    calls: seq<Call>)

  function Min(a: int, b: int): int
  {
    if a <= b then a else b
  }

  /** `s.filter((_, j) => j !== i)`. */
  function WithoutIndex<T>(s: seq<T>, i: int): (r: seq<T>)
    ensures |r| <= |s|
  {
    if s == [] then []
    else (if i == 0 then [] else [s[0]]) + WithoutIndex(s[1..], i - 1)
  }

  /**
    Filtering out index `i` removes exactly the element at `i` when `i` is in
    range, keeping the others in order, and changes nothing otherwise.
   */
  lemma {:induction false} WithoutIndexRemovesAt<T>(s: seq<T>, i: int)
    ensures WithoutIndex(s, i) == if 0 <= i < |s| then s[..i] + s[i + 1..] else s
  {
    if s != [] {
      var tail := s[1..];
      WithoutIndexRemovesAt(tail, i - 1);
      if i == 0 {
        assert s[..0] + s[1..] == tail;
      } else if 0 < i < |s| {
        assert tail[..i - 1] == s[1..i];
        assert tail[i..] == s[i + 1..];
        calc {
          WithoutIndex(s, i);
          [s[0]] + WithoutIndex(tail, i - 1);
          [s[0]] + (s[1..i] + s[i + 1..]);
          ([s[0]] + s[1..i]) + s[i + 1..];
          { assert s[..i] == [s[0]] + s[1..i]; }
          s[..i] + s[i + 1..];
        }
      } else {
        assert WithoutIndex(tail, i - 1) == tail;
        assert [s[0]] + tail == s;
      }
    }
  }

  /** `existingImages.map(img => img.url)`. */
  function Urls(images: seq<ImageRef>): (r: seq<string>)
    ensures |r| == |images|
    ensures forall i :: 0 <= i < |r| ==> r[i] == images[i].url
  {
    if images == [] then [] else [images[0].url] + Urls(images[1..])
  }

  /** The image list sent with the update: the existing urls, then the uploaded ones. */
  function AllImageUrls(existing: seq<ImageRef>, uploaded: seq<string>): (r: seq<string>)
    ensures |r| == |existing| + |uploaded|
    ensures forall i :: 0 <= i < |existing| ==> r[i] == existing[i].url
    ensures forall j :: 0 <= j < |uploaded| ==> r[|existing| + j] == uploaded[j]
  {
    Urls(existing) + uploaded
  }

  /** `files.map(file => uploadToS3(file))`: one upload call per file, in order. */
  function UploadCalls(files: seq<LocalFile>): (r: seq<Call>)
    ensures |r| == |files|
    ensures forall i :: 0 <= i < |r| ==> r[i] == Upload(files[i])
  {
    if files == [] then [] else [Upload(files[0])] + UploadCalls(files[1..])
  }

  /**
    `Promise.all` over the upload outcomes (`None` for a rejected upload): all
    urls in the order of the uploads when every upload succeeds, a failure when
    any one fails.
   */
  function JoinAll(outcomes: seq<Option<string>>): (r: Option<seq<string>>)
    ensures r.Some? <==> forall i :: 0 <= i < |outcomes| ==> outcomes[i].Some?
    ensures r.Some? ==> |r.value| == |outcomes|
    ensures r.Some? ==> forall i :: 0 <= i < |outcomes| ==> outcomes[i] == Some(r.value[i])
  {
    if outcomes == [] then Some([])
    else
      match outcomes[0]
      case None => None
      case Some(url) =>
        var rest := JoinAll(outcomes[1..]);
        assert forall i :: 1 <= i < |outcomes| ==> outcomes[i] == outcomes[1..][i - 1];
        match rest
        case None => None
        case Some(urls) => Some([url] + urls)
  }

  class EditModal {
    /** The id of the post being edited. */
    const postId: int
    /** `new Date(string)`. */
    const parseDate: string -> DateValue
    /** `toLocaleDateString()`, which depends on the locale. */
    const formatDate: DateValue -> string
    /** Whether the parent passed an `onPostUpdated` callback. */
    const hasRefresh: bool

    var files: seq<LocalFile>
    var existingImages: seq<ImageRef>
    var datePosted: Option<DateValue>
    var uploadProgress: int
    var loading: bool
    /** Every interval ever started, by start order; a cleared one is not running. */
    var timers: seq<Timer>
    var phase: Phase
    var calls: seq<Call>

    function State(): ModalState
      reads this
    {
      ModalState(files, existingImages, datePosted, uploadProgress, loading, timers, phase, calls)
    }

    ghost predicate Valid()
      reads this
    {
      && (loading <==> !phase.Idle?)
      && (phase.Uploading? ==> phase.timer < |timers| && phase.pending != [])
      && 0 <= uploadProgress <= 100
      && (forall k :: 0 <= k < |timers| ==> timers[k].progress >= 0)
    }

    /** While uploads are pending, the progress value does not exceed the cap. */
    ghost predicate ProgressCapped()
      reads this
    {
      phase.Uploading? ==> uploadProgress <= ProgressCap
    }

    /**
      Every running interval belongs to the submission whose uploads are
      pending: no interval outlives the submission that started it.
     */
    ghost predicate TimersOwned()
      reads this
    {
      forall k :: 0 <= k < |timers| && timers[k].running ==> phase.Uploading? && k == phase.timer
    }

    /**
      While uploads are pending, the progress value is not ahead of what the
      pending submission's interval would show.
     */
    ghost predicate ProgressBehindTimer()
      reads this
    {
      phase.Uploading? && phase.timer < |timers| ==>
        uploadProgress <= Min(timers[phase.timer].progress, ProgressCap)
    }

    /** The progress shown to the user, if any (it is shown while loading and positive). */
    function Displayed(): (shown: Option<int>)
      reads this
      ensures shown.Some? ==> loading && shown.value == uploadProgress && shown.value > 0
      ensures shown.None? ==> !loading || uploadProgress <= 0
    {
      if loading && uploadProgress > 0 then Some(uploadProgress) else None
    }

    /** Whether the save button is enabled. */
    predicate SubmitEnabled(formValid: bool)
      reads this
    {
      formValid && !loading && datePosted.Some?
    }

    constructor (postId: int, parseDate: string -> DateValue, formatDate: DateValue -> string,
                 hasRefresh: bool)
      ensures Valid() && ProgressCapped() && TimersOwned() && ProgressBehindTimer()
      ensures this.postId == postId && this.parseDate == parseDate
      ensures this.formatDate == formatDate && this.hasRefresh == hasRefresh
      ensures State() == ModalState([], [], None, 0, false, [], Idle, [])
    {
      this.postId := postId;
      this.parseDate := parseDate;
      this.formatDate := formatDate;
      this.hasRefresh := hasRefresh;
      files, existingImages, datePosted := [], [], None;
      uploadProgress, loading := 0, false;
      timers, phase, calls := [], Idle, [];
    }

    /**
      The drop handler: files that would bring the total past four are refused
      as a whole with a notice; otherwise they are appended after the current
      files, in order.
     */
    method OnDrop(accepted: seq<LocalFile>)
      requires Valid()
      modifies this
      ensures Valid() && (old(ProgressCapped()) ==> ProgressCapped())
      ensures old(TimersOwned()) ==> TimersOwned()
      ensures old(ProgressBehindTimer()) ==> ProgressBehindTimer()
      ensures |old(files)| + |old(existingImages)| + |accepted| > MaxImages ==>
                State() == old(State()).(calls := old(calls) + [Notify(TooManyFiles)])
      ensures |old(files)| + |old(existingImages)| + |accepted| <= MaxImages ==>
                State() == old(State()).(files := old(files) + accepted)
                && |files| + |existingImages| <= MaxImages
    {
      var totalImages := |files| + |existingImages| + |accepted|;
      if totalImages > MaxImages {
        calls := calls + [Notify(TooManyFiles)];
        return;
      }
      files := files + accepted;
    }

    /** The handler for files the picker's type filter refused. */
    method OnDropRejected()
      requires Valid()
      modifies this
      ensures Valid() && (old(ProgressCapped()) ==> ProgressCapped())
      ensures old(TimersOwned()) ==> TimersOwned()
      ensures old(ProgressBehindTimer()) ==> ProgressBehindTimer()
      ensures State() == old(State()).(calls := old(calls) + [Notify(InvalidFileType)])
    {
      calls := calls + [Notify(InvalidFileType)];
    }

    /** Removes the existing image at `index`; touches no other list. */
    method RemoveExistingImage(index: int)
      requires Valid()
      modifies this
      ensures Valid() && (old(ProgressCapped()) ==> ProgressCapped())
      ensures old(TimersOwned()) ==> TimersOwned()
      ensures old(ProgressBehindTimer()) ==> ProgressBehindTimer()
      ensures State() == old(State()).(existingImages := WithoutIndex(old(existingImages), index))
      ensures existingImages == if 0 <= index < |old(existingImages)|
                                then old(existingImages)[..index] + old(existingImages)[index + 1..]
                                else old(existingImages)
    {
      WithoutIndexRemovesAt(existingImages, index);
      existingImages := WithoutIndex(existingImages, index);
    }

    /** Removes the new file at `index`; touches no other list. */
    method RemoveNewImage(index: int)
      requires Valid()
      modifies this
      ensures Valid() && (old(ProgressCapped()) ==> ProgressCapped())
      ensures old(TimersOwned()) ==> TimersOwned()
      ensures old(ProgressBehindTimer()) ==> ProgressBehindTimer()
      ensures State() == old(State()).(files := WithoutIndex(old(files), index))
      ensures files == if 0 <= index < |old(files)|
                       then old(files)[..index] + old(files)[index + 1..]
                       else old(files)
    {
      WithoutIndexRemovesAt(files, index);
      files := WithoutIndex(files, index);
    }

    /** The date picker forwards only a defined date. */
    method SelectDate(date: DateValue)
      requires Valid()
      modifies this
      ensures Valid() && (old(ProgressCapped()) ==> ProgressCapped())
      ensures old(TimersOwned()) ==> TimersOwned()
      ensures old(ProgressBehindTimer()) ==> ProgressBehindTimer()
      ensures State() == old(State()).(datePosted := Some(date))
    {
      datePosted := Some(date);
    }

    /** Closing: the new files are dropped and the progress is reset; the parent is told. */
    method HandleClose()
      requires Valid()
      modifies this
      ensures Valid() && ProgressCapped()
      ensures old(TimersOwned()) ==> TimersOwned()
      ensures ProgressBehindTimer()
      ensures State() == old(State()).(files := [], uploadProgress := 0,
                                       calls := old(calls) + [CloseModal])
    {
      files := [];
      uploadProgress := 0;
      calls := calls + [CloseModal];
    }

    /**
      The effect run when the post arrives: its images become the existing
      images, and its date, when present and non-empty, becomes the selected date.
     */
    method OnPostLoaded(post: LoadedPost)
      requires Valid()
      modifies this
      ensures Valid() && (old(ProgressCapped()) ==> ProgressCapped())
      ensures old(TimersOwned()) ==> TimersOwned()
      ensures old(ProgressBehindTimer()) ==> ProgressBehindTimer()
      ensures post.datePosted.Some? && post.datePosted.value != "" ==>
                State() == old(State()).(existingImages := post.images,
                                         datePosted := Some(parseDate(post.datePosted.value)))
      ensures !(post.datePosted.Some? && post.datePosted.value != "") ==>
                State() == old(State()).(existingImages := post.images)
    {
      existingImages := post.images;
      if post.datePosted.Some? && post.datePosted.value != "" {
        datePosted := Some(parseDate(post.datePosted.value));
      }
    }

    /**
      The submit handler, up to its first wait. Without a date it only shows a
      notice. Otherwise it starts loading and a progress timer; with no new
      files there is nothing to wait for, so the timer is cleared at once, the
      progress set to 100 and the update sent with the existing urls alone;
      with new files every file's upload is started, in order.
      The progress value is not reset when a submission starts.
     */
    method Submit(values: FormValues)
      requires Valid() && !loading
      modifies this
      ensures Valid()
      ensures old(TimersOwned()) ==> TimersOwned()
      ensures loading <==> old(datePosted).Some?
      ensures old(SubmitEnabled(true)) ==> loading
      ensures old(datePosted).None? ==>
                State() == old(State()).(calls := old(calls) + [Notify(DateRequired)])
      ensures old(datePosted).Some? && old(files) == [] ==>
                State() == old(State()).(
                  loading := true, uploadProgress := 100, phase := Updating,
                  timers := old(timers) + [Timer(0, false)],
                  calls := old(calls) + [UpdatePost(UpdateArgs(postId, values.title, values.description,
                                                               formatDate(old(datePosted).value),
                                                               Urls(old(existingImages))))])
      ensures old(datePosted).Some? && old(files) != [] ==>
                State() == old(State()).(
                  loading := true,
                  phase := Uploading(|old(timers)|, old(files), old(existingImages), values,
                                     old(datePosted).value),
                  timers := old(timers) + [Timer(0, true)],
                  calls := old(calls) + UploadCalls(old(files)))
    {
      if datePosted.None? {
        calls := calls + [Notify(DateRequired)];
        return;
      }
      loading := true;
      var timer := |timers|;
      timers := timers + [Timer(0, true)];
      if files == [] {
        timers := timers[timer := Timer(0, false)];
        uploadProgress := 100;
        var args := UpdateArgs(postId, values.title, values.description,
                               formatDate(datePosted.value), AllImageUrls(existingImages, []));
        assert AllImageUrls(existingImages, []) == Urls(existingImages);
        calls := calls + [UpdatePost(args)];
        phase := Updating;
      } else {
        calls := calls + UploadCalls(files);
        phase := Uploading(timer, files, existingImages, values, datePosted.value);
      }
    }

    /**
      The submit handler with the progress reset to 0 when a submission starts,
      so that a value left by an earlier submission is never shown as the
      progress of this one.
     */
    method SubmitFromZero(values: FormValues)
      requires Valid() && !loading
      modifies this
      ensures Valid() && (old(ProgressCapped()) ==> ProgressCapped())
      ensures old(TimersOwned()) ==> TimersOwned()
      ensures ProgressBehindTimer()
      ensures phase.Uploading? ==> uploadProgress == 0
      ensures old(datePosted).None? ==>
                State() == old(State()).(calls := old(calls) + [Notify(DateRequired)])
      ensures old(datePosted).Some? && old(files) == [] ==>
                State() == old(State()).(
                  loading := true, uploadProgress := 100, phase := Updating,
                  timers := old(timers) + [Timer(0, false)],
                  calls := old(calls) + [UpdatePost(UpdateArgs(postId, values.title, values.description,
                                                               formatDate(old(datePosted).value),
                                                               Urls(old(existingImages))))])
      ensures old(datePosted).Some? && old(files) != [] ==>
                State() == old(State()).(
                  loading := true, uploadProgress := 0,
                  phase := Uploading(|old(timers)|, old(files), old(existingImages), values,
                                     old(datePosted).value),
                  timers := old(timers) + [Timer(0, true)],
                  calls := old(calls) + UploadCalls(old(files)))
    {
      if datePosted.Some? {
        uploadProgress := 0;
      }
      Submit(values);
    }

    /**
      A tick of interval `t`: when still running it adds a non-negative amount
      to its total, stops itself once the total passes 90, and shows the total
      capped at 90. A cleared interval does nothing.
     */
    method ProgressTick(t: nat, increment: nat)
      requires Valid() && t < |timers|
      modifies this
      ensures Valid()
      ensures old(timers[t].running) ==>
                var total := old(timers[t].progress) + increment;
                && State() == old(State()).(timers := old(timers)[t := Timer(total, total <= ProgressCap)],
                                             uploadProgress := Min(total, ProgressCap))
                && uploadProgress <= ProgressCap
      ensures !old(timers[t].running) ==> State() == old(State())
      ensures old(ProgressCapped()) ==> ProgressCapped()
      ensures old(TimersOwned()) ==> TimersOwned()
      ensures old(TimersOwned() && ProgressBehindTimer()) ==> ProgressBehindTimer()
      ensures old(TimersOwned() && ProgressBehindTimer()) ==> uploadProgress >= old(uploadProgress)
    {
      if timers[t].running {
        var total := timers[t].progress + increment;
        timers := timers[t := Timer(total, total <= ProgressCap)];
        uploadProgress := Min(total, ProgressCap);
      }
    }

    /**
      The uploads of the pending submission settle, `outcomes[i]` being the
      outcome of uploading the i-th pending file. When all succeed, the timer is
      cleared, the progress set to 100, and the update sent with the captured
      values and date and the captured existing urls followed by the uploaded
      urls in file order. When any fails, loading stops, the progress is reset to
      0 and a notice is shown; the timer is not cleared.
     */
    method UploadsSettled(outcomes: seq<Option<string>>)
      requires Valid() && phase.Uploading? && |outcomes| == |phase.pending|
      modifies this
      ensures Valid() && ProgressCapped() && ProgressBehindTimer()
      ensures old(TimersOwned()) && JoinAll(outcomes).Some? ==> TimersOwned()
      ensures JoinAll(outcomes).Some? ==> uploadProgress >= old(uploadProgress)
      ensures var p := old(phase);
              JoinAll(outcomes).Some? ==>
                State() == old(State()).(
                  timers := old(timers)[p.timer := old(timers)[p.timer].(running := false)],
                  uploadProgress := 100, phase := Updating,
                  calls := old(calls) + [UpdatePost(UpdateArgs(postId, p.values.title, p.values.description,
                                                               formatDate(p.date),
                                                               AllImageUrls(p.kept, JoinAll(outcomes).value)))])
      ensures JoinAll(outcomes).None? ==>
                State() == old(State()).(loading := false, uploadProgress := 0, phase := Idle,
                                         calls := old(calls) + [Notify(UploadFailed)])
    {
      var uploaded := JoinAll(outcomes);
      if uploaded.None? {
        loading := false;
        uploadProgress := 0;
        calls := calls + [Notify(UploadFailed)];
        phase := Idle;
        return;
      }
      var t := phase.timer;
      ghost var owned := TimersOwned();
      timers := timers[t := timers[t].(running := false)];
      if owned {
        assert forall k :: 0 <= k < |timers| ==> !timers[k].running;
      }
      uploadProgress := 100;
      var args := UpdateArgs(postId, phase.values.title, phase.values.description,
                             formatDate(phase.date), AllImageUrls(phase.kept, uploaded.value));
      calls := calls + [UpdatePost(args)];
      phase := Updating;
    }

    /**
      The settling of the uploads with the interval cleared on failure as well
      as on success, so that no interval outlives its submission.
     */
    method UploadsSettledClearing(outcomes: seq<Option<string>>)
      requires Valid() && phase.Uploading? && |outcomes| == |phase.pending|
      modifies this
      ensures Valid() && ProgressCapped() && ProgressBehindTimer()
      ensures old(TimersOwned()) ==> TimersOwned()
      ensures var p := old(phase);
              JoinAll(outcomes).Some? ==>
                State() == old(State()).(
                  timers := old(timers)[p.timer := old(timers)[p.timer].(running := false)],
                  uploadProgress := 100, phase := Updating,
                  calls := old(calls) + [UpdatePost(UpdateArgs(postId, p.values.title, p.values.description,
                                                               formatDate(p.date),
                                                               AllImageUrls(p.kept, JoinAll(outcomes).value)))])
      ensures var p := old(phase);
              JoinAll(outcomes).None? ==>
                State() == old(State()).(
                  timers := old(timers)[p.timer := old(timers)[p.timer].(running := false)],
                  loading := false, uploadProgress := 0, phase := Idle,
                  calls := old(calls) + [Notify(UploadFailed)])
    {
      if JoinAll(outcomes).None? {
        timers := timers[phase.timer := timers[phase.timer].(running := false)];
      }
      UploadsSettled(outcomes);
    }

    /**
      The update succeeded: loading stops, the parent's refresh runs when there
      is one, then the dialog closes and a notice is shown.
     */
    method UpdateSucceeded()
      requires Valid() && phase.Updating?
      modifies this
      ensures Valid() && ProgressCapped() && ProgressBehindTimer()
      ensures old(TimersOwned()) ==> TimersOwned()
      ensures State() == old(State()).(
                loading := false, phase := Idle, files := [], uploadProgress := 0,
                calls := old(calls) + (if hasRefresh then [RefreshPosts] else [])
                         + [CloseModal, Notify(PostUpdated)])
    {
      loading := false;
      phase := Idle;
      if hasRefresh {
        calls := calls + [RefreshPosts];
      }
      HandleClose();
      calls := calls + [Notify(PostUpdated)];
    }

    /** The update failed: loading stops and a notice is shown; nothing else changes. */
    method UpdateFailed()
      requires Valid() && phase.Updating?
      modifies this
      ensures Valid() && ProgressCapped() && ProgressBehindTimer()
      ensures old(TimersOwned()) ==> TimersOwned()
      ensures State() == old(State()).(loading := false, phase := Idle,
                                       calls := old(calls) + [Notify(UpdateError)])
    {
      loading := false;
      phase := Idle;
      calls := calls + [Notify(UpdateError)];
    }
  }

  /**
    With the submit handler as written: after an update that failed, whose
    submission had set the progress to 100, submitting again shows 100 while the
    new uploads are still pending.
   */
  method StaleProgressOnRetry() returns (shown: Option<int>, pending: bool)
    ensures pending && shown == Some(100)
  {
    var m := new EditModal(7, _ => InvalidDate, _ => "1/2/2024", false);
    var values := FormValues("title", "description", "1/2/2024");
    m.SelectDate(DateValue(0));
    m.OnDrop([LocalFile("a.png")]);
    m.Submit(values);
    m.UploadsSettled([Some("https://bucket/a.png")]);
    m.UpdateFailed();
    m.Submit(values);
    shown := m.Displayed();
    pending := m.phase.Uploading?;
  }

  /** The same sequence of events with the corrected handler shows nothing until a tick. */
  method FreshProgressOnRetry() returns (shown: Option<int>, pending: bool)
    ensures pending && shown == None
  {
    var m := new EditModal(7, _ => InvalidDate, _ => "1/2/2024", false);
    var values := FormValues("title", "description", "1/2/2024");
    m.SelectDate(DateValue(0));
    m.OnDrop([LocalFile("a.png")]);
    m.SubmitFromZero(values);
    m.UploadsSettled([Some("https://bucket/a.png")]);
    m.UpdateFailed();
    m.SubmitFromZero(values);
    shown := m.Displayed();
    pending := m.phase.Uploading?;
  }

  /**
    With the failure branch as written: the interval of a submission whose
    upload failed keeps running, and during a later submission one of its ticks
    moves the shown progress from 100 back to 10.
   */
  method OrphanedTimerOnRetry() returns (before: Option<int>, after: Option<int>, loading: bool)
    ensures before == Some(100) && after == Some(10) && loading
  {
    var m := new EditModal(7, _ => InvalidDate, _ => "1/2/2024", false);
    var values := FormValues("title", "description", "1/2/2024");
    m.SelectDate(DateValue(0));
    m.OnDrop([LocalFile("a.png")]);
    m.Submit(values);
    m.UploadsSettled([None]);
    m.Submit(values);
    m.UploadsSettled([Some("https://bucket/a.png")]);
    before := m.Displayed();
    m.ProgressTick(0, 10);
    after := m.Displayed();
    loading := m.loading;
  }

  /** The same events with the interval cleared on failure: the tick changes nothing. */
  method ClearedTimerOnRetry() returns (before: Option<int>, after: Option<int>, loading: bool)
    ensures before == Some(100) && after == Some(100) && loading
  {
    var m := new EditModal(7, _ => InvalidDate, _ => "1/2/2024", false);
    var values := FormValues("title", "description", "1/2/2024");
    m.SelectDate(DateValue(0));
    m.OnDrop([LocalFile("a.png")]);
    m.SubmitFromZero(values);
    m.UploadsSettledClearing([None]);
    m.SubmitFromZero(values);
    m.UploadsSettledClearing([Some("https://bucket/a.png")]);
    before := m.Displayed();
    m.ProgressTick(0, 10);
    after := m.Displayed();
    loading := m.loading;
  }
}
