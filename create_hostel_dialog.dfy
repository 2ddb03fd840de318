/** The hostel listing dialog (src/components/CreateHostelDialog.tsx): the
    form and the list of files it keeps, the file cap, the upload of each
    file to storage with its `hostel_media` row, and the submit that creates
    the listing. Storage, the insert mutation and the clock are inputs. */
module CreateHostelDialog {
  import opened Wrappers
  import opened Seqs
  import opened Text
  import opened Ledger
  import HostelFilters

  /** The text fields of the form, as typed, and the selected amenities. */
  datatype HostelForm = HostelForm(
    name: string,
    description: string,
    locationAddress: string,
    priceMin: string,
    priceMax: string,
    totalRooms: string,
    availableRooms: string,
    amenities: seq<string>,
    contactWhatsapp: string,
    contactPhone: string,
    preferredContact: string)

  const EmptyForm: HostelForm := HostelForm("", "", "", "", "", "", "", [], "", "", "whatsapp")

  /** A picked `File`: its name and its MIME type. */
  datatype UploadFile = UploadFile(name: string, mimeType: string)

  const MaxFiles: nat := 10

  /** The status of a listing awaiting review. */
  const PendingStatus: string := "pending"

  /** The listing handed to the insert mutation. A `None` number is NaN. */
  datatype HostelInsert = HostelInsert(
    name: string,
    description: string,
    locationAddress: string,
    priceMin: Option<int>,
    priceMax: Option<int>,
    totalRooms: Option<int>,
    availableRooms: Option<int>,
    amenities: seq<string>,
    contactWhatsapp: string,
    contactPhone: string,
    preferredContact: string,
    status: string,
    isVerified: bool,
    paymentVerified: bool,
    latitude: Option<real>,
    longitude: Option<real>)

  /** The `hostelData` built from the form: the typed text fields copied,
      prices in pesewas, rooms as numbers, every new listing pending and
      unverified, and no coordinates (`null`, here `None`). */
  function HostelData(form: HostelForm): (row: HostelInsert)
    ensures row.status == PendingStatus && !row.isVerified && !row.paymentVerified
    ensures row.name == form.name && row.amenities == form.amenities
    ensures row.locationAddress == form.locationAddress && row.preferredContact == form.preferredContact
    ensures row.description == form.description
    ensures row.contactWhatsapp == form.contactWhatsapp && row.contactPhone == form.contactPhone
    ensures row.latitude.None? && row.longitude.None?
  {
    HostelInsert(form.name, form.description, form.locationAddress,
      ToPesewas(ParseInt(form.priceMin)), ToPesewas(ParseInt(form.priceMax)),
      ParseInt(form.totalRooms), ParseInt(form.availableRooms),
      form.amenities, form.contactWhatsapp, form.contactPhone, form.preferredContact,
      PendingStatus, false, false, None, None)
  }

  /** Prices typed as whole cedis are stored as 100 times that many
      pesewas, and room counts as typed. */
  lemma {:induction false} TypedNumbersAreConverted(form: HostelForm, min: nat, max: nat, total: nat, available: nat)
    requires form.priceMin == DecimalString(min) && form.priceMax == DecimalString(max)
    requires form.totalRooms == DecimalString(total) && form.availableRooms == DecimalString(available)
    ensures HostelData(form).priceMin == Some(min * 100) && HostelData(form).priceMax == Some(max * 100)
    ensures HostelData(form).totalRooms == Some(total) && HostelData(form).availableRooms == Some(available)
  {
    ParseIntDecimal(min);
    ParseIntDecimal(max);
    ParseIntDecimal(total);
    ParseIntDecimal(available);
  }

  /** An empty price field is NaN, not zero. */
  lemma EmptyPriceIsNaN(form: HostelForm)
    requires form.priceMin == ""
    ensures HostelData(form).priceMin.None?
  {
  }

  /** A `hostel_media` row. */
  datatype MediaEntry = MediaEntry(hostelId: string, mediaUrl: string, mediaType: string, displayOrder: int)

  /** The storage path of the `i`-th file, uploaded at time `now`:
      `userId/hostelId/now-i.ext`, where `ext` is the file name's text after
      its last '.', or the whole name when it has none. */
  function StoragePath(userId: string, hostelId: string, now: nat, i: nat, fileName: string): string
  {
    userId + "/" + hostelId + "/" + DecimalString(now) + "-" + DecimalString(i) + "." + LastSegment(fileName, '.')
  }

  /** Two files of one upload never share a path, whatever the clock reads. */
  lemma StoragePathsDistinct(userId: string, hostelId: string, now1: nat, now2: nat, i: nat, j: nat, name1: string, name2: string)
    requires i != j
    ensures StoragePath(userId, hostelId, now1, i, name1) != StoragePath(userId, hostelId, now2, j, name2)
  {
    var prefix := userId + "/" + hostelId + "/";
    var t1, t2 := DecimalString(now1), DecimalString(now2);
    var tail1 := DecimalString(i) + ['.'] + LastSegment(name1, '.');
    var tail2 := DecimalString(j) + ['.'] + LastSegment(name2, '.');
    assert StoragePath(userId, hostelId, now1, i, name1) == prefix + (t1 + ['-'] + tail1);
    assert StoragePath(userId, hostelId, now2, j, name2) == prefix + (t2 + ['-'] + tail2);
    if StoragePath(userId, hostelId, now1, i, name1) == StoragePath(userId, hostelId, now2, j, name2) {
      assert t1 + ['-'] + tail1 == (prefix + (t1 + ['-'] + tail1))[|prefix|..];
      assert t1 + ['-'] + tail1 == t2 + ['-'] + tail2;
      assert '-' !in t1 && '-' !in t2;
      SeparatedPairInjective(t1, tail1, t2, tail2, '-');
      assert '.' !in DecimalString(i) && '.' !in DecimalString(j);
      SeparatedPairInjective(DecimalString(i), LastSegment(name1, '.'), DecimalString(j), LastSegment(name2, '.'), '.');
      RadixStringInjective(i, j, 10);
    }
  }

  /** `file.type.startsWith('video/') ? 'video' : 'image'`. */
  function MediaType(mimeType: string): (kind: string)
    ensures kind == "video" <==> "video/" <= mimeType
    ensures kind != "video" ==> kind == "image"
  {
    if "video/" <= mimeType then "video" else "image"
  }

  /** The paths of the first `n` files of an upload, each at its own clock reading. */
  function UploadPaths(userId: string, hostelId: string, files: seq<UploadFile>, clock: nat -> nat, n: nat): (paths: seq<string>)
    requires n <= |files|
    ensures |paths| == n
    ensures forall i :: 0 <= i < n ==> paths[i] == StoragePath(userId, hostelId, clock(i), i, files[i].name)
  {
    if n == 0 then []
    else UploadPaths(userId, hostelId, files, clock, n - 1) + [StoragePath(userId, hostelId, clock(n - 1), n - 1, files[n - 1].name)]
  }

  /** No two files of an upload overwrite each other. */
  lemma UploadPathsDistinct(userId: string, hostelId: string, files: seq<UploadFile>, clock: nat -> nat, i: int, j: int)
    requires 0 <= i < j < |files|
    ensures UploadPaths(userId, hostelId, files, clock, |files|)[i] != UploadPaths(userId, hostelId, files, clock, |files|)[j]
  {
    StoragePathsDistinct(userId, hostelId, clock(i), clock(j), i, j, files[i].name, files[j].name);
  }

  /** The `hostel_media` rows of the first `n` files, in order. */
  function MediaEntries(userId: string, hostelId: string, files: seq<UploadFile>, clock: nat -> nat,
                        publicUrl: string -> string, n: nat): (entries: seq<MediaEntry>)
    requires n <= |files|
    ensures |entries| == n
    ensures forall i :: 0 <= i < n ==>
      entries[i] == MediaEntry(hostelId, publicUrl(StoragePath(userId, hostelId, clock(i), i, files[i].name)), MediaType(files[i].mimeType), i)
  {
    if n == 0 then []
    else
      var path := StoragePath(userId, hostelId, clock(n - 1), n - 1, files[n - 1].name);
      MediaEntries(userId, hostelId, files, clock, publicUrl, n - 1) + [MediaEntry(hostelId, publicUrl(path), MediaType(files[n - 1].mimeType), n - 1)]
  }

  /** Each row belongs to the new hostel, points at its own file's public
      URL, is a video exactly when the file's MIME type starts with
      `video/` and an image otherwise, and records the file's position as
      its display order. */
  lemma MediaEntriesDescribeFiles(userId: string, hostelId: string, files: seq<UploadFile>, clock: nat -> nat,
                                  publicUrl: string -> string, i: int)
    requires 0 <= i < |files|
    ensures var entry := MediaEntries(userId, hostelId, files, clock, publicUrl, |files|)[i];
      entry.hostelId == hostelId && entry.displayOrder == i
      && entry.mediaUrl == publicUrl(UploadPaths(userId, hostelId, files, clock, |files|)[i])
      && (entry.mediaType == "video" <==> "video/" <= files[i].mimeType)
      && (entry.mediaType == "image" <==> !("video/" <= files[i].mimeType))
  {
  }

  /** The first position in `[from, n)` whose upload fails, or `n`. */
  function FirstFailure(from: nat, n: nat, uploadSucceeds: nat -> bool): (k: nat)
    requires from <= n
    ensures from <= k <= n
    ensures forall j :: from <= j < k ==> uploadSucceeds(j)
    ensures k < n ==> !uploadSucceeds(k)
    decreases n - from
  {
    if from == n then n
    else if !uploadSucceeds(from) then from
    else FirstFailure(from + 1, n, uploadSucceeds)
  }

  /** The loop of `uploadMediaFiles`: uploads the files in order, each
      under its own path and clock reading, collecting one media row per
      file, and stops at the first failed upload. */
  method UploadEach(userId: string, hostelId: string, files: seq<UploadFile>,
                    clock: nat -> nat, uploadSucceeds: nat -> bool, publicUrl: string -> string)
    returns (uploads: seq<string>, mediaEntries: seq<MediaEntry>, failed: bool)
    ensures failed <==> FirstFailure(0, |files|, uploadSucceeds) < |files|
    ensures failed ==> uploads == UploadPaths(userId, hostelId, files, clock, FirstFailure(0, |files|, uploadSucceeds) + 1)
    ensures !failed ==> uploads == UploadPaths(userId, hostelId, files, clock, |files|)
    ensures !failed ==> mediaEntries == MediaEntries(userId, hostelId, files, clock, publicUrl, |files|)
  {
    uploads, mediaEntries, failed := [], [], false;
    ghost var stop := FirstFailure(0, |files|, uploadSucceeds);
    var i: nat := 0;
    while i < |files|
      invariant i <= stop
      invariant uploads == UploadPaths(userId, hostelId, files, clock, i)
      invariant mediaEntries == MediaEntries(userId, hostelId, files, clock, publicUrl, i)
    {
      var fileName := StoragePath(userId, hostelId, clock(i), i, files[i].name);
      uploads := uploads + [fileName];
      assert uploads == UploadPaths(userId, hostelId, files, clock, i + 1);
      if !uploadSucceeds(i) {
        assert stop == i;
        failed := true;
        return;
      }
      assert i < stop;
      mediaEntries := mediaEntries + [MediaEntry(hostelId, publicUrl(fileName), MediaType(files[i].mimeType), i)];
      i := i + 1;
    }
  }

  /** `uploadMediaFiles`: without a user it fails before uploading anything.
      Otherwise the first failed upload stops it with no media row written;
      when every upload succeeds the rows are inserted in one call, and no
      insert is made for an empty list. */
  method UploadMediaFiles(user: Option<AuthUser>, hostelId: string, files: seq<UploadFile>,
                          clock: nat -> nat, uploadSucceeds: nat -> bool, publicUrl: string -> string,
                          insertSucceeds: bool)
    returns (outcome: Result<seq<MediaEntry>, string>, uploads: seq<string>, inserted: seq<MediaEntry>)
    ensures user.None? ==> outcome == Failure("User not authenticated") && uploads == [] && inserted == []
    ensures user.Some? ==>
      var k := FirstFailure(0, |files|, uploadSucceeds);
      (k < |files| ==> outcome.Failure? && uploads == UploadPaths(user.value.id, hostelId, files, clock, k + 1) && inserted == [])
      && (k == |files| ==>
            uploads == UploadPaths(user.value.id, hostelId, files, clock, |files|)
            && inserted == MediaEntries(user.value.id, hostelId, files, clock, publicUrl, |files|)
            && (outcome.Success? <==> files == [] || insertSucceeds)
            && (outcome.Success? ==> outcome.value == inserted))
  {
    if user.None? {
      return Failure("User not authenticated"), [], [];
    }
    var mediaEntries, failed;
    uploads, mediaEntries, failed := UploadEach(user.value.id, hostelId, files, clock, uploadSucceeds, publicUrl);
    if failed {
      return Failure("upload failed"), uploads, [];
    }
    inserted := mediaEntries;
    if |mediaEntries| > 0 && !insertSucceeds {
      return Failure("insert failed"), uploads, inserted;
    }
    outcome := Success(mediaEntries);
  }

  /** A position `k` at or before which every upload succeeds, and which
      fails unless it is `n`, is the first failure. */
  lemma FirstFailureIsFirst(from: nat, n: nat, uploadSucceeds: nat -> bool, k: nat)
    requires from <= k <= n
    requires forall j :: from <= j < k ==> uploadSucceeds(j)
    requires k < n ==> !uploadSucceeds(k)
    ensures FirstFailure(from, n, uploadSucceeds) == k
    decreases n - from
  {
    if from < k {
      FirstFailureIsFirst(from + 1, n, uploadSucceeds, k);
    }
  }

  /** What a submit did: the listing it asked to create, and the media upload if it ran. */
  datatype SubmitTrace = SubmitTrace(createdListing: HostelInsert, media: Option<Result<seq<MediaEntry>, string>>)

  class HostelDialog {
    var formData: HostelForm
    var uploadedFiles: seq<UploadFile>
    var uploading: bool
    var open: bool

    /** The file cap holds through every handler. */
    predicate Valid()
      reads this
    {
      |uploadedFiles| <= MaxFiles
    }

    constructor (open: bool)
      ensures formData == EmptyForm && uploadedFiles == [] && !uploading && this.open == open && Valid()
    {
      formData := EmptyForm;
      uploadedFiles := [];
      uploading := false;
      this.open := open;
    }

    /** `handleAmenityChange`: the same toggle as the filter panel's, applied to the form. */
    method HandleAmenityChange(amenity: string, checked: bool)
      modifies this`formData
      ensures formData == old(formData).(amenities := HostelFilters.AmenityChange(old(formData).amenities, amenity, checked))
    {
      formData := formData.(amenities := HostelFilters.AmenityChange(formData.amenities, amenity, checked));
    }

    /** `handleFileUpload`: a pick that would take the list past ten files is
        refused with an alert and changes nothing; otherwise the picked
        files are appended in order. */
    method HandleFileUpload(files: seq<UploadFile>) returns (alerted: bool)
      requires Valid()
      modifies this`uploadedFiles
      ensures alerted <==> |old(uploadedFiles)| + |files| > MaxFiles
      ensures uploadedFiles == if alerted then old(uploadedFiles) else old(uploadedFiles) + files
      ensures Valid()
    {
      if |uploadedFiles| + |files| > MaxFiles {
        return true;
      }
      uploadedFiles := uploadedFiles + files;
      alerted := false;
    }

    /** `removeFile`: exactly position `index` goes, the rest keep their order. */
    method RemoveFile(index: int)
      requires Valid()
      modifies this`uploadedFiles
      ensures uploadedFiles == RemoveAt(old(uploadedFiles), index)
      ensures Valid()
    {
      uploadedFiles := RemoveAt(uploadedFiles, index);
    }

    /** `handleSubmit`: asks to create the listing from the form; when that
        succeeds and there are files, uploads them under the new hostel's id.
        Only a fully successful submit resets the form and the files and
        closes the dialog; `uploading` is false at the end in every case. */
    method HandleSubmit(user: Option<AuthUser>, createSucceeds: bool, hostelId: string, clock: nat -> nat,
                        uploadSucceeds: nat -> bool, publicUrl: string -> string, mediaInsertSucceeds: bool)
      returns (trace: SubmitTrace, succeeded: bool)
      requires Valid()
      modifies this`formData, this`uploadedFiles, this`uploading, this`open
      ensures trace.createdListing == HostelData(old(formData))
      ensures trace.media.Some? <==> createSucceeds && old(uploadedFiles) != []
      ensures trace.media.Some? ==>
        (trace.media.value.Success? <==>
           user.Some? && FirstFailure(0, |old(uploadedFiles)|, uploadSucceeds) == |old(uploadedFiles)| && mediaInsertSucceeds)
      ensures succeeded <==> createSucceeds && (trace.media.None? || trace.media.value.Success?)
      ensures succeeded ==> formData == EmptyForm && uploadedFiles == [] && !open
      ensures !succeeded ==> formData == old(formData) && uploadedFiles == old(uploadedFiles) && open == old(open)
      ensures !uploading && Valid()
    {
      uploading := true;
      trace := SubmitTrace(HostelData(formData), None);
      succeeded := createSucceeds;
      if createSucceeds && |uploadedFiles| > 0 {
        var outcome, _, _ := UploadMediaFiles(user, hostelId, uploadedFiles, clock, uploadSucceeds, publicUrl, mediaInsertSucceeds);
        trace := trace.(media := Some(outcome));
        succeeded := outcome.Success?;
      }
      if succeeded {
        ResetForm();
      }
      uploading := false;
    }

    /** The reset after a successful submit: an empty form, no files, and the dialog closed. */
    method ResetForm()
      modifies this`formData, this`uploadedFiles, this`open
      ensures formData == EmptyForm && uploadedFiles == [] && !open
    {
      formData := EmptyForm;
      uploadedFiles := [];
      open := false;
    }
  }
}
