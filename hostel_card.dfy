/** The hostel card (src/components/HostelCard.tsx): the image carousel over
    the hostel's image media, the amenity badges, and the contact links. */
module HostelCard {
  import opened Wrappers
  import opened Seqs
  import opened Text

  /** A `hostel_media` row as the card reads it. */
  datatype HostelMedia = HostelMedia(mediaUrl: string, mediaType: string)

  /** The fields of a hostel the card uses. */
  datatype Hostel = Hostel(
    name: string,
    hostelMedia: Option<seq<HostelMedia>>,
    amenities: seq<string>,
    contactWhatsapp: Option<string>,
    contactPhone: Option<string>,
    preferredContact: string)

  /** A text field is truthy when present and non-empty. */
  predicate Truthy(field: Option<string>)
  {
    field.Some? && field.value != ""
  }

  predicate IsImage(media: HostelMedia)
  {
    media.mediaType == "image"
  }

  /** `images`: the image media, in their stored order; none when the hostel
      has no media list. */
  function Images(media: Option<seq<HostelMedia>>): seq<HostelMedia>
  {
    if media.Some? then Filter(media.value, IsImage) else []
  }

  lemma ImagesMembership(media: Option<seq<HostelMedia>>, m: HostelMedia)
    ensures m in Images(media) <==> media.Some? && m in media.value && m.mediaType == "image"
  {
    if media.Some? && m in media.value && IsImage(m) {
      var i :| 0 <= i < |media.value| && media.value[i] == m;
    }
  }

  /** The filter keeps the stored order: the images of a concatenation are
      the images of each part, one after the other. */
  lemma ImagesKeepOrder(a: seq<HostelMedia>, b: seq<HostelMedia>)
    ensures Images(Some(a + b)) == Images(Some(a)) + Images(Some(b))
  {
    FilterAppend(a, b, IsImage);
  }

  /** The previous-image button: back one, wrapping from the first to the last. */
  function PreviousIndex(prev: int, count: int): (i: int)
    ensures 0 <= prev < count ==> 0 <= i < count
  {
    if prev > 0 then prev - 1 else count - 1
  }

  /** The next-image button: forward one, wrapping from the last to the first. */
  function NextIndex(prev: int, count: int): (i: int)
    ensures 0 <= prev < count ==> 0 <= i < count
  {
    if prev < count - 1 then prev + 1 else 0
  }

  /** The two buttons undo each other. */
  lemma PreviousAndNextAreInverse(i: int, count: int)
    requires 0 <= i < count
    ensures NextIndex(PreviousIndex(i, count), count) == i
    ensures PreviousIndex(NextIndex(i, count), count) == i
  {
  }

  /** The index after pressing next `k` times. */
  function Advance(i: int, count: int, k: nat): int
  {
    if k == 0 then i else NextIndex(Advance(i, count, k - 1), count)
  }

  /** Within one lap, pressing next `k` times moves `k` places forward,
      wrapping past the last image once. */
  lemma {:induction false} AdvanceWithinOneLap(i: int, count: int, k: nat)
    requires 0 <= i < count && k <= count
    ensures Advance(i, count, k) == if i + k < count then i + k else i + k - count
  {
    if k > 0 {
      AdvanceWithinOneLap(i, count, k - 1);
    }
  }

  /** Pressing next visits every image before coming back, and `count`
      presses return to the starting image. */
  lemma CarouselCycles(i: int, count: int, j: int)
    requires 0 <= i < count && 0 <= j < count
    ensures Advance(i, count, count) == i
    ensures exists k: nat :: k < count && Advance(i, count, k) == j
  {
    AdvanceWithinOneLap(i, count, count);
    var k: nat := if i <= j then j - i else j - i + count;
    AdvanceWithinOneLap(i, count, k);
    assert Advance(i, count, k) == j;
  }

  /** The `index / length` counter, drawn only when there is more than one image. */
  function Counter(index: int, count: int): (shown: Option<(int, int)>)
    ensures shown.Some? <==> count > 1
    ensures shown.Some? ==> shown.value == (index + 1, count)
    ensures shown.Some? && 0 <= index < count ==> 1 <= shown.value.0 <= shown.value.1
  {
    if count > 1 then Some((index + 1, count)) else None
  }

  /** The carousel's own state, `currentImageIndex`, over a fixed number of images. */
  class ImageCarousel {
    const imageCount: nat
    var currentImageIndex: int

    predicate Valid()
      reads this
    {
      0 <= currentImageIndex && (currentImageIndex < imageCount || currentImageIndex == 0)
    }

    constructor (imageCount: nat)
      ensures this.imageCount == imageCount && currentImageIndex == 0 && Valid()
    {
      this.imageCount := imageCount;
      currentImageIndex := 0;
    }

    /** The buttons are drawn only when there is more than one image. */
    method ShowPrevious()
      requires Valid() && imageCount > 1
      modifies this
      ensures currentImageIndex == PreviousIndex(old(currentImageIndex), imageCount)
      ensures Valid() && currentImageIndex < imageCount
    {
      currentImageIndex := PreviousIndex(currentImageIndex, imageCount);
    }

    method ShowNext()
      requires Valid() && imageCount > 1
      modifies this
      ensures currentImageIndex == NextIndex(old(currentImageIndex), imageCount)
      ensures Valid() && currentImageIndex < imageCount
    {
      currentImageIndex := NextIndex(currentImageIndex, imageCount);
    }
  }

  /** `amenities.slice(0, 4)`. */
  function ShownAmenities(amenities: seq<string>): (shown: seq<string>)
    ensures |shown| == if |amenities| < 4 then |amenities| else 4
    ensures shown == amenities[..|shown|]
  {
    if |amenities| <= 4 then amenities else amenities[..4]
  }

  /** The `+k more` badge: how many amenities the slice hides, only when some are hidden. */
  function HiddenAmenities(amenities: seq<string>): (hidden: Option<nat>)
    ensures hidden.Some? <==> |amenities| > 4
    ensures hidden.Some? ==> |ShownAmenities(amenities)| + hidden.value == |amenities|
    ensures hidden.None? ==> ShownAmenities(amenities) == amenities
  {
    if |amenities| > 4 then Some(|amenities| - 4) else None
  }

  /** `amenity.replace('_', ' ')`: the first '_' becomes a space. */
  function AmenityLabel(amenity: string): (shown: string)
    ensures |shown| == |amenity|
    ensures forall i :: 0 <= i < |amenity| ==> shown[i] == if i == IndexOf(amenity, '_') then ' ' else amenity[i]
    ensures '_' !in amenity ==> shown == amenity
  {
    ReplaceFirst(amenity, '_', ' ')
  }

  /** An amenity with its first '_' between `a` and `b` is drawn as `a`, a
      space, and `b`; so "study_room" is drawn as "study room". */
  lemma AmenityLabelAtUnderscore(a: string, b: string)
    requires '_' !in a
    ensures AmenityLabel(a + ['_'] + b) == a + [' '] + b
  {
    var amenity := a + ['_'] + b;
    IndexOfJoin(a, b, '_');
    var shown := AmenityLabel(amenity);
    var expected := a + [' '] + b;
    assert |shown| == |expected|;
    forall i | 0 <= i < |amenity|
      ensures shown[i] == expected[i]
    {
      if i < |a| {
        assert amenity[i] == a[i] && expected[i] == a[i];
      } else if i > |a| {
        assert amenity[i] == b[i - |a| - 1] && expected[i] == b[i - |a| - 1];
      }
    }
  }

  datatype ContactMethod = WhatsApp | Phone | InApp

  const WhatsAppPrefix: string := "https://wa.me/"
  const PhonePrefix: string := "tel:"

  /** `handleContact`: the URL a contact button opens, if any. WhatsApp and
      phone open their number's link only when the number is present; in-app
      messaging opens nothing. */
  function ContactUrl(hostel: Hostel, via: ContactMethod): (url: Option<string>)
    ensures via == WhatsApp ==> (url.Some? <==> Truthy(hostel.contactWhatsapp))
    ensures via == Phone ==> (url.Some? <==> Truthy(hostel.contactPhone))
    ensures via == InApp ==> url.None?
    ensures via == WhatsApp && url.Some? ==>
      |url.value| >= |WhatsAppPrefix| && url.value[..|WhatsAppPrefix|] == WhatsAppPrefix
      && url.value[|WhatsAppPrefix|..] == hostel.contactWhatsapp.value
    ensures via == Phone && url.Some? ==>
      |url.value| >= |PhonePrefix| && url.value[..|PhonePrefix|] == PhonePrefix
      && url.value[|PhonePrefix|..] == hostel.contactPhone.value
  {
    match via
    case WhatsApp => if Truthy(hostel.contactWhatsapp) then Some(WhatsAppPrefix + hostel.contactWhatsapp.value) else None
    case Phone => if Truthy(hostel.contactPhone) then Some(PhonePrefix + hostel.contactPhone.value) else None
    case InApp => None
  }

  /** The contact buttons drawn, in order. */
  function ContactButtons(hostel: Hostel): seq<ContactMethod>
  {
    (if Truthy(hostel.contactWhatsapp) then [WhatsApp] else [])
    + (if Truthy(hostel.contactPhone) then [Phone] else [])
    + (if hostel.preferredContact == "in_app" then [InApp] else [])
  }

  /** Every WhatsApp or phone button that is drawn opens a link, and a link
      is never built for a contact that is absent. */
  lemma DrawnButtonsOpenLinks(hostel: Hostel, via: ContactMethod)
    ensures via != InApp ==> (via in ContactButtons(hostel) <==> ContactUrl(hostel, via).Some?)
  {
  }
}
