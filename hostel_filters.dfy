/** The hostel filter panel (src/components/HostelFilters.tsx): the values
    its handlers hand back to the page for the search text, the price range
    and the selected amenities. The panel keeps no state of its own. */
module HostelFilters {
  import opened Wrappers
  import opened Seqs

  datatype AmenityOption = AmenityOption(value: string, caption: string)

  /** The amenity checkboxes, in the order they are drawn. */
  const AmenityOptions: seq<AmenityOption> := [
    AmenityOption("wifi", "Wi-Fi"),
    AmenityOption("ac", "Air Conditioning"),
    AmenityOption("parking", "Parking"),
    AmenityOption("kitchen", "Kitchen"),
    AmenityOption("laundry", "Laundry"),
    AmenityOption("security", "Security"),
    AmenityOption("gym", "Gym"),
    AmenityOption("study_room", "Study Room"),
    AmenityOption("common_area", "Common Area"),
    AmenityOption("backup_power", "Backup Power")]

  /** The slider's bounds. */
  const PriceFloor: int := 0
  const PriceCeiling: int := 5000

  /** The three filters the panel edits. */
  datatype Filters = Filters(searchTerm: string, priceRange: (int, int), selectedAmenities: seq<string>)

  /** The predicate `a => a !== amenity`. */
  function Other(amenity: string): string -> bool
  {
    a => a != amenity
  }

  /** `handleAmenityChange`: checking appends the amenity at the end, with
      no duplicate check; unchecking keeps every other amenity, in order. */
  function AmenityChange(selected: seq<string>, amenity: string, checked: bool): (r: seq<string>)
    ensures checked ==> |r| == |selected| + 1 && r[..|selected|] == selected && r[|selected|] == amenity
    ensures !checked ==> amenity !in r && |r| <= |selected|
    ensures !checked ==> forall a :: a != amenity && a in selected ==> a in r
  {
    if checked then selected + [amenity] else Filter(selected, Other(amenity))
  }

  /** `removeAmenity`, the cross on a badge: the same as unchecking. */
  function RemoveAmenity(selected: seq<string>, amenity: string): (r: seq<string>)
    ensures amenity !in r
    ensures forall i :: 0 <= i < |selected| && selected[i] != amenity ==> selected[i] in r
  {
    Filter(selected, Other(amenity))
  }

  /** Unchecking removes every occurrence and keeps each other amenity as
      often as it was selected. */
  lemma {:induction false} UncheckRemovesEveryOccurrence(selected: seq<string>, amenity: string, a: string)
    ensures multiset(AmenityChange(selected, amenity, false))[a] == if a == amenity then 0 else multiset(selected)[a]
    ensures RemoveAmenity(selected, amenity) == AmenityChange(selected, amenity, false)
  {
    FilterCounts(selected, Other(amenity), a);
  }

  /** Unchecking keeps the relative order of what remains: it distributes
      over any split of the list. */
  lemma UncheckKeepsOrder(front: seq<string>, back: seq<string>, amenity: string)
    ensures AmenityChange(front + back, amenity, false)
         == AmenityChange(front, amenity, false) + AmenityChange(back, amenity, false)
  {
    FilterAppend(front, back, Other(amenity));
  }

  /** Checking then unchecking an amenity that was not selected gives back
      the original list. */
  lemma {:induction false} CheckThenUncheckRestores(selected: seq<string>, amenity: string)
    requires amenity !in selected
    ensures AmenityChange(AmenityChange(selected, amenity, true), amenity, false) == selected
  {
    var keep := Other(amenity);
    FilterAppend(selected, [amenity], keep);
    FilterKeepsAll(selected, keep);
    assert Filter([amenity], keep) == [];
  }

  /** `clearAllFilters`. */
  function ClearAllFilters(): (cleared: Filters)
    ensures cleared.searchTerm == "" && cleared.selectedAmenities == []
    ensures cleared.priceRange == (PriceFloor, PriceCeiling)
  {
    Filters("", (0, 5000), [])
  }

  /** `hasActiveFilters`. */
  predicate HasActiveFilters(f: Filters)
  {
    f.searchTerm != "" || f.priceRange.0 > 0 || f.priceRange.1 < 5000 || |f.selectedAmenities| > 0
  }

  /** A price range the slider can produce. */
  predicate WithinSlider(f: Filters)
  {
    PriceFloor <= f.priceRange.0 && f.priceRange.1 <= PriceCeiling
  }

  /** Within the slider's bounds the "Clear all" link shows exactly when the
      filters differ from the cleared ones, so clearing hides it. */
  lemma InactiveExactlyWhenCleared(f: Filters)
    requires WithinSlider(f)
    ensures !HasActiveFilters(f) <==> f == ClearAllFilters()
    ensures !HasActiveFilters(ClearAllFilters())
  {
  }

  /** `amenityOptions.find(opt => opt.value === amenity)`: the first option
      with that value. */
  function FindOption(options: seq<AmenityOption>, value: string): (found: Option<AmenityOption>)
    ensures found.Some? ==> exists i :: 0 <= i < |options| && options[i] == found.value && IsFirstWithValue(options, i, value)
    ensures found.Some? ==> found.value.value == value
    ensures found.None? ==> forall i :: 0 <= i < |options| ==> options[i].value != value
  {
    if options == [] then None
    else if options[0].value == value then
      assert IsFirstWithValue(options, 0, value);
      Some(options[0])
    else
      var rest := FindOption(options[1..], value);
      assert rest.Some? ==> exists i :: 0 <= i < |options| && options[i] == rest.value && IsFirstWithValue(options, i, value) by {
        if rest.Some? {
          var i :| 0 <= i < |options[1..]| && options[1..][i] == rest.value && IsFirstWithValue(options[1..], i, value);
          assert options[i + 1] == rest.value;
          assert IsFirstWithValue(options, i + 1, value) by {
            forall j | 0 <= j < i + 1
              ensures options[j].value != value
            {
              if j > 0 { assert options[j] == options[1..][j - 1]; }
            }
          }
        }
      }
      rest
  }

  /** Option `i` has the value, and no earlier option has it. */
  predicate IsFirstWithValue(options: seq<AmenityOption>, i: int, value: string)
    requires 0 <= i < |options|
  {
    options[i].value == value && forall j :: 0 <= j < i ==> options[j].value != value
  }

  /** The text of a selected-amenity badge: the raw value for an amenity
      that is not one of the options, otherwise the caption of an option
      with that value. */
  function BadgeLabel(amenity: string): (shown: string)
    ensures (forall i :: 0 <= i < |AmenityOptions| ==> AmenityOptions[i].value != amenity) ==> shown == amenity
    ensures (exists i :: 0 <= i < |AmenityOptions| && AmenityOptions[i].value == amenity) ==>
      exists i :: 0 <= i < |AmenityOptions| && IsFirstWithValue(AmenityOptions, i, amenity) && shown == AmenityOptions[i].caption
  {
    var option := FindOption(AmenityOptions, amenity);
    assert forall i :: 0 <= i < |AmenityOptions| ==> AmenityOptions[i].caption != "";
    if option.Some? && option.value.caption != "" then option.value.caption else amenity
  }
}
