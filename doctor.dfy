/**
 * The doctor document of backend-fastapi/app/models/doctor.py: its defaults,
 * the search counter, the availability lookup, the formatted address and
 * the experience classification.  Timestamps are seconds; the clock is a
 * parameter.
 */
module DoctorModel {
  import opened Outcomes
  import opened Text

  datatype Address = Address(street: Option<string>, city: string, state: Option<string>, zipCode: Option<string>,
                             country: string)

  const DefaultCountry := "India"
  const DefaultLanguages: seq<string> := ["English", "Hindi"]

  /** An `Address` with the default country. */
  function NewAddress(street: Option<string>, city: string, state: Option<string>, zipCode: Option<string>): (a: Address)
    ensures a.country == DefaultCountry && a.city == city
  {
    Address(street, city, state, zipCode, DefaultCountry)
  }

  datatype TimeSlot = TimeSlot(startTime: string, endTime: string, kind: string)
  datatype Schedule = Schedule(day: string, slots: seq<TimeSlot>)
  datatype Availability = Availability(schedule: seq<Schedule>, emergencyAvailable: bool)

  datatype Experience = Experience(years: int)

  /** `Experience()`: no years. */
  const DefaultExperience := Experience(0)

  datatype Fees = Fees(currency: string, acceptsInsurance: bool, insuranceProviders: seq<string>)

  /** `Fees()`: fees in Indian rupees, no insurance accepted, no providers listed. */
  function NewFees(): (r: Fees)
    ensures r.currency == "INR" && !r.acceptsInsurance && r.insuranceProviders == []
  {
    Fees("INR", false, [])
  }

  /** Whether some entry of `schedule` is for `day`, ignoring case, and has slots. */
  function AnyOpenEntry(schedule: seq<Schedule>, day: string): (r: bool)
    ensures r <==> exists i :: 0 <= i < |schedule| && Lower(schedule[i].day) == Lower(day) && schedule[i].slots != []
  {
    if schedule == [] then false
    else (Lower(schedule[0].day) == Lower(day) && schedule[0].slots != []) || AnyOpenEntry(schedule[1..], day)
  }

  /** The five address parts in order, a missing one as "". */
  function AddressParts(a: Address): (r: seq<string>)
    ensures |r| == 5
    ensures r[0] == a.street.GetOr("") && r[1] == a.city && r[2] == a.state.GetOr("")
    ensures r[3] == a.zipCode.GetOr("") && r[4] == a.country
  {
    [a.street.GetOr(""), a.city, a.state.GetOr(""), a.zipCode.GetOr(""), a.country]
  }

  /** The experience classes in increasing order of seniority. */
  function LevelRank(level: string): int {
    if level == "junior" then 0 else if level == "mid-level" then 1 else if level == "senior" then 2
    else if level == "expert" then 3 else -1
  }

  /** `DoctorMetadata`, updated in place by `increment_search_count`. */
  class DoctorMetadata {
    var source: string
    var lastUpdated: real
    var isActive: bool
    var searchCount: int

    /** `DoctorMetadata()` at time `now`: manual, active, never searched. */
    constructor (now: real)
      ensures source == "manual" && lastUpdated == now && isActive && searchCount == 0
    {
      source := "manual";
      lastUpdated := now;
      isActive := true;
      searchCount := 0;
    }
  }

  class Doctor {
    var name: string
    var specialty: string
    var experience: Option<Experience>
    var availability: Option<Availability>
    var address: Address
    var fees: Option<Fees>
    var languages: seq<string>
    var metadata: DoctorMetadata

    /** A doctor with only the required fields: every optional part missing, the default languages and fresh metadata. */
    constructor (name: string, specialty: string, address: Address, now: real)
      ensures this.name == name && this.specialty == specialty && this.address == address
      ensures experience.None? && availability.None? && fees.None?
      ensures languages == DefaultLanguages
      ensures fresh(metadata)
      ensures metadata.searchCount == 0 && metadata.isActive && metadata.source == "manual" && metadata.lastUpdated == now
    {
      this.name := name;
      this.specialty := specialty;
      this.address := address;
      experience := None;
      availability := None;
      fees := None;
      languages := DefaultLanguages;
      metadata := new DoctorMetadata(now);
    }

    /** `increment_search_count`: one more search, stamped `now`; nothing else changes. */
    method IncrementSearchCount(now: real)
      modifies metadata
      ensures metadata.searchCount == old(metadata.searchCount) + 1
      ensures metadata.lastUpdated == now
      ensures metadata.source == old(metadata.source) && metadata.isActive == old(metadata.isActive)
    {
      metadata.searchCount := metadata.searchCount + 1;
      metadata.lastUpdated := now;
    }

    /**
     * `is_available_on`: false without availability or with an empty
     * schedule; otherwise whether some entry is for that day, ignoring
     * case, and has slots.
     */
    function IsAvailableOn(day: string): (r: bool)
      reads this
      ensures availability.None? || availability.value.schedule == [] ==> !r
      ensures r <==> availability.Some? && (exists i :: 0 <= i < |availability.value.schedule|
                                                       && Lower(availability.value.schedule[i].day) == Lower(day)
                                                       && availability.value.schedule[i].slots != [])
    {
      if availability.None? || availability.value.schedule == [] then false
      else AnyOpenEntry(availability.value.schedule, day)
    }

    /** `full_address`: street, city, state, zip code and country, the non-empty ones joined with ", ". */
    function FullAddress(): (r: string)
      reads this
      ensures r == "" <==> forall k :: 0 <= k < 5 ==> AddressParts(address)[k] == ""
      ensures forall k :: 0 <= k < 5 ==> Contains(r, AddressParts(address)[k])
      ensures r == Join(NonEmpty(AddressParts(address)), ", ")
    {
      JoinNonEmpty(AddressParts(address), ", ")
    }

    /** `experience_level`: "unknown" without experience, else by years at 2, 10 and 20. */
    function ExperienceLevel(): (r: string)
      reads this
      ensures experience.None? <==> r == "unknown"
      ensures experience.Some? ==> (r == "junior" <==> experience.value.years < 2)
      ensures experience.Some? ==> (r == "mid-level" <==> 2 <= experience.value.years < 10)
      ensures experience.Some? ==> (r == "senior" <==> 10 <= experience.value.years < 20)
      ensures experience.Some? ==> (r == "expert" <==> 20 <= experience.value.years)
    {
      if experience.None? then "unknown"
      else
        var years := experience.value.years;
        if years < 2 then "junior" else if years < 10 then "mid-level" else if years < 20 then "senior" else "expert"
    }
  }

  /** More years never gives a lower experience class. */
  lemma ExperienceMonotone(a: Doctor, b: Doctor)
    requires a.experience.Some? && b.experience.Some? && a.experience.value.years <= b.experience.value.years
    ensures 0 <= LevelRank(a.ExperienceLevel()) <= LevelRank(b.ExperienceLevel())
  {
  }

  /** A doctor given the default experience is a junior. */
  lemma DefaultExperienceIsJunior(d: Doctor)
    requires d.experience == Some(DefaultExperience)
    ensures d.ExperienceLevel() == "junior"
  {
  }

  /** The availability lookup ignores the case of the day name. */
  lemma AvailabilityIgnoresCase(d: Doctor, day: string)
    ensures d.IsAvailableOn(day) == d.IsAvailableOn(Lower(day))
  {
    LowerIdempotent(day);
  }

  /** A city-only address with the default country reads "<city>, India". */
  lemma CityOnlyAddress(d: Doctor, city: string)
    requires city != "" && d.address == NewAddress(None, city, None, None)
    ensures d.FullAddress() == city + ", " + DefaultCountry
  {
    var parts := AddressParts(d.address);
    assert parts == ["", city, "", "", DefaultCountry];
    assert parts[1..] == [city, "", "", DefaultCountry];
    assert parts[1..][1..] == ["", "", DefaultCountry];
    assert NonEmpty(["", "", DefaultCountry]) == [DefaultCountry] by {
      assert ["", "", DefaultCountry][1..] == ["", DefaultCountry];
      assert ["", DefaultCountry][1..] == [DefaultCountry];
      assert NonEmpty([DefaultCountry]) == [DefaultCountry];
    }
    assert NonEmpty(parts) == [city, DefaultCountry];
    assert Join([city, DefaultCountry], ", ") == city + ", " + DefaultCountry;
    assert d.FullAddress() == Join(NonEmpty(parts), ", ");
  }
}
