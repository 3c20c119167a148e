/**
 * The doctor's profile card: the display-name fallback chain, the "Dr." headline and
 * avatar initial derived from it, and the placeholders shown for missing fields.
 */
module DoctorProfile {
  import opened Wrappers
  import opened Text

  const DefaultName := "Doctor"
  const DefaultSpecialization := "Healthcare Professional"
  const NoExperience := "--"
  const DefaultRating := "4.9"
  const NoLicense := "Verification Pending"
  const DefaultEducation := "MBBS, Specialized Residency"
  const DefaultHospital := "Private Healthcare Provider"
  const DefaultFee := "100"

  /** The fetched `doctors` row with its profile; numbers are whole numbers here. */
  datatype DoctorRecord = DoctorRecord(
    fullName: Option<string>, avatarUrl: Option<string>, specialization: Option<string>,
    experienceYears: Option<int>, rating: Option<int>, licenseNumber: Option<string>,
    education: Option<string>, hospitalClinic: Option<string>, consultationFee: Option<int>)

  /** What the card shows. `initial` is `None` where no letter is rendered: the record's
      avatar image is shown instead, or the name's last word is empty. */
  datatype Card = Card(
    displayName: string, headline: string, initial: Option<char>, specialization: string,
    experience: string, rating: string, license: string, education: string, hospital: string,
    fee: string)

  /** `profile?.profiles?.full_name || user?.name || 'Doctor'`. */
  function DisplayName(profile: Option<DoctorRecord>, userName: Option<string>): (n: string)
    ensures n != ""
    ensures profile.Some? && Truthy(profile.value.fullName) ==> n == profile.value.fullName.value
    ensures !(profile.Some? && Truthy(profile.value.fullName)) && Truthy(userName) ==> n == userName.value
    ensures !(profile.Some? && Truthy(profile.value.fullName)) && !Truthy(userName) ==> n == DefaultName
  {
    var fromProfile := if profile.Some? then profile.value.fullName else None;
    OrElse(fromProfile, OrElse(userName, DefaultName))
  }

  /** "Dr. " and the last space-separated word, whatever the name already starts with. */
  function Headline(name: string): (h: string)
    ensures StartsWith(h, "Dr. ") && h[4..] == LastPart(name, ' ') && ' ' !in h[4..]
  {
    SplitShape(name, ' ');
    assert ("Dr. " + LastPart(name, ' '))[4..] == LastPart(name, ' ');
    "Dr. " + LastPart(name, ' ')
  }

  /** A name already titled "Dr." is titled again only through its last word: the headline
      of "Dr. Jane Smith" is "Dr. Smith". */
  lemma HeadlineOfTitledName(first: string, last: string)
    requires ' ' !in last
    ensures Headline("Dr. " + first + " " + last) == "Dr. " + last
  {
    assert "Dr. " + first + " " + last == ("Dr. " + first) + [' '] + last;
    LastPartAfterSeparator("Dr. " + first, ' ', last);
  }

  /** `name.split(' ').pop()?.[0]`: the first character of the last word, if it has one. */
  function Initial(name: string): (c: Option<char>)
    ensures c.Some? <==> LastPart(name, ' ') != ""
    ensures c.Some? ==> c.value == LastPart(name, ' ')[0] && c.value != ' ' && c.value in name
  {
    SplitShape(name, ' ');
    var w := LastPart(name, ' ');
    if w == "" then None
    else
      assert w[0] == name[|name| - |w|];
      Some(w[0])
  }

  /** The avatar initial is the letter after "Dr. " in the headline. */
  lemma InitialMatchesHeadline(name: string)
    requires Initial(name).Some?
    ensures Initial(name).value == Headline(name)[4]
  {
  }

  /** `x || 'text'` for a number: a missing value and 0 both show the placeholder. */
  function NumberOr(x: Option<int>, placeholder: string): (s: string)
    ensures x.None? || x.value == 0 ==> s == placeholder
    ensures x.Some? && x.value > 0 ==> s == NatToString(x.value)
  {
    if x.None? || x.value == 0 then placeholder else IntToString(x.value)
  }

  /** The card for the fetched record (`None` if the fetch failed) and the session's name. */
  function CardFor(profile: Option<DoctorRecord>, userName: Option<string>): (c: Card)
    ensures c.displayName == DisplayName(profile, userName)
    ensures c.headline == Headline(c.displayName)
    ensures c.initial == (if profile.Some? && Truthy(profile.value.avatarUrl) then None else Initial(c.displayName))
    ensures profile.None? ==> (
      c.specialization == DefaultSpecialization && c.experience == NoExperience
      && c.rating == DefaultRating && c.license == NoLicense && c.education == DefaultEducation
      && c.hospital == DefaultHospital && c.fee == DefaultFee)
    ensures profile.Some? ==> (
      c.license == OrElse(profile.value.licenseNumber, NoLicense)
      && c.specialization == OrElse(profile.value.specialization, DefaultSpecialization)
      && c.hospital == OrElse(profile.value.hospitalClinic, DefaultHospital)
      && c.education == OrElse(profile.value.education, DefaultEducation)
      && c.experience == NumberOr(profile.value.experienceYears, NoExperience)
      && c.rating == NumberOr(profile.value.rating, DefaultRating)
      && c.fee == NumberOr(profile.value.consultationFee, DefaultFee))
  {
    var name := DisplayName(profile, userName);
    match profile
    case None =>
      Card(name, Headline(name), Initial(name), DefaultSpecialization, NoExperience, DefaultRating,
        NoLicense, DefaultEducation, DefaultHospital, DefaultFee)
    case Some(p) =>
      Card(name, Headline(name), if Truthy(p.avatarUrl) then None else Initial(name),
        OrElse(p.specialization, DefaultSpecialization),
        NumberOr(p.experienceYears, NoExperience),
        NumberOr(p.rating, DefaultRating),
        OrElse(p.licenseNumber, NoLicense),
        OrElse(p.education, DefaultEducation),
        OrElse(p.hospitalClinic, DefaultHospital),
        NumberOr(p.consultationFee, DefaultFee))
  }
}
