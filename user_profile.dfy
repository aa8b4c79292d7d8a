/** The profile form of the client: the profile record being edited, the
    platform checkboxes and the text inputs. Loading and saving the profile
    are requests and are not modelled. */
module UserProfile {
  import opened Lists

  datatype ProfileData = ProfileData(
    name: string,
    company: string,
    industry: string,
    platforms: seq<string>,
    contentType: string)

  /** The inputs whose `name` attribute `handleInputChange` reads. */
  datatype ProfileField = Name | Company | Industry | ContentType

  /** The form's state before the profile is loaded. */
  const InitialProfile := ProfileData("", "", "", [], "")

  /** `platforms.includes(platform) ? platforms.filter(p => p !== platform)
      : [...platforms, platform]`. */
  function TogglePlatform(platforms: seq<string>, platform: string): (r: seq<string>)
  {
    if platform in platforms then RemoveAll(platforms, platform) else platforms + [platform]
  }

  /** `handlePlatformChange`. */
  function HandlePlatformChange(data: ProfileData, platform: string): (r: ProfileData)
    ensures r.name == data.name && r.company == data.company && r.industry == data.industry
    ensures r.contentType == data.contentType
  {
    data.(platforms := TogglePlatform(data.platforms, platform))
  }

  /** `handleInputChange`: `{ ...prevData, [name]: value }`. */
  function HandleInputChange(data: ProfileData, field: ProfileField, value: string): (r: ProfileData)
    ensures r.platforms == data.platforms
  {
    match field
    case Name => data.(name := value)
    case Company => data.(company := value)
    case Industry => data.(industry := value)
    case ContentType => data.(contentType := value)
  }

  /** An absent platform is appended at the end; a present one is removed
      everywhere it occurs. */
  lemma ToggleCases(platforms: seq<string>, platform: string)
    ensures platform !in platforms ==> TogglePlatform(platforms, platform) == platforms + [platform]
    ensures platform in platforms ==>
      && platform !in TogglePlatform(platforms, platform)
      && |TogglePlatform(platforms, platform)| == |platforms| - Count(platforms, platform)
  {
    RemoveAllMembership(platforms, platform, platform);
    RemoveAllLength(platforms, platform);
  }

  /** The toggled platform changes membership and every other platform
      keeps it. */
  lemma ToggleMembership(platforms: seq<string>, platform: string, other: string)
    ensures other in TogglePlatform(platforms, platform) <==>
      if other == platform then platform !in platforms else other in platforms
  {
    RemoveAllMembership(platforms, platform, other);
  }

  /** Apart from the toggled platform, the list is the same, in the same
      order. */
  lemma ToggleKeepsOthers(platforms: seq<string>, platform: string)
    ensures RemoveAll(TogglePlatform(platforms, platform), platform) == RemoveAll(platforms, platform)
  {
    if platform in platforms {
      FilterIdempotent(platforms, NotEqual(platform));
    } else {
      RemoveAllAfterAppend(platforms, platform);
      RemoveAllAbsent(platforms, platform);
    }
  }

  /** Toggling an absent platform twice gives back the list; toggling a
      present one twice moves it, once, to the end. */
  lemma ToggleTwice(platforms: seq<string>, platform: string)
    ensures platform !in platforms ==>
      TogglePlatform(TogglePlatform(platforms, platform), platform) == platforms
    ensures platform in platforms ==>
      TogglePlatform(TogglePlatform(platforms, platform), platform) == RemoveAll(platforms, platform) + [platform]
  {
    if platform !in platforms {
      RemoveAllAfterAppend(platforms, platform);
    } else {
      RemoveAllMembership(platforms, platform, platform);
    }
  }

  /** Each input sets its own field and leaves the others. */
  lemma InputChangeFrame(data: ProfileData, field: ProfileField, value: string)
    ensures var r := HandleInputChange(data, field, value);
      && r.name == (if field == Name then value else data.name)
      && r.company == (if field == Company then value else data.company)
      && r.industry == (if field == Industry then value else data.industry)
      && r.contentType == (if field == ContentType then value else data.contentType)
  {
  }

  /** From the empty form, toggling a platform chooses that one alone, and
      toggling it again gives back the empty form. */
  lemma InitialPlatformToggle(platform: string)
    ensures HandlePlatformChange(InitialProfile, platform).platforms == [platform]
    ensures HandlePlatformChange(HandlePlatformChange(InitialProfile, platform), platform) == InitialProfile
  {
    ToggleTwice(InitialProfile.platforms, platform);
  }
}
