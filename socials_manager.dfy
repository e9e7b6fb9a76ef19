// The social-link editor of the admin dashboard: the defaults of a new link,
// its required fields, the icon templates and the platform selector. The list
// view has no search box: links are shown as given, and its handlers are
// `AdminManager.Manager`. The templates' SVG markup is a parameter.
module SocialsManager {
  import opened Wrappers
  import Text
  import Entities

  /** The platforms that have an icon template; "other" has none. */
  const TemplatePlatforms: seq<string> := ["github", "linkedin", "twitter", "tiktok", "email"]

  /** The id of a link created at clock value `now`: `social-<now>`. */
  function NewSocialId(now: nat): (id: string)
    ensures |id| > 7 && id[..7] == "social-" && Text.DecimalValue(id[7..]) == now
  {
    Text.DecimalRoundTrip(now);
    "social-" + Text.NatToString(now)
  }

  function NewSocial(now: nat): Entities.Social
  {
    Entities.Social(NewSocialId(now), "", "", "", "other")
  }

  datatype Field = Name | Url | Icon | Platform

  function Get(s: Entities.Social, f: Field): string
  {
    match f
    case Name => s.name
    case Url => s.url
    case Icon => s.icon
    case Platform => s.platform
  }

  /** `{ ...formData, [field]: value }`. */
  function Put(s: Entities.Social, f: Field, value: string): (r: Entities.Social)
    ensures Get(r, f) == value
    ensures forall g :: g != f ==> Get(r, g) == Get(s, g)
    ensures r.id == s.id
  {
    match f
    case Name => s.(name := value)
    case Url => s.(url := value)
    case Icon => s.(icon := value)
    case Platform => s.(platform := value)
  }

  /** The template the selector loads for `platform`, if it has one. */
  function Template(platform: string, svg: string -> string): (t: Option<string>)
    ensures t.Some? <==> platform in TemplatePlatforms
    ensures t.Some? ==> t.value == svg(platform)
  {
    if platform in TemplatePlatforms then Some(svg(platform)) else None
  }

  /** The writes a platform change queues, in order. Each spreads the same
      snapshot of the form: `platform` first, then (with a template) `icon`. */
  function PlatformChangeWrites(snapshot: Entities.Social, platform: string, svg: string -> string)
    : (w: seq<Entities.Social>)
    ensures |w| > 0 && w[0] == Put(snapshot, Platform, platform)
    ensures |w| == 2 <==> Template(platform, svg).Some?
    ensures |w| <= 2
    ensures |w| == 2 ==> w[1] == Put(snapshot, Icon, Template(platform, svg).value)
  {
    var t := Template(platform, svg);
    [Put(snapshot, Platform, platform)] + (if t.Some? then [Put(snapshot, Icon, t.value)] else [])
  }

  /** The form after a platform change: the last queued write wins. */
  function AfterPlatformChange(snapshot: Entities.Social, platform: string, svg: string -> string)
    : Entities.Social
  {
    var w := PlatformChangeWrites(snapshot, platform, svg);
    w[|w| - 1]
  }

  /** The chosen platform sticks only when it has no template (or was already
      selected); with a template the icon is loaded and the platform stays. */
  lemma PlatformSticksOnlyWithoutTemplate(snapshot: Entities.Social, platform: string, svg: string -> string)
    ensures AfterPlatformChange(snapshot, platform, svg).platform == platform
      <==> platform !in TemplatePlatforms || snapshot.platform == platform
    ensures platform in TemplatePlatforms ==>
      AfterPlatformChange(snapshot, platform, svg) == snapshot.(icon := svg(platform))
    ensures platform !in TemplatePlatforms ==>
      AfterPlatformChange(snapshot, platform, svg) == snapshot.(platform := platform)
  {
  }

  /** Choosing "other" keeps the icon typed so far. */
  lemma OtherKeepsIcon(snapshot: Entities.Social, svg: string -> string)
    ensures AfterPlatformChange(snapshot, "other", svg).icon == snapshot.icon
    ensures AfterPlatformChange(snapshot, "other", svg).platform == "other"
  {
    assert "other" !in TemplatePlatforms;
  }

  class SocialEditor {
    /** The SVG markup of each template. */
    const svg: string -> string
    var formData: Entities.Social

    constructor (social: Option<Entities.Social>, now: nat, svg: string -> string)
      ensures this.svg == svg
      ensures formData == (if social.Some? then social.value else NewSocial(now))
    {
      this.svg := svg;
      formData := if social.Some? then social.value else NewSocial(now);
    }

    method HandleChange(f: Field, value: string)
      modifies this
      ensures formData == Put(old(formData), f, value)
    {
      formData := Put(formData, f, value);
    }

    /** Sets the icon to the platform's template, if it has one. */
    method LoadTemplate(platform: string)
      modifies this
      ensures platform in TemplatePlatforms ==> formData == old(formData).(icon := svg(platform))
      ensures platform !in TemplatePlatforms ==> formData == old(formData)
    {
      var t := Template(platform, svg);
      if t.Some? {
        formData := Put(formData, Icon, t.value);
      }
    }

    /** The selector's change handler. */
    method HandlePlatformChange(platform: string)
      modifies this
      ensures formData == AfterPlatformChange(old(formData), platform, svg)
    {
      var snapshot := formData;
      formData := Put(snapshot, Platform, platform);
      var t := Template(platform, svg);
      if t.Some? {
        formData := Put(snapshot, Icon, t.value);
      }
    }

    /** The link handed to `onSave`, or None (an alert) when the name, the url
        or the icon is empty. */
    method HandleSubmit() returns (saved: Option<Entities.Social>)
      ensures saved.Some? <==> formData.name != "" && formData.url != "" && formData.icon != ""
      ensures saved.Some? ==> saved.value == formData
    {
      if formData.name == "" || formData.url == "" || formData.icon == "" {
        return None;
      }
      return Some(formData);
    }
  }

  /** A new link on which GitHub is picked keeps the platform "other" but gets
      the GitHub icon. */
  method PickGithubOnNewLink(now: nat, svg: string -> string) returns (platform: string, icon: string)
    ensures platform == "other" && icon == svg("github")
  {
    var editor := new SocialEditor(None, now, svg);
    editor.HandlePlatformChange("github");
    platform, icon := editor.formData.platform, editor.formData.icon;
  }
}
