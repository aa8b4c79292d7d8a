/** The post preview of the client: the platform's icon and colours, and
    the text as the platform would show it. */
module SocialMediaPreview {
  import opened Wrappers
  import opened Lists

  /** The characters a tweet shows. */
  const TwitterLimit := 280

  const Twitter := "twitter"
  const Facebook := "facebook"
  const Instagram := "instagram"
  const Linkedin := "linkedin"

  datatype IconKind = TwitterIcon | FacebookIcon | InstagramIcon | LinkedinIcon

  /** An icon and its colour class. */
  datatype Icon = Icon(kind: IconKind, className: string)

  /** `renderIcon`: `None` stands for `null`. */
  function RenderIcon(platform: string): (icon: Option<Icon>)
  {
    if platform == Twitter then Some(Icon(TwitterIcon, "text-blue-400"))
    else if platform == Facebook then Some(Icon(FacebookIcon, "text-blue-600"))
    else if platform == Instagram then Some(Icon(InstagramIcon, "text-pink-500"))
    else if platform == Linkedin then Some(Icon(LinkedinIcon, "text-blue-700"))
    else None
  }

  /** `getPreviewStyle`. */
  function PreviewStyle(platform: string): (style: string)
  {
    if platform == Twitter then "bg-blue-50 border-blue-200"
    else if platform == Facebook then "bg-blue-100 border-blue-300"
    else if platform == Instagram then "bg-pink-50 border-pink-200"
    else if platform == Linkedin then "bg-blue-50 border-blue-300"
    else "bg-gray-50 border-gray-200"
  }

  /** The text shown: `content.slice(0, 280)` for twitter, the content
      otherwise. */
  function PreviewText(platform: string, content: string): (text: string)
  {
    if platform == Twitter then Take(content, TwitterLimit) else content
  }

  /** `platform === 'twitter' && content.length > 280 && '...'`, where
      `false` renders as nothing. */
  function Ellipsis(platform: string, content: string): (e: string)
  {
    if platform == Twitter && |content| > TwitterLimit then "..." else ""
  }

  /** What the paragraph displays. */
  function Displayed(platform: string, content: string): (d: string)
  {
    PreviewText(platform, content) + Ellipsis(platform, content)
  }

  /** A tweet shows the first `min(280, length)` characters of the content,
      with `...` exactly when something was cut, so at most 283 characters. */
  lemma TwitterPreview(content: string)
    ensures var text := PreviewText(Twitter, content);
      && |text| == (if |content| <= TwitterLimit then |content| else TwitterLimit)
      && text == content[..|text|]
    ensures Ellipsis(Twitter, content) == "..." <==> |content| > TwitterLimit
    ensures Ellipsis(Twitter, content) == "" <==> |content| <= TwitterLimit
    ensures |Displayed(Twitter, content)| <= TwitterLimit + 3
  {
    var text := PreviewText(Twitter, content);
    assert text == content[..|text|];
  }

  /** Every other platform shows the content as it is. */
  lemma OtherPlatformPreview(platform: string, content: string)
    requires platform != Twitter
    ensures Displayed(platform, content) == content
  {
    assert content + "" == content;
  }

  /** The four platforms have four different styles, and every other
      platform shares the gray one. */
  lemma StylesDistinct(platform: string)
    ensures var known := [Twitter, Facebook, Instagram, Linkedin];
      forall i, j :: 0 <= i < j < |known| ==> PreviewStyle(known[i]) != PreviewStyle(known[j])
    ensures platform !in [Twitter, Facebook, Instagram, Linkedin] ==>
      PreviewStyle(platform) == "bg-gray-50 border-gray-200" && RenderIcon(platform) == None
    ensures platform in [Twitter, Facebook, Instagram, Linkedin] ==>
      PreviewStyle(platform) != "bg-gray-50 border-gray-200" && RenderIcon(platform).Some?
  {
    var known := [Twitter, Facebook, Instagram, Linkedin];
    var styles := ["bg-blue-50 border-blue-200", "bg-blue-100 border-blue-300", "bg-pink-50 border-pink-200", "bg-blue-50 border-blue-300"];
    assert forall i :: 0 <= i < 4 ==> PreviewStyle(known[i]) == styles[i];
  }
}
