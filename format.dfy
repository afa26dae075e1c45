/** Display helpers: social-link details on the about page and the download-count label. */
module Format {
  import opened Text

  /** A link as the about page shows it; `caption` is the source's `label` (a Dafny keyword). */
  datatype LinkDetails = LinkDetails(url: string, icon: string, caption: string)

  /** The recognised hosts, in the order they are tried: (substring, icon, label). */
  const LinkHosts: seq<(string, string, string)> := [
    ("github.com", "github", "GitHub"),
    ("linkedin.com", "linkedin", "LinkedIn"),
    ("twitter.com", "twitter", "Twitter"),
    ("mailto:", "mail", "Email")
  ]

  /** Entry `k` of `LinkHosts` is the first one whose substring the url contains. */
  predicate FirstHostMatch(url: string, k: int) {
    0 <= k < |LinkHosts| && Includes(url, LinkHosts[k].0)
      && forall j :: 0 <= j < k ==> !Includes(url, LinkHosts[j].0)
  }

  /**
   * Icon and label for a profile link: those of the first recognised host the url
   * contains, else the generic link icon with the url itself as label.
   */
  function LinkDetailsFor(url: string): (d: LinkDetails)
    ensures d.url == url
    ensures forall k :: FirstHostMatch(url, k) ==> d.icon == LinkHosts[k].1 && d.caption == LinkHosts[k].2
    ensures (forall k :: 0 <= k < |LinkHosts| ==> !Includes(url, LinkHosts[k].0)) ==> d.icon == "link" && d.caption == url
  {
    if Includes(url, "github.com") then
      assert FirstHostMatch(url, 0);
      LinkDetails(url, "github", "GitHub")
    else if Includes(url, "linkedin.com") then
      assert FirstHostMatch(url, 1);
      LinkDetails(url, "linkedin", "LinkedIn")
    else if Includes(url, "twitter.com") then
      assert FirstHostMatch(url, 2);
      LinkDetails(url, "twitter", "Twitter")
    else if Includes(url, "mailto:") then
      assert FirstHostMatch(url, 3);
      LinkDetails(url, "mail", "Email")
    else LinkDetails(url, "link", url)
  }

  /**
   * The about page shows the bare url exactly when no host was recognised: a recognised
   * host never yields a label equal to the url, since the url is longer than the label.
   */
  lemma LabelIsUrlIffUnrecognised(url: string)
    ensures LinkDetailsFor(url).caption == url <==> forall k :: 0 <= k < |LinkHosts| ==> !Includes(url, LinkHosts[k].0)
  {
    if Includes(url, "github.com") {
      IncludesNotLonger(url, "github.com");
    } else if Includes(url, "linkedin.com") {
      IncludesNotLonger(url, "linkedin.com");
    } else if Includes(url, "twitter.com") {
      IncludesNotLonger(url, "twitter.com");
    } else if Includes(url, "mailto:") {
      IncludesNotLonger(url, "mailto:");
    }
  }

  /**
   * A download count for display: below 1000 its decimal digits; otherwise the count
   * divided by 1000 (`K`) or 1000000 (`M`), before `toFixed(1)` rounds it.
   */
  datatype DownloadLabel = Plain(text: string) | Scaled(value: real, suffix: string)

  function HumanReadableDownloads(num: int): (r: DownloadLabel)
    ensures r.Scaled? <==> num >= 1000
    ensures r.Scaled? ==> (r.suffix == "M" <==> num >= 1000000) && (r.suffix == "K" || r.suffix == "M")
    ensures r.Scaled? ==> 1.0 <= r.value && (r.suffix == "K" ==> r.value < 1000.0)
    ensures r.Scaled? ==> r.value * (if r.suffix == "K" then 1000.0 else 1000000.0) == num as real
    ensures r.Plain? ==> IsIntText(r.text) && ParseInt(r.text) == num
    ensures r.Plain? && 0 <= num ==> |r.text| <= 3
  {
    if num >= 1000000 then Scaled(num as real / 1000000.0, "M")
    else if num >= 1000 then Scaled(num as real / 1000.0, "K")
    else
      IntToStringRoundTrip(num);
      SmallIntDigits(num);
      Plain(IntToString(num))
  }
}
