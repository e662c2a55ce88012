/** The profile card (src/components/InstagramProfileCard.tsx): the heading,
    the biography and website blocks, and the compact follower counts. */
module ProfileCard {
  import opened Optional
  import opened Text
  import opened Domain

  // ----- compact counts -----

  const Million: int := 1000000
  const Thousand: int := 1000

  /** `formatNumber(n)`. The digits of the scaled forms come from floating
      point division and `toFixed(1)`; `fixed1(n, unit)` stands for
      `(n / unit).toFixed(1)`. */
  function FormatNumber(n: int, fixed1: (int, int) -> string): (r: string)
    ensures n >= Million ==> EndsWith(r, "M") && r[..|r| - 1] == fixed1(n, Million)
    ensures Thousand <= n < Million ==> EndsWith(r, "K") && r[..|r| - 1] == fixed1(n, Thousand)
    ensures n < Thousand ==> r == IntToString(n)
  {
    if n >= Million then fixed1(n, Million) + "M"
    else if n >= Thousand then fixed1(n, Thousand) + "K"
    else IntToString(n)
  }

  /** Below a thousand the count is shown in full, and the digits read back
      as the count. */
  lemma SmallCountsShownExactly(n: nat, fixed1: (int, int) -> string)
    requires n < Thousand
    ensures AllDigits(FormatNumber(n, fixed1))
    ensures ParseDigits(FormatNumber(n, fixed1)) == n
  {
    NatToStringRoundTrip(n);
  }

  /** The suffix alone tells the magnitude, whatever digits the scaled forms
      carry: a result ending in "M" comes from a count of at least a million,
      one ending in "K" from the thousands, one made of digits only from a
      count below a thousand. */
  lemma SuffixDeterminesMagnitude(n: int, fixed1: (int, int) -> string)
    requires n >= 0
    ensures EndsWith(FormatNumber(n, fixed1), "M") <==> n >= Million
    ensures EndsWith(FormatNumber(n, fixed1), "K") <==> Thousand <= n < Million
    ensures AllDigits(FormatNumber(n, fixed1)) <==> n < Thousand
  {
    var r := FormatNumber(n, fixed1);
    if n < Thousand {
      assert AllDigits(r);
      assert !IsDigit('M') && !IsDigit('K');
      assert r[|r| - 1] == r[|r| - 1..][0];
    } else {
      assert r[|r| - 1] == r[|r| - 1..][0];
      assert !IsDigit(r[|r| - 1]);
    }
  }

  // ----- heading and links -----

  /** The heading: `name || username`. */
  function Heading(p: Profile): (r: string)
    ensures p.name != "" ==> r == p.name
    ensures p.name == "" ==> r == p.username
  {
    if p.name != "" then p.name else p.username
  }

  /** The website link target: used as is when it starts with "http",
      otherwise "https://" is put in front. */
  function WebsiteHref(website: string): (r: string)
    ensures StartsWith(r, "http")
    ensures StartsWith(website, "http") ==> r == website
    ensures !StartsWith(website, "http") ==> r == "https://" + website
  {
    if StartsWith(website, "http") then website else "https://" + website
  }

  /** The website link text: `website.replace(/^https?:\/\//, '')`, which
      removes one leading "http://" or "https://" and nothing else. */
  function WebsiteLabel(website: string): (r: string)
    ensures StartsWith(website, "https://") ==> website == "https://" + r
    ensures StartsWith(website, "http://") ==> website == "http://" + r
    ensures !StartsWith(website, "https://") && !StartsWith(website, "http://") ==> r == website
  {
    if StartsWith(website, "https://") then
      assert website[4] == website[..8][4] == 's';
      website[8..]
    else if StartsWith(website, "http://") then website[7..]
    else website
  }

  /** The link text never depends on which of the two forms the link target
      took: the label of the target is the label of the website. */
  lemma LabelOfHrefIsLabel(website: string)
    ensures WebsiteLabel(WebsiteHref(website)) == WebsiteLabel(website)
  {
    if !StartsWith(website, "http") {
      var h := WebsiteHref(website);
      assert StartsWith(h, "https://");
      assert h[8..] == website;
    }
  }

  // ----- the card -----

  datatype Link = Link(href: string, text: string)

  datatype Stat = Stat(title: string, value: string)

  datatype CardView = CardView(
    heading: string,
    handle: string,
    accountType: string,
    biography: Option<string>,
    website: Option<Link>,
    stats: seq<Stat>)

  /** What the card shows for a profile. */
  function Card(p: Profile, fixed1: (int, int) -> string): (r: CardView)
    ensures r.biography.Some? <==> Truthy(p.biography)
    ensures r.biography.Some? ==> r.biography.value == p.biography.value
    ensures r.website.Some? <==> Truthy(p.website)
    ensures r.website.Some? ==>
      && r.website.value == Link(WebsiteHref(p.website.value), WebsiteLabel(p.website.value))
      && StartsWith(r.website.value.href, "http")
    ensures r.heading == Heading(p)
    ensures r.accountType == p.accountType
    ensures r.handle == "@" + p.username
    ensures r.heading != "" <==> p.name != "" || p.username != ""
    ensures r.stats == [Stat("Posts", FormatNumber(p.mediaCount, fixed1)),
                        Stat("Seguidores", FormatNumber(p.followersCount, fixed1)),
                        Stat("Seguindo", FormatNumber(p.followsCount, fixed1))]
  {
    CardView(
      Heading(p),
      "@" + p.username,
      p.accountType,
      if Truthy(p.biography) then p.biography else None,
      if Truthy(p.website) then Some(Link(WebsiteHref(p.website.value), WebsiteLabel(p.website.value))) else None,
      [Stat("Posts", FormatNumber(p.mediaCount, fixed1)),
       Stat("Seguidores", FormatNumber(p.followersCount, fixed1)),
       Stat("Seguindo", FormatNumber(p.followsCount, fixed1))])
  }
}
