/** The live-websites block of the project page: one card per live link,
    paired by position with the project's screenshots, showing the address
    without its scheme. */
module LiveLinks {
  import opened JsText
  import opened Catalogue

  /** One card: the link's name and description, the screenshot at the same
      position (absent when there are fewer screenshots), the displayed
      address and the link target. */
  datatype Card = Card(name: string, description: string, image: Option<string>, shownUrl: string, href: string)

  /** `link.url.replace('https://', '').replace('http://', '')`. */
  function DisplayUrl(url: string): (r: string)
    ensures |r| <= |url|
  {
    ReplaceFirst(ReplaceFirst(url, "https://", ""), "http://", "")
  }

  /** `images[i]`, undefined past the end. */
  function ImageAt(images: seq<string>, i: nat): (r: Option<string>)
    ensures r.Some? <==> i < |images|
    ensures r.Some? ==> r.value == images[i]
  {
    if i < |images| then Some(images[i]) else None
  }

  function CardFor(p: Project, links: seq<LiveLink>, i: nat): Card
    requires i < |links|
  {
    Card(links[i].name, links[i].description, ImageAt(p.images, i), DisplayUrl(links[i].url), links[i].url)
  }

  /** The block: nothing when the project has no live links or an empty list,
      otherwise card i for link i, in order. */
  function Cards(p: Project): (r: Option<seq<Card>>)
    ensures r.None? <==> p.liveLinks.None? || p.liveLinks.value == []
    ensures r.Some? ==> |r.value| == |p.liveLinks.value| > 0
    ensures r.Some? ==> forall i :: 0 <= i < |r.value| ==>
      && r.value[i].href == p.liveLinks.value[i].url
      && r.value[i].name == p.liveLinks.value[i].name
      && (r.value[i].image.Some? <==> i < |p.images|)
      && (r.value[i].image.Some? ==> r.value[i].image.value == p.images[i])
  {
    match p.liveLinks
    case None => None
    case Some(links) =>
      if links == [] then None
      else Some(seq(|links|, i requires 0 <= i < |links| => CardFor(p, links, i)))
  }

  /** A pattern containing a character the text lacks does not occur in it. */
  lemma AbsentWithoutChar(s: string, pat: string, c: char)
    requires c in pat && c !in s
    ensures IndexOf(s, pat).None?
  {
    var k :| 0 <= k < |pat| && pat[k] == c;
    forall j: nat
      ensures !OccursAt(s, pat, j)
    {
      if j + |pat| <= |s| {
        assert s[j..j + |pat|][k] == s[j + k] != c;
      }
    }
  }

  /** An address containing neither "https://" nor "http://" is shown
      unchanged, whatever other scheme it has. */
  lemma DisplayWithoutScheme(url: string)
    requires IndexOf(url, "https://").None? && IndexOf(url, "http://").None?
    ensures DisplayUrl(url) == url
  {
  }

  /** In particular an address without any colon is shown unchanged. */
  lemma DisplayWithoutColon(url: string)
    requires ':' !in url
    ensures DisplayUrl(url) == url
  {
    assert "https://"[5] == ':';
    assert "http://"[4] == ':';
    AbsentWithoutChar(url, "https://", ':');
    AbsentWithoutChar(url, "http://", ':');
    DisplayWithoutScheme(url);
  }

  /** An https address is shown as the text after the scheme, whenever that
      text itself holds no "http://"; a port or any other colon is kept. */
  lemma DisplayStripsHttps(rest: string)
    requires IndexOf(rest, "http://").None?
    ensures DisplayUrl("https://" + rest) == rest
  {
    ReplaceLeadingPattern("https://", rest);
  }

  /** "https://" never occurs in an http address whose remainder lacks it. */
  lemma HttpLacksHttps(rest: string)
    requires IndexOf(rest, "https://").None?
    ensures IndexOf("http://" + rest, "https://").None?
  {
    var u := "http://" + rest;
    assert u[..7] == "http://";
    forall j: nat
      ensures !OccursAt(u, "https://", j)
    {
      if j + 8 <= |u| {
        if j >= 7 {
          assert !OccursAt(rest, "https://", j - 7);
          assert u[j..j + 8] == rest[j - 7..j + 1];
        } else {
          // the window starts inside "http://": its first letter is not an
          // 'h' or its fifth is not an 's'
          assert u[j..j + 8][0] == u[j] && u[j..j + 8][4] == u[j + 4];
          assert j == 0 ==> u[j + 4] == ':';
          assert j > 0 ==> u[j] != 'h';
        }
      }
    }
  }

  /** An http address is shown as the text after the scheme, whenever that
      text itself holds no "https://". */
  lemma DisplayStripsHttp(rest: string)
    requires IndexOf(rest, "https://").None?
    ensures DisplayUrl("http://" + rest) == rest
  {
    HttpLacksHttps(rest);
    ReplaceLeadingPattern("http://", rest);
  }

  /** An address with a port keeps the port once the scheme is dropped. */
  lemma DisplayKeepsPort()
    ensures DisplayUrl("https://host:8443/") == "host:8443/"
  {
    var rest := "host:8443/";
    assert "https://host:8443/" == "https://" + rest;
    assert "http://"[3] == 'p';
    AbsentWithoutChar(rest, "http://", 'p');
    DisplayStripsHttps(rest);
  }

  /** The client websites entry gets four cards, each with the screenshot at
      its own position. */
  lemma ClientWebsiteImages()
    ensures Cards(ClientWebsites).Some?
    ensures var cards := Cards(ClientWebsites).value;
      && |cards| == 4
      && forall i :: 0 <= i < 4 ==> cards[i].image == Some(ClientWebsites.images[i])
  {
    LiveLinksShape();
  }

  /** A card for an https link shows the text after the scheme. */
  lemma CardShowsHost(p: Project, i: nat, rest: string)
    requires p.liveLinks.Some? && i < |p.liveLinks.value|
    requires p.liveLinks.value[i].url == "https://" + rest
    requires IndexOf(rest, "http://").None?
    ensures Cards(p).Some? && i < |Cards(p).value|
    ensures Cards(p).value[i].shownUrl == rest
  {
    DisplayStripsHttps(rest);
  }

  /** The first card shows its host without the scheme. */
  lemma ClientWebsiteFirstHost()
    ensures Cards(ClientWebsites).Some? && |Cards(ClientWebsites).value| == 4
    ensures Cards(ClientWebsites).value[0].shownUrl == "etribe.quatromgt.co.ke/"
  {
    LiveLinksShape();
    var host := "etribe.quatromgt.co.ke/";
    assert ClientWebsites.liveLinks.value[0].url == "https://" + host;
    assert "http://"[4] == ':';
    AbsentWithoutChar(host, "http://", ':');
    CardShowsHost(ClientWebsites, 0, host);
  }
}
