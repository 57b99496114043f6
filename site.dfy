/** `get_site_from_host`: the tenant (Frappe site) key of a request, taken
    from its host header. */
module Site {
  import opened Wrappers
  import opened Text

  /** The key used when the request carries no host. */
  const UnknownSite: string := "unknown"

  /** An absent (`None`) or empty host gives `"unknown"`; any other host gives
      the text before its first `:`, that is, the host without its port. */
  function GetSiteFromHost(host: Option<string>): (site: string)
    ensures host.None? || host == Some("") ==> site == UnknownSite
    ensures host.Some? && host.value != "" ==>
              && site <= host.value
              && ':' !in site
              && (site == host.value || host.value[|site|] == ':')
  {
    match host
    case None => UnknownSite
    case Some(h) =>
      if h == "" then UnknownSite
      else
        SplitFirst(h, ':');
        Split(h, ':')[0]
  }

  /** The site of a non-empty host is its text up to the first colon. */
  lemma SiteIsPrefix(h: string)
    requires h != ""
    ensures GetSiteFromHost(Some(h)) == h[..IndexOf(h, ':')]
  {
    SplitFirst(h, ':');
  }

  /** A host `p:port` whose name part `p` has no colon gives `p`, whatever
      the port, even when `p` is empty. */
  lemma SiteDropsPort(p: string, port: string)
    requires ':' !in p
    ensures GetSiteFromHost(Some(p + ":" + port)) == p
  {
    var h := p + ":" + port;
    assert h == p + (":" + port);
    IndexOfAfterPrefix(p, ":" + port, ':');
    SiteIsPrefix(h);
    assert h[..|p|] == p;
  }

  /** A non-empty host without a colon is its own site. */
  lemma SiteOfPlainHost(h: string)
    requires h != "" && ':' !in h
    ensures GetSiteFromHost(Some(h)) == h
  {
    SiteIsPrefix(h);
    assert h[..|h|] == h;
  }

  /** Adding a port to a non-empty host does not change its site, so
      `"x:8000"` and `"x"` reach the same tenant. */
  lemma SiteIgnoresPort(h: string, port: string)
    requires h != ""
    ensures GetSiteFromHost(Some(h + ":" + port)) == GetSiteFromHost(Some(h))
  {
    if ':' in h {
      var i := IndexOf(h, ':');
      assert h + ":" + port == h + (":" + port);
      IndexOfExtend(h, ":" + port, ':');
      SiteIsPrefix(h);
      SiteIsPrefix(h + ":" + port);
      assert (h + ":" + port)[..i] == h[..i];
    } else {
      SiteOfPlainHost(h);
      SiteDropsPort(h, port);
    }
  }

  /** `get_site_from_host("site.example.com:8000")` is `"site.example.com"`. */
  lemma PortStrippedExample(h: string)
    requires h == "site.example.com:8000"
    ensures GetSiteFromHost(Some(h)) == "site.example.com"
  {
    var p, port := "site.example.com", "8000";
    assert p + ":" + port == h;
    SiteDropsPort(p, port);
  }

  /** `get_site_from_host(":8000")` is the empty string, not `"unknown"`. */
  lemma PortOnlyExample(h: string)
    requires h == ":8000"
    ensures GetSiteFromHost(Some(h)) == ""
  {
    var p, port := "", "8000";
    assert p + ":" + port == h;
    SiteDropsPort(p, port);
  }
}
