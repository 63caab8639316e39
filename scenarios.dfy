/** Concrete cases of the session's rules, on literal catalogs and strings. */
module Scenarios {
  import opened Common
  import opened Text
  import opened Session
  import opened Utils

  /** A prefix without '/' is followed by its first "//". */
  lemma NoSlashPrefix(a: string)
    requires forall i :: 0 <= i < |a| ==> a[i] != '/'
    ensures FirstDoubleSlashAfter(a)
  {
    forall i | 0 <= i < |a| ensures !MatchAt(a + "//", "//", i) {
      assert (a + "//")[i..i + 2][0] == a[i];
    }
  }

  /** A host without "//". */
  lemma PlainHost(h: string)
    requires forall i :: 0 <= i < |h| ==> h[i] != '/'
    ensures NoDoubleSlash(h)
  {
    forall i | 0 <= i < |h| ensures !MatchAt(h, "//", i) {
      if i + 2 <= |h| {
        assert h[i..i + 2][0] == h[i];
      }
    }
  }

  /** An exact region entry wins over the "ALL" template. */
  lemma ExactRegionWins()
    ensures GetServiceEndpoint(map["svc" := map["ORD" := "https://ord.x.com", "ALL" := "https://x.com"]],
                               "svc", Some("ORD"), None)
            == Success("https://ord.x.com")
  {
  }

  /** With only the "ALL" template, the region becomes the first host label, lower-cased. */
  lemma TemplateGetsRegion()
    ensures GetServiceEndpoint(map["svc" := map["ALL" := "https://x.com"]], "svc", Some("LON"), None)
            == Success("https://lon.x.com")
  {
    var services := map["svc" := map["ALL" := "https://x.com"]];
    var reg := SafeRegion(Some("LON"), None);
    assert reg == "LON";
    assert CatalogUrl(services, "svc", reg) == None;
    SplitHttps();
    assert CatalogUrl(services, "svc", AllRegions) == Some("https:" + "//" + "x.com");
    NoSlashPrefix("https:");
    PlainHost("x.com");
    EndpointFromSimpleTemplate(services, "svc", Some("LON"), None, "https:", "x.com");
    LowerLon();
    JoinLon();
  }

  /** An empty "ALL" template gives the empty URL: `"".replace(...)` is "". */
  lemma EmptyTemplate()
    ensures GetServiceEndpoint(map["svc" := map["ALL" := ""]], "svc", Some("ORD"), None)
            == Success("")
  {
    var services := map["svc" := map["ALL" := ""]];
    assert CatalogUrl(services, "svc", SafeRegion(Some("ORD"), None)) == None;
    EndpointFromPlainTemplate(services, "svc", Some("ORD"), None, "");
  }

  /** The literal splits and joins below are separate lemmas so that each string equality is
      proved on its own, away from the unfolding of the endpoint lookup. */
  lemma SplitHttps()
    ensures "https://x.com" == "https:" + "//" + "x.com"
  {
  }

  lemma JoinLon()
    ensures "https:" + "//" + "lon" + "." + "x.com" == "https://lon.x.com"
  {
  }

  lemma LowerLon()
    ensures Lower("LON") == "lon"
  {
  }

  /** Region lookup is case-sensitive: an "ord" entry does not serve region "ORD", and the default
      region applies when none is given. */
  lemma LookupIsCaseSensitive()
    ensures GetServiceEndpoint(map["svc" := map["ord" := "https://o.x.com", "ALL" := "https://x.com"]],
                               "svc", None, Some("ORD"))
            == Success("https://ord.x.com")
  {
    var services := map["svc" := map["ord" := "https://o.x.com", "ALL" := "https://x.com"]];
    var reg := SafeRegion(None, Some("ORD"));
    assert reg == "ORD";
    assert CatalogUrl(services, "svc", reg) == None;
    SplitHttps();
    assert CatalogUrl(services, "svc", AllRegions) == Some("https:" + "//" + "x.com");
    NoSlashPrefix("https:");
    PlainHost("x.com");
    EndpointFromSimpleTemplate(services, "svc", None, Some("ORD"), "https:", "x.com");
    LowerOrd();
    JoinOrd();
  }

  /** Every "//" of the template is rewritten, not only the scheme separator. */
  lemma EveryDoubleSlashRewritten()
    ensures GetServiceEndpoint(map["svc" := map["ALL" := "https://x.com//v1"]], "svc", Some("ORD"), None)
            == Success("https://ord.x.com//ord.v1")
  {
    var services := map["svc" := map["ALL" := "https://x.com//v1"]];
    var reg := SafeRegion(Some("ORD"), None);
    assert reg == "ORD";
    assert CatalogUrl(services, "svc", reg) == None;
    SplitTwice();
    assert CatalogUrl(services, "svc", AllRegions) == Some("https:" + "//" + "x.com//v1");
    NoSlashPrefix("https:");
    EndpointFromTemplate(services, "svc", Some("ORD"), None, "https:", "x.com//v1");
    LowerOrd();
    var rep := RegionPrefix(reg);
    assert rep == "//" + "ord" + ".";
    PathRewritten(rep);
    JoinTwice();
  }

  /** The "//" inside the path is rewritten as well. */
  lemma PathRewritten(rep: string)
    ensures ReplaceAll("x.com//v1", "//", rep) == "x.com" + rep + "v1"
  {
    SplitTwice();
    NoSlashPrefix("x.com");
    ReplaceAllFirst("x.com", "//", "v1", rep);
    PlainHost("v1");
    ReplaceAllNoMatch("v1", "//", rep);
  }

  lemma SplitTwice()
    ensures "https://x.com//v1" == "https:" + "//" + "x.com//v1"
    ensures "x.com//v1" == "x.com" + "//" + "v1"
  {
  }

  lemma JoinTwice()
    ensures "https:" + ("//" + "ord" + ".") + ("x.com" + ("//" + "ord" + ".") + "v1") == "https://ord.x.com//ord.v1"
  {
  }

  lemma LowerOrd()
    ensures Lower("ORD") == "ord"
  {
  }

  lemma JoinOrd()
    ensures "https:" + "//" + "ord" + "." + "x.com" == "https://ord.x.com"
  {
  }

  /** Neither the region nor "ALL" listed: the lookup fails. */
  lemma NoTemplateFails()
    ensures GetServiceEndpoint(map["svc" := map["ORD" := "https://ord.x.com"]], "svc", Some("LON"), None)
            == Failure(EndpointMissing("svc"))
  {
  }

  /** An empty exact entry falls through to the template. */
  lemma EmptyEntryFallsThrough()
    ensures GetServiceEndpoint(map["svc" := map["LON" := "", "ALL" := "https://x.com"]], "svc", Some("LON"), None)
            == Success("https://lon.x.com")
  {
    var services := map["svc" := map["LON" := "", "ALL" := "https://x.com"]];
    var reg := SafeRegion(Some("LON"), None);
    assert reg == "LON";
    assert CatalogUrl(services, "svc", reg) == Some("");
    SplitHttps();
    assert CatalogUrl(services, "svc", AllRegions) == Some("https:" + "//" + "x.com");
    NoSlashPrefix("https:");
    PlainHost("x.com");
    EndpointFromSimpleTemplate(services, "svc", Some("LON"), None, "https:", "x.com");
    LowerLon();
    JoinLon();
  }

  /** The compiled-in table starts servers, files, keystone, load balancers and DNS, in that
      order, and not databases. */
  lemma DefaultPlan()
    ensures Plan(DefaultServices) == [Servers, Files, Keystone, LoadBalancers, Dns]
  {
    var cs := ConnectOrder;
    assert cs[1..] == [Files, Keystone, LoadBalancers, Dns, Databases];
    assert cs[1..][1..] == [Keystone, LoadBalancers, Dns, Databases];
    assert cs[1..][1..][1..] == [LoadBalancers, Dns, Databases];
    assert cs[1..][1..][1..][1..] == [Dns, Databases];
    assert cs[1..][1..][1..][1..][1..] == [Databases];
    assert cs[1..][1..][1..][1..][1..][1..] == [];
  }

  /** A "[services]" section of `databases = True` and `dns = true` enables databases and
      disables DNS. */
  lemma ConfigEnablesDatabases()
    ensures var f := MergeServiceFlags(DefaultServices, map["databases" := "True", "dns" := "true"]);
      HasServiceFlags(f) && f["databases"] && !f["dns"] && f["servers"]
  {
  }

  /** Punctuation goes, case folds, and the space between words becomes one hyphen. */
  lemma SlugOfTitle()
    ensures Slugify("A, b!") == "a-b"
  {
    SlugStrip();
    SlugLower();
    SlugHyphenate();
  }

  lemma SlugStrip()
    ensures AsciiOnly("A, b!") == "A, b!"
    ensures StripDisallowed("A, b!") == "A b"
  {
    AsciiOnlyIdentity("A, b!");
    assert StripDisallowed("b!") == "b";
    assert StripDisallowed(", b!") == " b";
  }

  lemma SlugLower()
    ensures Trim("A b") == "A b"
    ensures Lower("A b") == "a b"
  {
    assert TrimLeft("A b") == "A b";
    assert Lower(" b") == " b";
  }

  lemma SlugHyphenate()
    ensures Hyphenate("a b") == "a-b"
  {
    assert DropSeparators(" b") == "b";
    assert Hyphenate("b") == "b";
  }
}
