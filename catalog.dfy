/**
 * The static data of mcp_server_bwt/tools/bing_webmaster.py: the
 * `SERVICE_CLASSES` map from service attribute to service class, and the
 * registration table of `add_bing_webmaster_tools`, one (service attribute,
 * method name) pair per tool, in source order and grouped by the source's
 * sections.
 */
module Catalog {

  /** `SERVICE_CLASSES`: service attribute name to the (foreign) service class, named by module and class. */
  const ServiceClasses: map<string, string> := map[
    "sites" := "site_management.SiteManagementService",
    "submission" := "submission.SubmissionService",
    "traffic" := "traffic_analysis.TrafficAnalysisService",
    "crawling" := "crawling.CrawlingService",
    "keywords" := "keyword_analysis.KeywordAnalysisService",
    "links" := "link_analysis.LinkAnalysisService",
    "content" := "content_management.ContentManagementService",
    "blocking" := "content_blocking.ContentBlockingService",
    "regional" := "regional_settings.RegionalSettingsService",
    "urls" := "url_management.UrlManagementService"
  ]

  /** One `wrap_service_method(mcp, service, serviceAttr, methodName)` call of the table. */
  datatype Registration = Registration(serviceAttr: string, methodName: string)

  /** A section of the table: every method of it is wrapped from the same service attribute. */
  function Section(serviceAttr: string, methodNames: seq<string>): (r: seq<Registration>)
    ensures |r| == |methodNames|
    ensures forall i :: 0 <= i < |r| ==> r[i] == Registration(serviceAttr, methodNames[i])
  {
    seq(|methodNames|, i requires 0 <= i < |methodNames| => Registration(serviceAttr, methodNames[i]))
  }

  // The method names of each section, in registration order.

  const SiteTools: seq<string> := [
    "get_sites", "add_site", "verify_site", "remove_site", "get_site_roles", "add_site_roles",
    "remove_site_role", "get_site_moves", "submit_site_move"]
  const SubmissionTools: seq<string> := [
    "submit_url", "submit_url_batch", "submit_content", "submit_feed", "get_feeds", "get_feed_details",
    "remove_feed", "get_url_submission_quota", "get_content_submission_quota", "fetch_url",
    "get_fetched_urls", "get_fetched_url_details"]
  const TrafficTools: seq<string> := [
    "get_query_stats", "get_query_traffic_stats", "get_query_page_stats", "get_query_page_detail_stats",
    "get_page_stats", "get_page_query_stats", "get_rank_and_traffic_stats"]
  const CrawlingTools: seq<string> := [
    "get_crawl_stats", "get_crawl_settings", "save_crawl_settings", "get_crawl_issues"]
  const KeywordTools: seq<string> := [
    "get_keyword", "get_keyword_stats", "get_related_keywords"]
  const LinkTools: seq<string> := [
    "get_link_counts", "get_url_links", "get_deep_link", "get_deep_link_blocks", "add_deep_link_block",
    "remove_deep_link_block", "update_deep_link", "get_deep_link_algo_urls", "get_connected_pages",
    "add_connected_page"]
  const ContentTools: seq<string> := [
    "get_url_info", "get_url_traffic_info", "get_children_url_info", "get_children_url_traffic_info"]
  const BlockingTools: seq<string> := [
    "get_blocked_urls", "add_blocked_url", "remove_blocked_url", "get_active_page_preview_blocks",
    "add_page_preview_block", "remove_page_preview_block"]
  const RegionalTools: seq<string> := [
    "get_country_region_settings", "add_country_region_settings", "remove_country_region_settings"]
  const UrlTools: seq<string> := [
    "get_query_parameters", "add_query_parameter", "remove_query_parameter", "enable_disable_query_parameter"]

  /** The body of `add_bing_webmaster_tools`, one entry per call, in call order. */
  const Table: seq<Registration> :=
    Section("sites", SiteTools) + (Section("submission", SubmissionTools) + (Section("traffic", TrafficTools) +
    (Section("crawling", CrawlingTools) + (Section("keywords", KeywordTools) + (Section("links", LinkTools) +
    (Section("content", ContentTools) + (Section("blocking", BlockingTools) + (Section("regional", RegionalTools) +
    Section("urls", UrlTools)))))))))

  /** The method names of the table, section after section. */
  const TableMethodNames: seq<string> :=
    SiteTools + (SubmissionTools + (TrafficTools + (CrawlingTools + (KeywordTools + (LinkTools +
    (ContentTools + (BlockingTools + (RegionalTools + UrlTools))))))))

  function MethodNames(rs: seq<Registration>): (names: seq<string>)
    ensures |names| == |rs|
    ensures forall i :: 0 <= i < |rs| ==> names[i] == rs[i].methodName
  {
    seq(|rs|, i requires 0 <= i < |rs| => rs[i].methodName)
  }

  predicate Distinct(names: seq<string>)
  {
    forall i, j :: 0 <= i < j < |names| ==> names[i] != names[j]
  }

  predicate Disjoint(a: seq<string>, b: seq<string>)
  {
    forall i, j :: 0 <= i < |a| && 0 <= j < |b| ==> a[i] != b[j]
  }

  lemma MethodNamesConcat(a: seq<Registration>, b: seq<Registration>)
    ensures MethodNames(a + b) == MethodNames(a) + MethodNames(b)
  {
    assert |MethodNames(a + b)| == |MethodNames(a) + MethodNames(b)|;
    forall i | 0 <= i < |a + b| ensures MethodNames(a + b)[i] == (MethodNames(a) + MethodNames(b))[i] {
      if i >= |a| { assert (a + b)[i] == b[i - |a|]; }
    }
  }

  lemma MethodNamesOfSection(serviceAttr: string, methodNames: seq<string>)
    ensures MethodNames(Section(serviceAttr, methodNames)) == methodNames
  {
  }

  lemma DistinctConcat(a: seq<string>, b: seq<string>)
    requires Distinct(a) && Distinct(b) && Disjoint(a, b)
    ensures Distinct(a + b)
  {
    forall i, j | 0 <= i < j < |a + b| ensures (a + b)[i] != (a + b)[j] {
      if j >= |a| {
        assert (a + b)[j] == b[j - |a|];
        if i >= |a| { assert (a + b)[i] == b[i - |a|]; }
      }
    }
  }

  lemma DisjointConcat(a: seq<string>, b: seq<string>, c: seq<string>)
    requires Disjoint(a, b) && Disjoint(a, c)
    ensures Disjoint(a, b + c)
  {
    forall i, j | 0 <= i < |a| && 0 <= j < |b + c| ensures a[i] != (b + c)[j] {
      if j >= |b| { assert (b + c)[j] == c[j - |b|]; }
    }
  }

  // Each section's names differ among themselves and from every later section's names.
  // The pairs are grouped into several small lemmas only so that each stays a cheap proof;
  // the grouping carries no meaning of its own.

  lemma SectionsInternallyDistinct()
    ensures Distinct(SiteTools) && Distinct(SubmissionTools) && Distinct(TrafficTools)
    ensures Distinct(CrawlingTools) && Distinct(KeywordTools) && Distinct(LinkTools)
    ensures Distinct(ContentTools) && Distinct(BlockingTools) && Distinct(RegionalTools) && Distinct(UrlTools)
  {
  }

  lemma SiteToolsApartEarly()
    ensures Disjoint(SiteTools, SubmissionTools)
  {
  }

  lemma SiteToolsApartMiddle()
    ensures Disjoint(SiteTools, TrafficTools + (CrawlingTools + KeywordTools))
  {
  }

  lemma SiteToolsApartLate()
    ensures Disjoint(SiteTools, LinkTools + (ContentTools + (BlockingTools + (RegionalTools + UrlTools))))
  {
  }

  lemma SubmissionToolsApartEarly()
    ensures Disjoint(SubmissionTools, TrafficTools + (CrawlingTools + KeywordTools))
  {
  }

  lemma SubmissionToolsApartLate()
    ensures Disjoint(SubmissionTools, LinkTools + (ContentTools + (BlockingTools + (RegionalTools + UrlTools))))
  {
  }

  lemma TrafficToolsApart()
    ensures Disjoint(TrafficTools, CrawlingTools + (KeywordTools + (LinkTools +
              (ContentTools + (BlockingTools + (RegionalTools + UrlTools))))))
  {
  }

  lemma CrawlingToolsApart()
    ensures Disjoint(CrawlingTools, KeywordTools + (LinkTools + (ContentTools + (BlockingTools + (RegionalTools + UrlTools)))))
  {
  }

  lemma KeywordToolsApart()
    ensures Disjoint(KeywordTools, LinkTools + (ContentTools + (BlockingTools + (RegionalTools + UrlTools))))
  {
  }

  lemma LinkToolsApart()
    ensures Disjoint(LinkTools, ContentTools + (BlockingTools + (RegionalTools + UrlTools)))
  {
  }

  lemma LaterToolsApart()
    ensures Disjoint(ContentTools, BlockingTools + (RegionalTools + UrlTools))
    ensures Disjoint(BlockingTools, RegionalTools + UrlTools)
    ensures Disjoint(RegionalTools, UrlTools)
  {
  }

  /** The table has 62 entries, one per `wrap_service_method` call. */
  lemma TableSize()
    ensures |Table| == 62
  {
  }

  /** Every service attribute the table uses is a key of `SERVICE_CLASSES`, so the lookup never raises KeyError. */
  lemma TableAttributesKnown()
    ensures forall i :: 0 <= i < |Table| ==> Table[i].serviceAttr in ServiceClasses
  {
  }

  /** No two calls of the table wrap methods of the same name. */
  lemma TableMethodsDistinct()
    ensures forall i, j :: 0 <= i < j < |Table| ==> Table[i].methodName != Table[j].methodName
  {
    MethodNamesOfTable();
    SectionsInternallyDistinct();
    LaterToolsApart();
    DistinctConcat(RegionalTools, UrlTools);
    DistinctConcat(BlockingTools, RegionalTools + UrlTools);
    DistinctConcat(ContentTools, BlockingTools + (RegionalTools + UrlTools));
    LinkToolsApart();
    DistinctConcat(LinkTools, ContentTools + (BlockingTools + (RegionalTools + UrlTools)));
    KeywordToolsApart();
    DistinctConcat(KeywordTools, LinkTools + (ContentTools + (BlockingTools + (RegionalTools + UrlTools))));
    CrawlingToolsApart();
    var fromCrawling := CrawlingTools + (KeywordTools + (LinkTools + (ContentTools + (BlockingTools + (RegionalTools + UrlTools)))));
    DistinctConcat(CrawlingTools, KeywordTools + (LinkTools + (ContentTools + (BlockingTools + (RegionalTools + UrlTools)))));
    TrafficToolsApart();
    DistinctConcat(TrafficTools, fromCrawling);
    var fromLinks := LinkTools + (ContentTools + (BlockingTools + (RegionalTools + UrlTools)));
    SubmissionToolsApartEarly();
    SubmissionToolsApartLate();
    DisjointConcat(SubmissionTools, TrafficTools + (CrawlingTools + KeywordTools), fromLinks);
    assert TrafficTools + fromCrawling == (TrafficTools + (CrawlingTools + KeywordTools)) + fromLinks;
    DistinctConcat(SubmissionTools, TrafficTools + fromCrawling);
    SiteToolsApartEarly();
    SiteToolsApartMiddle();
    SiteToolsApartLate();
    DisjointConcat(SiteTools, TrafficTools + (CrawlingTools + KeywordTools), fromLinks);
    DisjointConcat(SiteTools, SubmissionTools, TrafficTools + fromCrawling);
    DistinctConcat(SiteTools, SubmissionTools + (TrafficTools + fromCrawling));
  }

  /** The method names of the table are those of its sections, in order. */
  lemma MethodNamesOfTable()
    ensures MethodNames(Table) == TableMethodNames
  {
    MethodNamesOfSections(SiteTools, SubmissionTools, TrafficTools, CrawlingTools, KeywordTools,
                          LinkTools, ContentTools, BlockingTools, RegionalTools, UrlTools);
  }

  /** The shape of the table, for any lists of method names. */
  lemma MethodNamesOfSections(n1: seq<string>, n2: seq<string>, n3: seq<string>, n4: seq<string>, n5: seq<string>,
                              n6: seq<string>, n7: seq<string>, n8: seq<string>, n9: seq<string>, n10: seq<string>)
    ensures MethodNames(Section("sites", n1) + (Section("submission", n2) + (Section("traffic", n3) +
              (Section("crawling", n4) + (Section("keywords", n5) + (Section("links", n6) +
              (Section("content", n7) + (Section("blocking", n8) + (Section("regional", n9) +
              Section("urls", n10))))))))))
            == n1 + (n2 + (n3 + (n4 + (n5 + (n6 + (n7 + (n8 + (n9 + n10))))))))
  {
    // Peel one section at a time, from the innermost outwards.
    var s10 := Section("urls", n10);
    MethodNamesOfSection("urls", n10);
    var s9 := Section("regional", n9) + s10;
    MethodNamesOfSection("regional", n9);
    MethodNamesConcat(Section("regional", n9), s10);
    var s8 := Section("blocking", n8) + s9;
    MethodNamesOfSection("blocking", n8);
    MethodNamesConcat(Section("blocking", n8), s9);
    var s7 := Section("content", n7) + s8;
    MethodNamesOfSection("content", n7);
    MethodNamesConcat(Section("content", n7), s8);
    var s6 := Section("links", n6) + s7;
    MethodNamesOfSection("links", n6);
    MethodNamesConcat(Section("links", n6), s7);
    var s5 := Section("keywords", n5) + s6;
    MethodNamesOfSection("keywords", n5);
    MethodNamesConcat(Section("keywords", n5), s6);
    var s4 := Section("crawling", n4) + s5;
    MethodNamesOfSection("crawling", n4);
    MethodNamesConcat(Section("crawling", n4), s5);
    var s3 := Section("traffic", n3) + s4;
    MethodNamesOfSection("traffic", n3);
    MethodNamesConcat(Section("traffic", n3), s4);
    var s2 := Section("submission", n2) + s3;
    MethodNamesOfSection("submission", n2);
    MethodNamesConcat(Section("submission", n2), s3);
    MethodNamesOfSection("sites", n1);
    MethodNamesConcat(Section("sites", n1), s2);
  }
}
