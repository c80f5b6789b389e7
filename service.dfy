/**
 * The session lifecycle of mcp_server_bwt/services/bing_webmaster.py: a
 * `BingWebmasterService` holds at most one client of the foreign Bing
 * Webmaster API; entering its async context builds and opens a fresh client
 * and exposes the client's ten service objects as attributes; exiting closes
 * the client if one is set.
 */
module Service {
  import opened Wrappers
  import opened PyValues

  /** The `SiteInfo` dataclass. `sitemaps` is annotated as a list but defaults to None. */
  datatype SiteInfo = SiteInfo(siteUrl: string, lastCrawlDate: Option<string>, crawlAllowed: bool, sitemaps: Option<seq<string>>)

  /** `SiteInfo(site_url)`: every other field takes its declared default. */
  function SiteInfoOf(siteUrl: string): (r: SiteInfo)
    ensures r.siteUrl == siteUrl
    ensures r.lastCrawlDate == None && r.crawlAllowed && r.sitemaps == None
  {
    SiteInfo(siteUrl, None, true, None)
  }

  /** `Settings(api_key=...)` of the foreign client; its other knobs keep the library's defaults. */
  datatype Settings = Settings(apiKey: string)

  /** How the foreign client behaves when `__aenter__` builds and opens it. */
  datatype ClientBehaviour =
    | Connects
    | ConstructorRaises(error: Exception)
    | OpenRaises(error: Exception)

  datatype ClientPhase = Created | Open | Closed

  /** `client.<attribute>`: one of the ten service objects a client carries, named by its attribute. */
  datatype SubService = SubService(owner: Client, attribute: string)

  /** The ten attributes `__aenter__` copies from the client, in source order. */
  const AttributeNames: seq<string> :=
    ["sites", "submission", "traffic", "crawling", "keywords", "links", "content", "blocking", "regional", "urls"]

  /**
   * A `BingWebmasterClient`. Only what the service does to it is modelled: it
   * is built from settings, opened, and closed with some exception info.
   */
  class Client {
    const settings: Settings
    var phase: ClientPhase
    /** The exception info of every `__aexit__` this client received, oldest first. */
    ghost var exits: seq<ExcInfo>

    constructor (settings: Settings)
      ensures this.settings == settings && phase == Created && exits == []
    {
      this.settings := settings;
      phase := Created;
      exits := [];
    }

    /** `await client.__aenter__()`; `failure` is what the foreign code raises, if anything. */
    method Open(failure: Option<Exception>) returns (raised: Option<Exception>)
      modifies this
      ensures raised == failure
      ensures phase == (if failure.None? then ClientPhase.Open else old(phase))
      ensures exits == old(exits)
    {
      raised := failure;
      if failure.None? {
        phase := ClientPhase.Open;
      }
    }

    /** `await client.__aexit__(exc_type, exc_val, exc_tb)`. */
    method Close(exc: ExcInfo)
      modifies this
      ensures phase == Closed && exits == old(exits) + [exc]
    {
      phase := Closed;
      exits := exits + [exc];
    }
  }

  class BingWebmasterService {
    var settings: Settings
    var client: Client?
    // The ten attributes set by __aenter__; None while an attribute was never assigned.
    var sites: Option<SubService>
    var submission: Option<SubService>
    var traffic: Option<SubService>
    var crawling: Option<SubService>
    var keywords: Option<SubService>
    var links: Option<SubService>
    var content: Option<SubService>
    var blocking: Option<SubService>
    var regional: Option<SubService>
    var urls: Option<SubService>

    /** The ten attributes, in the order of `AttributeNames`. */
    function Exposed(): (e: seq<Option<SubService>>)
      reads this
      ensures |e| == |AttributeNames|
    {
      [sites, submission, traffic, crawling, keywords, links, content, blocking, regional, urls]
    }

    /** `getattr(self, name)` for a service attribute; `None` stands for AttributeError. */
    function Attribute(name: string): (r: Option<SubService>)
      reads this
      ensures r.Some? ==> name in AttributeNames
    {
      if name == "sites" then sites
      else if name == "submission" then submission
      else if name == "traffic" then traffic
      else if name == "crawling" then crawling
      else if name == "keywords" then keywords
      else if name == "links" then links
      else if name == "content" then content
      else if name == "blocking" then blocking
      else if name == "regional" then regional
      else if name == "urls" then urls
      else None
    }

    /** Every service attribute is the same-named member of `c`. */
    ghost predicate Exposes(c: Client)
      reads this
    {
      && sites == Some(SubService(c, "sites")) && submission == Some(SubService(c, "submission"))
      && traffic == Some(SubService(c, "traffic")) && crawling == Some(SubService(c, "crawling"))
      && keywords == Some(SubService(c, "keywords")) && links == Some(SubService(c, "links"))
      && content == Some(SubService(c, "content")) && blocking == Some(SubService(c, "blocking"))
      && regional == Some(SubService(c, "regional")) && urls == Some(SubService(c, "urls"))
    }

    /** Once `c`'s services are exposed, `getattr` finds exactly the ten attribute names, each bound to `c`. */
    lemma AttributeWhenExposed(c: Client, name: string)
      requires Exposes(c)
      ensures Attribute(name) == if name in AttributeNames then Some(SubService(c, name)) else None
    {
    }

    /** No client is open between two uses of the service. */
    ghost predicate Quiescent()
      reads this, client
    {
      client == null || client.phase != ClientPhase.Open
    }

    /** `BingWebmasterService(api_key)`. */
    constructor (apiKey: string)
      ensures settings == Settings(apiKey) && client == null
      ensures forall i :: 0 <= i < |AttributeNames| ==> Exposed()[i] == None
      ensures Quiescent()
    {
      settings := Settings(apiKey);
      client := null;
      sites, submission, traffic, crawling, keywords := None, None, None, None, None;
      links, content, blocking, regional, urls := None, None, None, None, None;
    }

    /**
     * `__aenter__`: build a fresh client from the settings, store it, open it,
     * copy its ten service objects, and return the service itself. If building
     * raises, nothing changes; if opening raises, the new client stays stored,
     * unopened, and no attribute is touched.
     */
    method Enter(b: ClientBehaviour) returns (r: Result<BingWebmasterService, Exception>)
      modifies this
      ensures settings == old(settings)
      ensures b.ConstructorRaises? ==> r == Failure(b.error) && client == old(client) && Exposed() == old(Exposed())
      ensures !b.ConstructorRaises? ==>
                && client != null && fresh(client)
                && client.settings == settings && client.exits == []
      ensures b.OpenRaises? ==> r == Failure(b.error) && client.phase == Created && Exposed() == old(Exposed())
      ensures b.Connects? ==> r == Success(this) && client.phase == ClientPhase.Open && Exposes(client)
    {
      if b.ConstructorRaises? {
        return Failure(b.error);
      }
      ghost var before := Exposed();
      var c := new Client(settings);
      client := c;
      var raised := c.Open(if b.OpenRaises? then Some(b.error) else None);
      if raised.Some? {
        assert Exposed() == before;
        return Failure(raised.value);
      }
      ExposeServices(c);
      r := Success(this);
    }

    /** The "expose all services directly" block of `__aenter__`: copy the ten service objects of `c`. */
    method ExposeServices(c: Client)
      modifies this
      ensures settings == old(settings) && client == old(client)
      ensures Exposes(c)
    {
      sites := Some(SubService(c, "sites"));
      submission := Some(SubService(c, "submission"));
      traffic := Some(SubService(c, "traffic"));
      crawling := Some(SubService(c, "crawling"));
      keywords := Some(SubService(c, "keywords"));
      ExposeRest(c);
    }

    /**
     * The last five of the ten assignments, leaving the first five as they are. The source has one
     * block of ten; it is cut in two here only so that each half stays a cheap proof.
     */
    method ExposeRest(c: Client)
      modifies this
      ensures settings == old(settings) && client == old(client)
      ensures sites == old(sites) && submission == old(submission) && traffic == old(traffic)
      ensures crawling == old(crawling) && keywords == old(keywords)
      ensures links == Some(SubService(c, "links")) && content == Some(SubService(c, "content"))
      ensures blocking == Some(SubService(c, "blocking")) && regional == Some(SubService(c, "regional"))
      ensures urls == Some(SubService(c, "urls"))
    {
      links := Some(SubService(c, "links"));
      content := Some(SubService(c, "content"));
      blocking := Some(SubService(c, "blocking"));
      regional := Some(SubService(c, "regional"));
      urls := Some(SubService(c, "urls"));
    }

    /**
     * `__aexit__`: close the stored client, if any, handing it the exception
     * info unchanged. Returns a false value (Python's None), so an exception
     * leaving the block is never suppressed. The service's own fields stay as
     * they are.
     */
    method Exit(exc: ExcInfo) returns (suppress: bool)
      modifies client
      ensures !suppress
      ensures unchanged(this)
      ensures client != null ==> client.phase == Closed && client.exits == old(client.exits) + [exc]
    {
      if client != null {
        client.Close(exc);
      }
      suppress := false;
    }
  }
}
