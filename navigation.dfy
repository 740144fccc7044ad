/** Page navigation (navigation.go): going to a URL, with "https://" supplied when no
    HTTP scheme is written, history steps, and the configured search engine. Each
    operation ends by waiting for the page to load, unless its first call failed. */
module Navigation {
  import opened Driver
  import opened GoStrings
  import opened Sessions

  predicate HasHttpScheme(url: string) {
    HasPrefix(url, "http://") || HasPrefix(url, "https://")
  }

  /** The URL `Navigate` goes to: the URL itself when it starts with "http://" or
      "https://" (case-sensitively), and otherwise the URL behind "https://". */
  function NormalizeURL(url: string): (r: string)
    ensures HasHttpScheme(r)
    ensures HasHttpScheme(url) ==> r == url
    ensures !HasHttpScheme(url) ==> r == "https://" + url
  {
    if HasHttpScheme(url) then url
    else
      var r := "https://" + url;
      assert r[..|"https://"|] == "https://";
      r
  }

  /** Normalising a normalised URL changes nothing. */
  lemma NormalizeURLIdempotent(url: string)
    ensures NormalizeURL(NormalizeURL(url)) == NormalizeURL(url)
  {
  }

  /** The URL behind the scheme is kept: normalising only ever prepends. */
  lemma NormalizeURLKeepsURL(url: string)
    ensures var r := NormalizeURL(url);
      |r| >= |url| && r[|r| - |url|..] == url
  {
  }

  /** A configuration without a search engine searches DuckDuckGo, whose URL already
      carries its scheme. */
  lemma SearchDefaultsToDuckDuckGo(config: Config)
    requires config.searchEngineURL == ""
    ensures NormalizeURL(ApplyDefaults(config).searchEngineURL) == "https://duckduckgo.com"
  {
    assert ApplyDefaults(config).searchEngineURL == "https://duckduckgo.com";
    assert HasPrefix("https://duckduckgo.com", "https://");
  }

  /** `Navigate`: go to the normalised URL, then wait for the page. */
  method Navigate(s: Session, url: string) returns (st: Status)
    modifies s.driver
    ensures s.driver.Performed([Goto(NormalizeURL(url)), WaitLoad], st)
  {
    var normalizedURL := NormalizeURL(url);
    st := s.driver.CallThenWait(Goto(normalizedURL));
  }

  /** `GoBack`: one step back in the history, then wait for the page. */
  method GoBack(s: Session) returns (st: Status)
    modifies s.driver
    ensures s.driver.Performed([Back, WaitLoad], st)
  {
    st := s.driver.CallThenWait(Back);
  }

  /** `GoForward`: one step forward in the history, then wait for the page. */
  method GoForward(s: Session) returns (st: Status)
    modifies s.driver
    ensures s.driver.Performed([Forward, WaitLoad], st)
  {
    st := s.driver.CallThenWait(Forward);
  }

  /** `Search`: navigate to the configured search engine. */
  method Search(s: Session) returns (st: Status)
    modifies s.driver
    ensures s.driver.Performed([Goto(NormalizeURL(s.config.searchEngineURL)), WaitLoad], st)
  {
    st := Navigate(s, s.config.searchEngineURL);
  }
}
