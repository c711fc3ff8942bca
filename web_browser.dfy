/** URL normalisation of 01_web_browser/main.py's `navigate_to_url`. */
module WebBrowser {
  import opened Strings

  predicate HasScheme(url: string) {
    StartsWith(url, "http://") || StartsWith(url, "https://")
  }

  /** A URL without an exact "http://" or "https://" prefix gets "http://". */
  function NormaliseUrl(url: string): (r: string)
    ensures HasScheme(r)
    ensures HasScheme(url) ==> r == url
    ensures !HasScheme(url) ==> r == "http://" + url && r[|"http://"|..] == url
  {
    if !HasScheme(url) then
      StartsWithConcat("http://", url);
      "http://" + url
    else url
  }

  lemma NormaliseIdempotent(url: string)
    ensures NormaliseUrl(NormaliseUrl(url)) == NormaliseUrl(url)
  {
  }

  /** The empty URL becomes "http://". */
  lemma NormaliseEmpty()
    ensures NormaliseUrl("") == "http://"
  {
  }

  /** The scheme test is case-sensitive. */
  lemma NormaliseIsCaseSensitive()
    ensures NormaliseUrl("HTTP://a") == "http://HTTP://a"
  {
    assert "HTTP://a"[..7] != "http://" by {
      assert "HTTP://a"[..7][0] == 'H';
    }
  }
}
