/** The fragment of a URL, which no cache key keeps. */
module UrlText {

  /** `url.split("#")[0]` */
  function StripHash(url: string): (base: string)
    ensures '#' !in base
  {
    if url == [] || url[0] == '#' then [] else [url[0]] + StripHash(url[1..])
  }

  lemma {:induction false} StripConcat(base: string, rest: string)
    requires '#' !in base && (rest == "" || rest[0] == '#')
    ensures StripHash(base + rest) == base
  {
    if base == "" {
      assert base + rest == rest;
    } else {
      assert (base + rest)[1..] == base[1..] + rest;
      StripConcat(base[1..], rest);
    }
  }

  lemma StripClean(base: string)
    requires '#' !in base
    ensures StripHash(base) == base
  {
    StripConcat(base, "");
    assert base + "" == base;
  }
}
